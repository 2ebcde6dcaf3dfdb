/** The acceptance rule for the two coordinate lines the user types. */
module Input {
  import opened Text
  import opened Coordinates

  /** Why a pair of coordinate lines is turned down. */
  datatype CoordError =
    | NotWholeNumbers   // some piece is not a whole number
    | NotThreeValues    // every piece is a number, but a line does not hold three

  datatype Result<T> = Ok(value: T) | Err(error: CoordError)

  /** The pieces of one line: spaces removed, then split on commas. */
  function Pieces(line: string): seq<string> {
    Split(RemoveSpaces(line), ',')
  }

  predicate AllIntLiterals(parts: seq<string>) {
    forall i :: 0 <= i < |parts| ==> IsIntLiteral(parts[i])
  }

  /** Reads every piece as a whole number; None as soon as one is not. */
  function ParseAll(parts: seq<string>): (r: Option<seq<int>>)
    ensures r.Some? <==> AllIntLiterals(parts)
    ensures r.Some? ==> |r.value| == |parts|
    ensures r.Some? ==> forall i :: 0 <= i < |parts| ==> Some(r.value[i]) == ParseInt(parts[i])
  {
    if parts == [] then Some([])
    else
      match (ParseInt(parts[0]), ParseAll(parts[1..]))
      case (Some(n), Some(ns)) => Some([n] + ns)
      case _ => None
  }

  /** One pass of `set_coord`: both lines are accepted exactly when every
      piece of both is a whole number and each line has three pieces; the
      corners are then those numbers in order. */
  function AcceptCoords(firstLine: string, secondLine: string): (r: Result<Corners>)
    ensures r.Ok? <==>
      && AllIntLiterals(Pieces(firstLine)) && AllIntLiterals(Pieces(secondLine))
      && |Pieces(firstLine)| == 3 && |Pieces(secondLine)| == 3
    ensures r == Err(NotWholeNumbers) <==>
      !AllIntLiterals(Pieces(firstLine)) || !AllIntLiterals(Pieces(secondLine))
    ensures r.Ok? ==> IsRegion(r.value)
    ensures r.Ok? ==> forall i :: 0 <= i < 3 ==>
      && Some(r.value.first[i]) == ParseInt(Pieces(firstLine)[i])
      && Some(r.value.second[i]) == ParseInt(Pieces(secondLine)[i])
    ensures r.Ok? ==>
      Count(RemoveSpaces(firstLine), ',') == 2 && Count(RemoveSpaces(secondLine), ',') == 2
  {
    match (ParseAll(Pieces(firstLine)), ParseAll(Pieces(secondLine)))
    case (Some(f), Some(s)) =>
      if |f| == 3 == |s| then Ok(Corners(f, s)) else Err(NotThreeValues)
    case _ => Err(NotWholeNumbers)
  }

  /** Spaces anywhere in either line make no difference. */
  lemma SpacesIgnored(firstLine: string, secondLine: string)
    ensures AcceptCoords(firstLine, secondLine)
         == AcceptCoords(RemoveSpaces(firstLine), RemoveSpaces(secondLine))
  {
  }

  /** A coordinate list written the way the prompt asks for it, `X,Y,Z`. */
  function FormatTriple(t: seq<int>): string
    requires |t| == 3
  {
    FormatInt(t[0]) + "," + FormatInt(t[1]) + "," + FormatInt(t[2])
  }

  /** Any two corners typed as `X,Y,Z` lines are accepted and read back unchanged. */
  lemma AcceptFormatted(c: Corners)
    requires IsRegion(c)
    ensures AcceptCoords(FormatTriple(c.first), FormatTriple(c.second)) == Ok(c)
  {
    FormattedPieces(c.first);
    FormattedPieces(c.second);
  }

  lemma FormattedPieces(t: seq<int>)
    requires |t| == 3
    ensures Pieces(FormatTriple(t)) == [FormatInt(t[0]), FormatInt(t[1]), FormatInt(t[2])]
    ensures ParseAll(Pieces(FormatTriple(t))) == Some(t)
  {
    var parts := [FormatInt(t[0]), FormatInt(t[1]), FormatInt(t[2])];
    JoinThree(parts, ',');
    assert RemoveSpaces(FormatTriple(t)) == FormatTriple(t) by {
      assert ' ' !in FormatTriple(t);
    }
    SplitJoin(parts, ',');
    ParseThree(t);
  }

  lemma JoinThree(parts: seq<string>, sep: char)
    requires |parts| == 3
    ensures Join(parts, sep) == parts[0] + [sep] + parts[1] + [sep] + parts[2]
  {
  }

  lemma ParseThree(t: seq<int>)
    requires |t| == 3
    ensures ParseAll([FormatInt(t[0]), FormatInt(t[1]), FormatInt(t[2])]) == Some(t)
  {
    var parts := [FormatInt(t[0]), FormatInt(t[1]), FormatInt(t[2])];
    ParseFormat(t[0]);
    ParseFormat(t[1]);
    ParseFormat(t[2]);
    var r := ParseAll(parts);
    assert r.Some? && |r.value| == 3;
    assert r.value == t;
  }
}
