/** The string operations the calculator relies on: removing spaces
    (`str.replace(" ", "")`), splitting on a separator (`str.split(",")`),
    stripping surrounding spaces, and reading a whole number (`int(...)`,
    over a simplified grammar).
    Joining and formatting are their partners, used to state round trips. */
module Text {

  datatype Option<T> = None | Some(value: T)

  // ---------------------------------------------------------------- spaces

  /** `s.replace(" ", "")`: every space removed, every other character kept in order. */
  function RemoveSpaces(s: string): (r: string)
    ensures |r| == |s| - Count(s, ' ')
    ensures ' ' !in r
    ensures forall c :: c in r <==> c in s && c != ' '
    ensures ' ' !in s ==> r == s
  {
    if s == [] then []
    else if s[0] == ' ' then RemoveSpaces(s[1..])
    else [s[0]] + RemoveSpaces(s[1..])
  }

  /** Removing spaces from a concatenation removes them from each part in
      turn: together with the single-character cases fixed by the contract,
      this keeps the order and the number of every other character. */
  lemma {:induction false} RemoveSpacesConcat(s: string, t: string)
    ensures RemoveSpaces(s + t) == RemoveSpaces(s) + RemoveSpaces(t)
  {
    if s != [] {
      RemoveSpacesConcat(s[1..], t);
      assert (s + t)[1..] == s[1..] + t;
    } else {
      assert s + t == t;
    }
  }

  /** Removing spaces a second time changes nothing. */
  lemma RemoveSpacesIdempotent(s: string)
    ensures RemoveSpaces(RemoveSpaces(s)) == RemoveSpaces(s)
  {
  }

  /** The spaces `int()` skips before the number: the leading spaces removed. */
  function TrimLeft(s: string): (r: string)
    ensures |r| <= |s| && r == s[|s| - |r|..]
    ensures forall k :: 0 <= k < |s| - |r| ==> s[k] == ' '
    ensures r == [] || r[0] != ' '
  {
    if s != [] && s[0] == ' ' then TrimLeft(s[1..]) else s
  }

  /** The spaces `int()` skips after the number: the trailing spaces removed. */
  function TrimRight(s: string): (r: string)
    ensures |r| <= |s| && r == s[..|r|]
    ensures forall k :: |r| <= k < |s| ==> s[k] == ' '
    ensures r == [] || r[|r| - 1] != ' '
  {
    if s != [] && s[|s| - 1] == ' ' then TrimRight(s[..|s| - 1]) else s
  }

  /** The spaces around a text removed, as `int()` does before reading it. */
  function Trim(s: string): string {
    TrimRight(TrimLeft(s))
  }

  lemma {:induction false} TrimLeftAppendSpace(t: string)
    ensures TrimLeft(t + [' ']) == if TrimLeft(t) == [] then [] else TrimLeft(t) + [' ']
  {
    if t == [] {
      assert t + [' '] == [' '];
      assert TrimLeft([' ']) == TrimLeft([' '][1..]);
    } else if t[0] == ' ' {
      var u := t + [' '];
      assert u[0] == ' ' && u[1..] == t[1..] + [' '];
      TrimLeftAppendSpace(t[1..]);
    } else {
      var u := t + [' '];
      assert u[0] == t[0];
    }
  }

  lemma TrimRightAppendSpace(t: string)
    ensures TrimRight(t + [' ']) == TrimRight(t)
  {
  }

  // ------------------------------------------------------------- splitting

  /** Number of occurrences of `c` in `s`. */
  function Count(s: string, c: char): (n: nat)
    ensures n <= |s|
    ensures n == 0 <==> c !in s
  {
    if s == [] then 0 else (if s[0] == c then 1 else 0) + Count(s[1..], c)
  }

  /** `s.split(sep)` with an explicit separator: the pieces between the
      separators, empty pieces included, so there is always one piece more
      than there are separators and no piece holds a separator. */
  function Split(s: string, sep: char): (parts: seq<string>)
    ensures |parts| == Count(s, sep) + 1
    ensures forall i :: 0 <= i < |parts| ==> sep !in parts[i]
  {
    if s == [] then [[]]
    else
      var rest := Split(s[1..], sep);
      if s[0] == sep then [[]] + rest
      else [[s[0]] + rest[0]] + rest[1..]
  }

  /** `sep.join(parts)`: the partner of Split. */
  function Join(parts: seq<string>, sep: char): (s: string)
    ensures |parts| == 1 ==> s == parts[0]
  {
    if |parts| == 0 then []
    else if |parts| == 1 then parts[0]
    else parts[0] + [sep] + Join(parts[1..], sep)
  }

  /** Splitting and joining again gives back the text. */
  lemma {:induction false} JoinSplit(s: string, sep: char)
    ensures Join(Split(s, sep), sep) == s
  {
    if s != [] {
      var rest := Split(s[1..], sep);
      JoinSplit(s[1..], sep);
      if s[0] == sep {
        assert Split(s, sep) == [[]] + rest;
        assert s == [sep] + s[1..];
      } else if |rest| == 1 {
        assert Split(s, sep) == [[s[0]] + rest[0]];
        assert s == [s[0]] + s[1..];
      } else {
        var parts := Split(s, sep);
        assert parts == [[s[0]] + rest[0]] + rest[1..];
        assert parts[1..] == rest[1..];
        calc {
          Join(parts, sep);
          ([s[0]] + rest[0]) + [sep] + Join(rest[1..], sep);
          [s[0]] + (rest[0] + [sep] + Join(rest[1..], sep));
          [s[0]] + Join(rest, sep);
          [s[0]] + s[1..];
          s;
        }
      }
    }
  }

  /** A piece without separators glued in front of `t` becomes part of the first piece of `t`. */
  lemma {:induction false} SplitPrefix(p: string, t: string, sep: char)
    requires sep !in p
    ensures Split(p + t, sep) == [p + Split(t, sep)[0]] + Split(t, sep)[1..]
  {
    if p != [] {
      var st := Split(t, sep);
      SplitPrefix(p[1..], t, sep);
      assert (p + t)[1..] == p[1..] + t;
      var rest := Split(p[1..] + t, sep);
      assert rest[0] == p[1..] + st[0] && rest[1..] == st[1..];
      assert Split(p + t, sep) == [[p[0]] + rest[0]] + rest[1..];
      assert [p[0]] + (p[1..] + st[0]) == p + st[0];
    } else {
      var rest := Split(t, sep);
      assert p + t == t;
      assert p + rest[0] == rest[0];
      assert rest == [rest[0]] + rest[1..];
    }
  }

  /** Joining pieces that hold no separator and splitting again gives back the pieces. */
  lemma {:induction false} SplitJoin(parts: seq<string>, sep: char)
    requires |parts| >= 1
    requires forall i :: 0 <= i < |parts| ==> sep !in parts[i]
    ensures Split(Join(parts, sep), sep) == parts
  {
    if |parts| == 1 {
      SplitPrefix(parts[0], [], sep);
      assert parts[0] + [] == parts[0];
    } else {
      var tail := Join(parts[1..], sep);
      SplitJoin(parts[1..], sep);
      assert Join(parts, sep) == parts[0] + ([sep] + tail);
      SplitPrefix(parts[0], [sep] + tail, sep);
      assert ([sep] + tail)[1..] == tail;
      assert Split([sep] + tail, sep) == [[]] + parts[1..];
      assert parts[0] + [] == parts[0];
      assert parts == [parts[0]] + parts[1..];
    }
  }

  // --------------------------------------------------------------- numbers

  predicate IsDigit(c: char) { '0' <= c <= '9' }

  /** One or more ASCII decimal digits. */
  predicate IsDigits(s: string) {
    |s| > 0 && forall i :: 0 <= i < |s| ==> IsDigit(s[i])
  }

  /** The whole-number grammar accepted by the model of `int()`: an optional
      `+` or `-` followed by one or more decimal digits. */
  predicate IsIntLiteral(s: string) {
    IsDigits(s) || (|s| > 1 && (s[0] == '+' || s[0] == '-') && IsDigits(s[1..]))
  }

  /** The value of a string of decimal digits, most significant first. */
  function DigitsValue(s: string): nat
    requires forall i :: 0 <= i < |s| ==> IsDigit(s[i])
  {
    if s == [] then 0
    else
      var last := s[|s| - 1];
      assert IsDigit(last);
      DigitsValue(s[..|s| - 1]) * 10 + (last as int - '0' as int)
  }

  /** `int(s)`: Some(value) exactly for the texts of the grammar, None where
      Python raises ValueError. */
  function ParseInt(s: string): (r: Option<int>)
    ensures r.Some? <==> IsIntLiteral(s)
    ensures r.Some? && s[0] == '-' ==> r.value <= 0
    ensures r.Some? && s[0] != '-' ==> r.value >= 0
  {
    if IsDigits(s) then Some(DigitsValue(s))
    else if |s| > 1 && s[0] == '+' && IsDigits(s[1..]) then Some(DigitsValue(s[1..]))
    else if |s| > 1 && s[0] == '-' && IsDigits(s[1..]) then Some(-(DigitsValue(s[1..]) as int))
    else None
  }

  /** `int(line)` on a line as typed at a prompt: the spaces around the
      number are ignored. */
  function ReadInt(s: string): (r: Option<int>)
    ensures r.Some? <==> IsIntLiteral(Trim(s))
    ensures ' ' !in s ==> r == ParseInt(s)
  {
    ParseInt(Trim(s))
  }

  /** A space in front of the number changes nothing. */
  lemma ReadIntSpaceBefore(t: string)
    ensures ReadInt([' '] + t) == ReadInt(t)
  {
  }

  /** A space after the number changes nothing. */
  lemma ReadIntSpaceAfter(t: string)
    ensures ReadInt(t + [' ']) == ReadInt(t)
  {
    TrimLeftAppendSpace(t);
    if TrimLeft(t) == [] {
      assert TrimRight([]) == [];
    } else {
      TrimRightAppendSpace(TrimLeft(t));
    }
  }

  lemma {:induction false} DigitsValueLeadingZero(t: string)
    requires forall i :: 0 <= i < |t| ==> IsDigit(t[i])
    ensures DigitsValue("0" + t) == DigitsValue(t)
  {
    if t != [] {
      var u := t[..|t| - 1];
      DigitsValueLeadingZero(u);
      assert ("0" + t)[..|t|] == "0" + u;
    } else {
      assert "0" + t == "0";
    }
  }

  /** Leading zeros do not change the value: "007" reads as 7. */
  lemma ParseLeadingZero(t: string)
    requires IsDigits(t)
    ensures ParseInt("0" + t) == ParseInt(t)
  {
    DigitsValueLeadingZero(t);
    assert IsDigits("0" + t);
  }

  /** A `+` sign keeps the value and a `-` sign negates it ("-0" reads as 0). */
  lemma ParseSigned(t: string)
    requires IsDigits(t)
    ensures ParseInt("+" + t) == ParseInt(t)
    ensures ParseInt("-" + t) == Some(-ParseInt(t).value)
  {
  }

  /** Digits as `str()` writes them: no leading zero unless the number is 0. */
  predicate IsCanonicalDigits(t: string) {
    IsDigits(t) && (t[0] != '0' || |t| == 1)
  }

  /** An integer as `str()` writes it. */
  predicate IsCanonicalInt(s: string) {
    IsCanonicalDigits(s) || (|s| > 1 && s[0] == '-' && IsCanonicalDigits(s[1..]) && s[1..] != "0")
  }

  lemma {:induction false} DigitsValuePositive(t: string)
    requires IsDigits(t) && t[0] != '0'
    ensures DigitsValue(t) >= 1
  {
    if |t| > 1 {
      DigitsValuePositive(t[..|t| - 1]);
    }
  }

  lemma {:induction false} NatDigitsOfValue(t: string)
    requires IsCanonicalDigits(t)
    ensures NatDigits(DigitsValue(t)) == t
  {
    if |t| > 1 {
      var u := t[..|t| - 1];
      DigitsValuePositive(u);
      NatDigitsOfValue(u);
      assert t == u + [t[|t| - 1]];
    }
  }

  /** Decimal digits of `n`, no leading zeros. */
  function NatDigits(n: nat): (s: string)
    ensures IsDigits(s)
  {
    if n < 10 then ['0' + n as char]
    else NatDigits(n / 10) + ['0' + (n % 10) as char]
  }

  /** `str(n)`: the partner of ParseInt. */
  function FormatInt(n: int): (s: string)
    ensures IsIntLiteral(s)
    ensures ',' !in s && ' ' !in s
  {
    if n < 0 then "-" + NatDigits(-n) else NatDigits(n)
  }

  lemma {:induction false} DigitsRoundTrip(n: nat)
    ensures DigitsValue(NatDigits(n)) == n
  {
    if n >= 10 {
      DigitsRoundTrip(n / 10);
      var s := NatDigits(n);
      assert s[..|s| - 1] == NatDigits(n / 10);
    }
  }

  /** Every integer is read back from its decimal text. */
  lemma ParseFormat(n: int)
    ensures ParseInt(FormatInt(n)) == Some(n)
  {
    if n < 0 {
      DigitsRoundTrip(-n);
      assert FormatInt(n)[1..] == NatDigits(-n);
    } else {
      DigitsRoundTrip(n);
    }
  }

  /** A canonically written integer is written back the same way after reading. */
  lemma FormatParse(s: string)
    requires IsCanonicalInt(s)
    ensures ParseInt(s).Some? && FormatInt(ParseInt(s).value) == s
  {
    if IsCanonicalDigits(s) {
      NatDigitsOfValue(s);
    } else {
      var t := s[1..];
      NatDigitsOfValue(t);
      DigitsValuePositive(t);
      assert s == "-" + t;
    }
  }
}
