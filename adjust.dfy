/** `adj_coord`: expanding or contracting the X/Z footprint of a region. */
module Adjust {
  import opened Coordinates

  function Sign(d: int): int {
    if d > 0 then 1 else if d < 0 then -1 else 0
  }

  function Abs(d: int): nat {
    if d < 0 then -d else d
  }

  /** The signed amount: the entered amount to expand, its negation to contract. */
  function Signed(amount: int, expand: bool): int {
    if expand then amount else -amount
  }

  /** `(a2, b2)` is `(a, b)` moved apart by `adj` on each side: the centre stays
      where it is, and the signed gap grows by `2 * adj` in the direction of the
      order of `a` and `b` (not at all when they are equal). */
  ghost predicate MovedApart(a: int, b: int, a2: int, b2: int, adj: int) {
    a2 + b2 == a + b && a2 - b2 == (a - b) + 2 * adj * Sign(a - b)
  }

  /** One axis of `adj_coord`: the larger value moves out by `adj`, the smaller
      moves the other way, equal values stay put. */
  function AdjAxis(a: int, b: int, adj: int): (r: (int, int))
    ensures MovedApart(a, b, r.0, r.1, adj)
  {
    if a > b then (a + adj, b - adj)
    else if a < b then (a - adj, b + adj)
    else (a, b)
  }

  /** `adj_coord(f_group, s_group, expand)` with the amount entered at the prompt
      given as `amount`: two fresh three-value lists, Y copied from the inputs, X
      and Z each moved apart by the signed amount. */
  function AdjCoord(f: seq<int>, s: seq<int>, amount: int, expand: bool): (r: Corners)
    requires |f| >= 3 && |s| >= 3
    ensures IsRegion(r)
    ensures r.first[Y] == f[Y] && r.second[Y] == s[Y]
    ensures MovedApart(f[X], s[X], r.first[X], r.second[X], Signed(amount, expand))
    ensures MovedApart(f[Z], s[Z], r.first[Z], r.second[Z], Signed(amount, expand))
  {
    var adj := Signed(amount, expand);
    var x := AdjAxis(f[X], s[X], adj);
    var z := AdjAxis(f[Z], s[Z], adj);
    Corners([x.0, f[Y], z.0], [x.1, s[Y], z.1])
  }

  // ------------------------------------------------------------ one axis

  /** MovedApart determines the result: no other pair satisfies it. */
  lemma MovedApartUnique(a: int, b: int, adj: int, a2: int, b2: int)
    requires MovedApart(a, b, a2, b2, adj)
    ensures (a2, b2) == AdjAxis(a, b, adj)
  {
  }

  /** Equal values are left alone, whatever the amount. */
  lemma EqualAxisFixed(a: int, adj: int)
    ensures AdjAxis(a, a, adj) == (a, a)
  {
  }

  /** Expanding by a non-negative amount keeps the order and widens a
      non-zero gap by exactly twice the amount. */
  lemma ExpandWidens(a: int, b: int, m: int)
    requires m >= 0
    ensures var r := AdjAxis(a, b, m);
      Sign(r.0 - r.1) == Sign(a - b) &&
      Abs(r.0 - r.1) == if a == b then 0 else Abs(a - b) + 2 * m
  {
  }

  /** Expanding and then contracting by the same non-negative amount restores the axis. */
  lemma ExpandContractAxis(a: int, b: int, m: int)
    requires m >= 0
    ensures var e := AdjAxis(a, b, m); AdjAxis(e.0, e.1, -m) == (a, b)
  {
  }

  /** Contracting and then expanding by the same amount restores the axis
      exactly when the values were equal or the gap exceeds twice the amount
      (always, for a negative amount). */
  lemma ContractExpandAxis(a: int, b: int, m: int)
    ensures var c := AdjAxis(a, b, -m);
      AdjAxis(c.0, c.1, m) == (a, b) <==> a == b || 2 * m < Abs(a - b)
  {
  }

  /** A contraction by half the gap makes the values meet; the axis then counts
      as equal and no later expansion or contraction moves it. */
  lemma ContractCollapses(a: int, b: int, m: int, later: int)
    requires a != b && 2 * m == Abs(a - b)
    ensures var c := AdjAxis(a, b, -m); c.0 == c.1 && AdjAxis(c.0, c.1, later) == c
  {
  }

  /** A contraction by more than half the gap makes the values cross. */
  lemma ContractCrosses(a: int, b: int, m: int)
    requires a != b && 2 * m > Abs(a - b)
    ensures var c := AdjAxis(a, b, -m); Sign(c.0 - c.1) == -Sign(a - b)
  {
  }

  // ---------------------------------------------------------- both corners

  /** Expanding then contracting both corners by the same non-negative amount
      gives back the three values of each corner. */
  lemma ExpandThenContract(f: seq<int>, s: seq<int>, m: int)
    requires |f| >= 3 && |s| >= 3 && m >= 0
    ensures var e := AdjCoord(f, s, m, true);
      AdjCoord(e.first, e.second, m, false) == Corners(f[..3], s[..3])
  {
  }

  /** Contracting then expanding both corners by the same amount gives them
      back exactly when, on X and on Z, the values were equal or further apart
      than twice the amount. */
  lemma ContractThenExpand(f: seq<int>, s: seq<int>, m: int)
    requires |f| >= 3 && |s| >= 3
    ensures var c := AdjCoord(f, s, m, false);
      AdjCoord(c.first, c.second, m, true) == Corners(f[..3], s[..3]) <==>
      && (f[X] == s[X] || 2 * m < Abs(f[X] - s[X]))
      && (f[Z] == s[Z] || 2 * m < Abs(f[Z] - s[Z]))
  {
  }

  /** Expanding then contracting both corners by the same amount of any sign
      gives them back exactly when, on X and on Z, the values were equal or
      further apart than twice the negated amount; a non-negative amount
      always passes, a negative one fails when it makes an axis meet or cross. */
  lemma ExpandThenContractAnyAmount(f: seq<int>, s: seq<int>, m: int)
    requires |f| >= 3 && |s| >= 3
    ensures var e := AdjCoord(f, s, m, true);
      AdjCoord(e.first, e.second, m, false) == Corners(f[..3], s[..3]) <==>
      && (f[X] == s[X] || -2 * m < Abs(f[X] - s[X]))
      && (f[Z] == s[Z] || -2 * m < Abs(f[Z] - s[Z]))
  {
  }

  /** Nothing stops the amount from being negative, and then the round trip
      fails: expanding by -1 makes 1 and 0 cross, and contracting by -1
      pushes them further apart. */
  lemma NegativeAmountBreaksRoundTrip()
    ensures var e := AdjCoord([1, 0, 0], [0, 0, 0], -1, true);
      AdjCoord(e.first, e.second, -1, false) == Corners([-1, 0, 0], [2, 0, 0])
  {
  }

  /** The corners of the documented example, (-75, 92, -864) and
      (-117, 92, -900), expanded by 5. */
  lemma DocumentedExample()
    ensures AdjCoord([-75, 92, -864], [-117, 92, -900], 5, true)
         == Corners([-70, 92, -859], [-122, 92, -905])
  {
  }
}
