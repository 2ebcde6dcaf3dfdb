/** The two corners the calculator works on, each an (X, Y, Z) list of integers. */
module Coordinates {

  /** Indexes into a coordinate list. */
  const X := 0
  const Y := 1
  const Z := 2

  /** The first and the second corner of a fill region. */
  datatype Corners = Corners(first: seq<int>, second: seq<int>)

  /** Both corners have the three values X, Y and Z. */
  predicate IsRegion(c: Corners) {
    |c.first| == 3 && |c.second| == 3
  }

  /** The six integers of a `/fill` command, in the order it takes them:
      the first corner, then the second. */
  function FillArgs(c: Corners): (args: seq<int>)
    ensures IsRegion(c) ==> |args| == 6
    ensures IsRegion(c) ==> forall i :: 0 <= i < 3 ==> args[i] == c.first[i] && args[i + 3] == c.second[i]
  {
    c.first + c.second
  }
}
