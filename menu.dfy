/** One pass of the menu loop of `main`: option dispatch, height shift,
    optional height range and optional replacement of the active corners. */
module Menu {
  import opened Text
  import opened Coordinates
  import opened Input
  import opened Adjust

  datatype Command = Expand | Contract | Neither | Reset | Quit | Invalid

  /** The text that selects a command at the menu. */
  function OptionText(cmd: Command): string
    requires cmd != Invalid
  {
    match cmd
    case Expand => "e"
    case Contract => "c"
    case Neither => "n"
    case Reset => "r"
    case Quit => "q"
  }

  /** The menu dispatch, on the option already stripped and lower-cased: each
      of the five option letters selects its command, and any other text is
      an invalid selection. */
  function CommandOf(option: string): (cmd: Command)
    ensures cmd == Invalid <==> option !in {"e", "c", "n", "r", "q"}
    ensures cmd != Invalid ==> OptionText(cmd) == option
  {
    if option == "e" then Expand
    else if option == "c" then Contract
    else if option == "n" then Neither
    else if option == "r" then Reset
    else if option == "q" then Quit
    else Invalid
  }

  /** The commands that compute new corners and go on to the height prompts. */
  predicate Computes(cmd: Command) {
    cmd == Expand || cmd == Contract || cmd == Neither
  }

  /** Every command but Invalid is selected by its own option text. */
  lemma CommandOfOptionText(cmd: Command)
    requires cmd != Invalid
    ensures CommandOf(OptionText(cmd)) == cmd
  {
  }

  /** A yes to "Specify range for height?" or "Replace active coordinates?". */
  predicate IsYes(answer: string)
    ensures IsYes(answer) ==> |answer| > 0 && answer[0] == 'y'
  {
    answer == "y" || answer == "yes"
  }

  /** A no to "Replace active coordinates?". */
  predicate IsNo(answer: string)
    ensures IsNo(answer) ==> |answer| > 0 && answer[0] == 'n'
  {
    answer == "n" || answer == "no"
  }

  /** The lines the user types during one pass, each already stripped and
      lower-cased where the program does so. Where a prompt repeats until
      its input is acceptable, the line given is the one that ended it. */
  datatype Answers = Answers(
    option: string,
    resetFirst: string,   // the two coordinate lines set_coord accepted (option r)
    resetSecond: string,
    amount: string,       // blocks to adjust by (options e and c)
    height: string,       // adjust height by
    range: string,        // specify range for height?
    blocksHigh: string,   // blocks high (only when a range is asked for)
    replace: string)      // replace active coordinates?

  /** The height shift: the entered whole number, or 0 when the entry is not one. */
  function HeightAdjustment(text: string): (h: int)
    ensures ReadInt(text).Some? ==> h == ReadInt(text).value
    ensures ReadInt(text).None? ==> h == 0
  {
    match ReadInt(text)
    case Some(n) => n
    case None => 0
  }

  /** The blocks-high prompt: the entry less one, accepted only when the entry
      is a whole number of 1 or more. */
  function RangeOffset(text: string): (r: Option<nat>)
    ensures r.Some? <==> ReadInt(text).Some? && ReadInt(text).value >= 1
    ensures r.Some? ==> r.value + 1 == ReadInt(text).value
  {
    match ReadInt(text)
    case Some(n) => if n - 1 < 0 then None else Some(n - 1)
    case None => None
  }

  /** The answers with which every retry loop of the pass has ended: a reset
      was accepted, the adjustment amount is a whole number, the blocks-high
      entry is 1 or more, and replace was answered yes or no. */
  predicate Settled(a: Answers)
    ensures Settled(a) && CommandOf(a.option) == Reset ==>
      AcceptCoords(a.resetFirst, a.resetSecond).Ok? &&
      IsRegion(AcceptCoords(a.resetFirst, a.resetSecond).value)
    ensures Settled(a) && Computes(CommandOf(a.option)) && IsYes(a.range) ==>
      ReadInt(a.blocksHigh).Some? && ReadInt(a.blocksHigh).value >= 1
    ensures Settled(a) && Computes(CommandOf(a.option)) ==> IsYes(a.replace) != IsNo(a.replace)
  {
    var cmd := CommandOf(a.option);
    && (cmd == Reset ==> AcceptCoords(a.resetFirst, a.resetSecond).Ok?)
    && (cmd == Expand || cmd == Contract ==> ReadInt(a.amount).Some?)
    && (Computes(cmd) && IsYes(a.range) ==> RangeOffset(a.blocksHigh).Some?)
    && (Computes(cmd) ==> IsYes(a.replace) || IsNo(a.replace))
  }

  // ------------------------------------------------- the pass as functions

  /** The lists `nfg`, `nsg` before the height prompts: adjusted by adj_coord
      for e and c, copies of the active corners for n. */
  function Start(fg: seq<int>, sg: seq<int>, cmd: Command, amount: int): (r: Corners)
    requires |fg| == 3 && |sg| == 3 && Computes(cmd)
    ensures IsRegion(r)
  {
    if cmd == Neither then Corners(fg, sg) else AdjCoord(fg, sg, amount, cmd == Expand)
  }

  /** The same offset on both Y values; X and Z untouched, the span between
      the two Y values kept. */
  function ShiftHeight(c: Corners, h: int): (r: Corners)
    requires IsRegion(c)
    ensures IsRegion(r)
    ensures r.first[X] == c.first[X] && r.first[Z] == c.first[Z]
    ensures r.second[X] == c.second[X] && r.second[Z] == c.second[Z]
    ensures r.first[Y] - c.first[Y] == h
    ensures r.second[Y] - r.first[Y] == c.second[Y] - c.first[Y]
  {
    Corners(c.first[Y := c.first[Y] + h], c.second[Y := c.second[Y] + h])
  }

  /** The height range: the second Y becomes the first Y plus the offset, so
      the region is offset + 1 blocks high and the second Y is never below
      the first; everything else is kept. */
  function SetRange(c: Corners, offset: nat): (r: Corners)
    requires IsRegion(c)
    ensures IsRegion(r) && r.first == c.first
    ensures r.second[X] == c.second[X] && r.second[Z] == c.second[Z]
    ensures r.second[Y] == r.first[Y] + offset
    ensures r.second[Y] >= r.first[Y]
  {
    Corners(c.first, c.second[Y := c.first[Y] + offset])
  }

  /** The results of a pass from the values read at its prompts: the
      command, the adjustment amount, the height shift and, when a range was
      asked for, its offset. */
  function Pass(fg: seq<int>, sg: seq<int>, cmd: Command, amount: int, h: int, range: Option<nat>): (r: Corners)
    requires |fg| == 3 && |sg| == 3 && Computes(cmd)
    ensures IsRegion(r)
  {
    var shifted := ShiftHeight(Start(fg, sg, cmd, amount), h);
    match range
    case Some(offset) => SetRange(shifted, offset)
    case None => shifted
  }

  /** The amount entered for e and c; n asks for none. */
  function Amount(a: Answers): int
    requires Settled(a)
  {
    var cmd := CommandOf(a.option);
    if cmd == Expand || cmd == Contract then ReadInt(a.amount).value else 0
  }

  /** The height-range offset, when a range was asked for. */
  function Range(a: Answers): Option<nat> {
    if IsYes(a.range) then RangeOffset(a.blocksHigh) else None
  }

  /** The results a pass with a computing command prints and may adopt. */
  function Results(fg: seq<int>, sg: seq<int>, a: Answers): (r: Corners)
    requires |fg| == 3 && |sg| == 3 && Settled(a) && Computes(CommandOf(a.option))
    ensures IsRegion(r)
  {
    Pass(fg, sg, CommandOf(a.option), Amount(a), HeightAdjustment(a.height), Range(a))
  }

  // ------------------------------------------------- properties of a pass

  /** The height prompts never touch X and Z: those are what adj_coord made
      (for n, the active values). */
  lemma ResultsKeepFootprint(fg: seq<int>, sg: seq<int>, a: Answers)
    requires |fg| == 3 && |sg| == 3 && Settled(a) && Computes(CommandOf(a.option))
    ensures var r := Results(fg, sg, a);
      var cmd := CommandOf(a.option);
      var s := if cmd == Neither then Corners(fg, sg)
               else AdjCoord(fg, sg, ReadInt(a.amount).value, cmd == Expand);
      r.first[X] == s.first[X] && r.first[Z] == s.first[Z] &&
      r.second[X] == s.second[X] && r.second[Z] == s.second[Z]
  {
  }

  /** Without a range, both Y values move by the height adjustment, so their
      difference is what it was. */
  lemma ResultsHeightShift(fg: seq<int>, sg: seq<int>, a: Answers)
    requires |fg| == 3 && |sg| == 3 && Settled(a) && Computes(CommandOf(a.option))
    requires !IsYes(a.range)
    ensures var r := Results(fg, sg, a);
      r.first[Y] == fg[Y] + HeightAdjustment(a.height) &&
      r.second[Y] == sg[Y] + HeightAdjustment(a.height) &&
      r.second[Y] - r.first[Y] == sg[Y] - fg[Y]
  {
  }

  /** With a range of `count` blocks, the first Y is shifted and the second Y
      is count - 1 above it; a count of 1 makes them equal. */
  lemma ResultsHeightRange(fg: seq<int>, sg: seq<int>, a: Answers)
    requires |fg| == 3 && |sg| == 3 && Settled(a) && Computes(CommandOf(a.option))
    requires IsYes(a.range)
    ensures var r := Results(fg, sg, a);
      var count := ReadInt(a.blocksHigh).value;
      count >= 1 &&
      r.first[Y] == fg[Y] + HeightAdjustment(a.height) &&
      r.second[Y] == r.first[Y] + count - 1 &&
      (count == 1 ==> r.second[Y] == r.first[Y])
  {
  }

  /** Option n with no height change and no range gives the active corners back. */
  lemma NeitherIsCopy(fg: seq<int>, sg: seq<int>, a: Answers)
    requires |fg| == 3 && |sg| == 3 && Settled(a) && CommandOf(a.option) == Neither
    requires HeightAdjustment(a.height) == 0 && !IsYes(a.range)
    ensures Results(fg, sg, a) == Corners(fg, sg)
  {
  }

  // --------------------------------------------------------- the loop state

  /** A fresh list holding `s`: `list(...)`, and the lists adj_coord builds. */
  method NewList(s: seq<int>) returns (l: array<int>)
    ensures fresh(l) && l[..] == s
  {
    l := new int[|s|](i requires 0 <= i < |s| => s[i]);
  }

  /** The part of a pass that computes `nfg` and `nsg`: fresh lists from
      adj_coord (e, c) or copies (n), then the height shift and the optional
      range written into them in place. The active lists are only read. */
  method ComputeResults(fg: array<int>, sg: array<int>, cmd: Command, amount: int, h: int, range: Option<nat>)
    returns (nfg: array<int>, nsg: array<int>)
    requires fg.Length == 3 && sg.Length == 3 && Computes(cmd)
    ensures fresh(nfg) && fresh(nsg)
    ensures Corners(nfg[..], nsg[..]) == Pass(fg[..], sg[..], cmd, amount, h, range)
  {
    if cmd == Neither {
      nfg := NewList(fg[..]);
      nsg := NewList(sg[..]);
    } else {
      var adjusted := AdjCoord(fg[..], sg[..], amount, cmd == Expand);
      nfg := NewList(adjusted.first);
      nsg := NewList(adjusted.second);
    }
    ghost var start := Start(fg[..], sg[..], cmd, amount);
    assert Corners(nfg[..], nsg[..]) == start;

    nfg[Y] := nfg[Y] + h;
    nsg[Y] := nsg[Y] + h;
    ghost var shifted := ShiftHeight(start, h);
    assert Corners(nfg[..], nsg[..]) == shifted;

    if range.Some? {
      nsg[Y] := nfg[Y] + range.value;
      assert Corners(nfg[..], nsg[..]) == SetRange(shifted, range.value);
    }
  }

  /** The state of `main`'s loop: the active corners and whether the loop goes on. */
  class Calculator {
    var fg: array<int>
    var sg: array<int>
    var running: bool

    ghost predicate Valid()
      reads this
    {
      fg.Length == 3 && sg.Length == 3
    }

    ghost function Active(): Corners
      reads this, fg, sg
    {
      Corners(fg[..], sg[..])
    }

    /** `fg, sg = set_coord()`, given the two lines set_coord accepted. */
    constructor (firstLine: string, secondLine: string)
      requires AcceptCoords(firstLine, secondLine).Ok?
      ensures Valid() && running
      ensures Active() == AcceptCoords(firstLine, secondLine).value
    {
      var c := AcceptCoords(firstLine, secondLine).value;
      var first := NewList(c.first);
      var second := NewList(c.second);
      fg, sg, running := first, second, true;
    }

    /** Option r: the active lists become fresh lists holding the two
        lines that set_coord accepted. */
    method ResetCorners(firstLine: string, secondLine: string)
      requires AcceptCoords(firstLine, secondLine).Ok?
      modifies this
      ensures Valid() && running == old(running)
      ensures fresh(fg) && fresh(sg) && Active() == AcceptCoords(firstLine, secondLine).value
    {
      var c := AcceptCoords(firstLine, secondLine).value;
      fg := NewList(c.first);
      sg := NewList(c.second);
    }

    /** Options e, c and n, from the values read at the prompts: the
        results of the pass are shown, and adopted as the active corners when
        `replace` was answered yes; the lists active before the pass are only
        read. */
    method ComputePass(cmd: Command, amount: int, h: int, range: Option<nat>, replace: bool)
      returns (shown: seq<int>)
      requires Valid() && Computes(cmd)
      modifies this
      ensures Valid() && running == old(running)
      ensures old(fg)[..] == old(fg[..]) && old(sg)[..] == old(sg[..])
      ensures shown == FillArgs(Pass(old(fg[..]), old(sg[..]), cmd, amount, h, range))
      ensures !replace ==> fg == old(fg) && sg == old(sg)
      ensures replace ==>
        fresh(fg) && fresh(sg) && Active() == Pass(old(fg[..]), old(sg[..]), cmd, amount, h, range)
    {
      var nfg, nsg := ComputeResults(fg, sg, cmd, amount, h, range);
      shown := nfg[..] + nsg[..];
      if replace {
        fg, sg := nfg, nsg;
      }
    }

    /** One pass of the loop body. `shown` is the six integers of the
        results line. The active corners change only on r (to the accepted
        lines) and on a yes to replace (to exactly the results); q ends the
        loop; the lists active before the pass are never edited. */
    method Step(a: Answers) returns (shown: seq<int>)
      requires Valid() && running && Settled(a)
      modifies this
      ensures Valid()
      ensures old(fg)[..] == old(fg[..]) && old(sg)[..] == old(sg[..])
      ensures running <==> CommandOf(a.option) != Quit
      ensures !Computes(CommandOf(a.option)) ==> shown == []
      ensures CommandOf(a.option) == Reset ==>
        fresh(fg) && fresh(sg) && Active() == AcceptCoords(a.resetFirst, a.resetSecond).value
      ensures CommandOf(a.option) == Quit || CommandOf(a.option) == Invalid ==>
        fg == old(fg) && sg == old(sg)
      ensures Computes(CommandOf(a.option)) ==>
        shown == FillArgs(Results(old(fg[..]), old(sg[..]), a))
      ensures Computes(CommandOf(a.option)) && IsNo(a.replace) ==>
        fg == old(fg) && sg == old(sg)
      ensures Computes(CommandOf(a.option)) && IsYes(a.replace) ==>
        fresh(fg) && fresh(sg) && Active() == Results(old(fg[..]), old(sg[..]), a)
    {
      var cmd := CommandOf(a.option);
      shown := [];
      if cmd == Reset {
        ResetCorners(a.resetFirst, a.resetSecond);
      } else if cmd == Quit {
        running := false;
      } else if cmd != Invalid {
        shown := ComputePass(cmd, Amount(a), HeightAdjustment(a.height), Range(a), IsYes(a.replace));
      }
    }
  }
}
