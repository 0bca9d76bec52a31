/** The left-to-right layout of tag chips in paintTagList. The width of each tag's
    name comes from the font metrics and is an input here, in the order the tag set
    is iterated. */
module TagChips {
  import opened Compositor

  /** The first chip starts this far right of the row's left edge. */
  const FIRST_CHIP_INSET: int := 10
  /** The space between two chips. */
  const CHIP_GAP: int := 5
  const CHIP_HEIGHT: int := 20

  /** A chip is 5 + 12 + 5 units of padding and dot, the name, and 7 units after it. */
  function ChipWidth(nameWidth: int): int
  {
    5 + 12 + 5 + nameWidth + 7
  }

  /** Where the chip after the given ones would start. */
  function NextLeft(left: int, chips: seq<Rect>): int
  {
    if chips == [] then left else chips[|chips| - 1].x + chips[|chips| - 1].width + CHIP_GAP
  }

  /** The chips laid out from left on, one per name, stopping before the first chip
      whose left edge is not below limit. */
  function Chips(left: int, limit: int, top: int, nameWidths: seq<int>): (chips: seq<Rect>)
    ensures |chips| <= |nameWidths|
    decreases |nameWidths|
  {
    if nameWidths == [] || left >= limit then []
    else
      var first := Rect(left, top, ChipWidth(nameWidths[0]), CHIP_HEIGHT);
      var rest := Chips(left + first.width + CHIP_GAP, limit, top, nameWidths[1..]);
      [first] + rest
  }

  lemma ChipsUnfold(left: int, limit: int, top: int, nameWidths: seq<int>, i: int)
    requires 0 <= i < |nameWidths| && left < limit
    ensures Chips(left, limit, top, nameWidths[i..])
         == [Rect(left, top, ChipWidth(nameWidths[i]), CHIP_HEIGHT)]
            + Chips(left + ChipWidth(nameWidths[i]) + CHIP_GAP, limit, top, nameWidths[i + 1..])
  {
    assert nameWidths[i..][1..] == nameWidths[i + 1..];
  }

  /** paintTagList's loop: the chips it draws for a row whose rect starts at x and is
      width wide, at the given top. */
  method LayoutChips(x: int, width: int, top: int, nameWidths: seq<int>) returns (chips: seq<Rect>)
    ensures chips == Chips(x + FIRST_CHIP_INSET, width, top, nameWidths)
    ensures forall i :: 0 <= i < |chips| ==> chips[i].x < width && chips[i].width == ChipWidth(nameWidths[i])
  {
    var left := x + FIRST_CHIP_INSET;
    chips := [];
    var i := 0;
    while i < |nameWidths|
      invariant 0 <= i <= |nameWidths|
      invariant chips + Chips(left, width, top, nameWidths[i..]) == Chips(x + FIRST_CHIP_INSET, width, top, nameWidths)
    {
      if left >= width {
        break;
      }
      var rect := Rect(left, top, ChipWidth(nameWidths[i]), CHIP_HEIGHT);
      ChipsUnfold(left, width, top, nameWidths, i);
      ghost var rest := Chips(left + rect.width + CHIP_GAP, width, top, nameWidths[i + 1..]);
      assert chips + [rect] + rest == chips + ([rect] + rest);
      chips := chips + [rect];
      left := left + rect.width + CHIP_GAP;
      i := i + 1;
    }
    assert Chips(left, width, top, nameWidths[i..]) == [];
    ChipsShape(x + FIRST_CHIP_INSET, width, top, nameWidths);
  }

  /** The shape of the layout: the first chip starts at left, each chip is as wide as
      its name needs and starts CHIP_GAP after the one before, every chip starts left
      of limit, and the layout stops early only at a left edge that is not. */
  lemma {:induction false} ChipsShape(left: int, limit: int, top: int, nameWidths: seq<int>)
    ensures var chips := Chips(left, limit, top, nameWidths);
            && (|chips| > 0 ==> chips[0].x == left)
            && (forall i :: 0 <= i < |chips| ==>
                  && chips[i].y == top && chips[i].height == CHIP_HEIGHT
                  && chips[i].width == ChipWidth(nameWidths[i])
                  && chips[i].x < limit)
            && (forall i :: 0 <= i < |chips| - 1 ==> chips[i + 1].x == chips[i].x + chips[i].width + CHIP_GAP)
            && (|chips| < |nameWidths| ==> NextLeft(left, chips) >= limit)
    decreases |nameWidths|
  {
    if nameWidths != [] && left < limit {
      var next := left + ChipWidth(nameWidths[0]) + CHIP_GAP;
      ChipsShape(next, limit, top, nameWidths[1..]);
      var chips := Chips(left, limit, top, nameWidths);
      var rest := Chips(next, limit, top, nameWidths[1..]);
      assert chips == [chips[0]] + rest;
      assert forall i :: 1 <= i < |chips| ==> chips[i] == rest[i - 1];
      if |chips| < |nameWidths| && rest != [] {
        assert chips[|chips| - 1] == rest[|rest| - 1];
      }
    }
  }

  /** Chips never overlap: with name widths that are not negative, every chip ends
      before the next one starts. */
  lemma {:induction false} ChipsDisjoint(left: int, limit: int, top: int, nameWidths: seq<int>, i: int, j: int)
    requires forall k :: 0 <= k < |nameWidths| ==> 0 <= nameWidths[k]
    requires 0 <= i < j < |Chips(left, limit, top, nameWidths)|
    ensures var chips := Chips(left, limit, top, nameWidths);
            chips[i].x + chips[i].width < chips[j].x
    decreases j - i
  {
    var chips := Chips(left, limit, top, nameWidths);
    ChipsShape(left, limit, top, nameWidths);
    if j > i + 1 {
      ChipsDisjoint(left, limit, top, nameWidths, i + 1, j);
      assert chips[i + 1].width >= 0;
    }
  }
}
