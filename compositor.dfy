/** What paint, paintBackground and paintLabels decide before they draw: whether the
    delegate draws the row at all, which fill the background gets, which drag edges
    are marked, whether a separator is drawn, and which window of the row buffer is
    copied where on the view. The drawing itself is not modelled. */
module Compositor {
  import opened Base
  import opened Layout
  import Animation

  /** A QRect given by its left, top, width and height. Its right edge is
      x + width - 1 and its bottom edge y + height - 1, as in Qt. */
  datatype Rect = Rect(x: int, y: int, width: int, height: int)

  predicate Inside(r: Rect, outer: Rect)
  {
    outer.x <= r.x && r.x + r.width <= outer.x + outer.width
    && outer.y <= r.y && r.y + r.height <= outer.y + outer.height
  }

  /** A copy of the source window of the row buffer onto the target rectangle. */
  datatype Blit = Blit(target: Rect, source: Rect)

  // ---------------------------------------------------------------- gating

  /** paint draws a row unless it rests with tags (its inline editor draws it) or it
      is hidden in a collapsed pinned section. */
  function PaintDraws(f: RowFacts, v: ViewFacts, animating: bool, modelPresent: bool): (b: bool)
    ensures b ==> animating || !f.hasTags
    ensures b ==> !(v.collapsed && f.isPinned && modelPresent && !f.isFirstPinned)
    ensures !b ==> (!animating && f.hasTags) || (v.collapsed && f.isPinned && modelPresent && !f.isFirstPinned)
  {
    if !animating && f.hasTags then false
    else if v.collapsed && f.isPinned && modelPresent && !f.isFirstPinned then false
    else true
  }

  /** createEditor makes an inline editor only for a valid row with tags that is not
      hidden in a collapsed pinned section; otherwise it returns null. */
  function CreatesEditor(valid: bool, f: RowFacts, v: ViewFacts): (b: bool)
    ensures b ==> valid && f.hasTags
    ensures b ==> !(v.collapsed && f.isPinned && !f.isFirstPinned)
    ensures !b ==> !valid || !f.hasTags || (v.collapsed && f.isPinned && !f.isFirstPinned)
  {
    if !valid then false
    else if v.collapsed && f.isPinned && !f.isFirstPinned then false
    else f.hasTags
  }

  /** Outside animation every visible row is drawn by exactly one of the delegate and
      an inline editor, and a hidden row by neither. */
  lemma OneRendererPerRow(f: RowFacts, v: ViewFacts)
    ensures var hidden := v.collapsed && f.isPinned && !f.isFirstPinned;
            && (!hidden ==> (PaintDraws(f, v, false, true) <==> !CreatesEditor(true, f, v)))
            && (hidden ==> !PaintDraws(f, v, false, true) && !CreatesEditor(true, f, v))
  {
  }

  // ---------------------------------------------------------------- reveal window

  /** The height of the buffer window shown: for an animating row the buffer height
      scaled by frame / MAX_FRAME, or by 1 - frame / MAX_FRAME for MoveIn; for any
      other row the height the view gave it. */
  function RevealHeight(animating: bool, state: NoteListState, frame: int, bufferHeight: int, optionHeight: int): (rh: int)
    ensures !animating ==> rh == optionHeight
    ensures animating && 0 <= frame <= MAX_FRAME && 0 <= bufferHeight ==> 0 <= rh <= bufferHeight
    ensures animating && 0 <= bufferHeight ==>
              (frame == 0 ==> rh == (if state == MoveIn then bufferHeight else 0))
              && (frame == MAX_FRAME ==> rh == (if state == MoveIn then 0 else bufferHeight))
  {
    if !animating then optionHeight
    else
      var shown := if state != MoveIn then frame else MAX_FRAME - frame;
      if 0 <= frame <= MAX_FRAME && 0 <= bufferHeight then
        ScaleWithin(bufferHeight, shown);
        Scale(bufferHeight, shown)
      else Scale(bufferHeight, shown)
  }

  /** The window is always taken from the bottom of the buffer. */
  function SourceWindow(width: int, bufferHeight: int, rh: int): (r: Rect)
    ensures r.x == 0 && r.width == width && r.height == rh
    ensures r.y + r.height == bufferHeight
    ensures 0 <= width && 0 <= rh <= bufferHeight ==> Inside(r, Rect(0, 0, width, bufferHeight))
  {
    Rect(0, bufferHeight - rh, width, rh)
  }

  /** During an animation the window lies inside the buffer. */
  lemma RevealWindowInsideBuffer(width: int, state: NoteListState, frame: int, bufferHeight: int, optionHeight: int)
    requires 0 <= width && 0 <= bufferHeight && 0 <= frame <= MAX_FRAME
    ensures var rh := RevealHeight(true, state, frame, bufferHeight, optionHeight);
            Inside(SourceWindow(width, bufferHeight, rh), Rect(0, 0, width, bufferHeight))
  {
    if state != MoveIn {
      ScaleWithin(bufferHeight, frame);
    } else {
      ScaleWithin(bufferHeight, MAX_FRAME - frame);
    }
  }

  /** As the frame grows, the window grows for every state but MoveIn, and shrinks for MoveIn. */
  lemma RevealMonotone(state: NoteListState, f1: int, f2: int, bufferHeight: int, optionHeight: int)
    requires 0 <= bufferHeight && 0 <= f1 <= f2 <= MAX_FRAME
    ensures state != MoveIn ==>
              RevealHeight(true, state, f1, bufferHeight, optionHeight) <= RevealHeight(true, state, f2, bufferHeight, optionHeight)
    ensures state == MoveIn ==>
              RevealHeight(true, state, f2, bufferHeight, optionHeight) <= RevealHeight(true, state, f1, bufferHeight, optionHeight)
  {
    if state != MoveIn {
      ScaleMonotone(bufferHeight, f1, f2);
    } else {
      ScaleMonotone(bufferHeight, MAX_FRAME - f2, MAX_FRAME - f1);
    }
  }

  /** Over time, with the frames played in the direction setStateI gives each
      transition, a row is revealed more and more while it is inserted or moved in,
      and less and less while it is removed or moved out. */
  lemma RevealOverTime(kind: NoteListState, t: Animation.TimeLine, delta: nat, bufferHeight: int, optionHeight: int)
    requires kind != Normal && t.direction == Animation.DirectionOf(kind)
    requires Animation.FrameInRange(t) && 0 <= bufferHeight
    ensures var before := RevealHeight(true, kind, t.frame, bufferHeight, optionHeight);
            var after := RevealHeight(true, kind, Animation.Advanced(t, delta).frame, bufferHeight, optionHeight);
            && (kind == Insert || kind == MoveIn ==> before <= after)
            && (kind == Remove || kind == MoveOut ==> after <= before)
  {
    var t2 := Animation.Advanced(t, delta);
    if kind == Insert {
      RevealMonotone(kind, t.frame, t2.frame, bufferHeight, optionHeight);
    } else {
      RevealMonotone(kind, t2.frame, t.frame, bufferHeight, optionHeight);
    }
  }

  /** The option rect paint hands on to paintBackground: narrowed by the right offset
      and, for a row animating in Insert, Remove or MoveOut, as high as a tagged row
      scaled by the frame. */
  function PaintOption(option: Rect, rowRightOffset: int, animating: bool, state: NoteListState, frame: int): Rect
  {
    var h := if animating && (state == Insert || state == Remove || state == MoveOut)
             then Scale(TAGGED_ROW_HEIGHT, frame) else option.height;
    Rect(option.x, option.y, option.width - rowRightOffset, h)
  }

  function HeaderShift(header: bool): int
  {
    if header then HEADER_HEIGHT else 0
  }

  /** paintBackground's copy of its buffer onto the view. header says a section header
      band is drawn above the row. A MoveIn row is copied so that its bottom edge stays
      where the whole row ends. */
  function BackgroundBlit(option: Rect, rowRightOffset: int, animating: bool, state: NoteListState, frame: int, bufferHeight: int, header: bool): (b: Blit)
    ensures var opt := PaintOption(option, rowRightOffset, animating, state, frame);
            && b.source == SourceWindow(opt.width, bufferHeight, RevealHeight(animating, state, frame, bufferHeight, opt.height))
            && (!animating ==> b.target == option.(width := option.width - rowRightOffset) && b.source.y == bufferHeight - option.height)
            && (animating && state == MoveIn ==>
                  b.target.height == b.source.height
                  && b.target.y + b.target.height == option.y + bufferHeight + HeaderShift(header))
            && (animating && state != MoveIn ==> b.target.y == option.y + HeaderShift(header) && b.target.height == opt.height)
  {
    var opt := PaintOption(option, rowRightOffset, animating, state, frame);
    var rh := RevealHeight(animating, state, frame, bufferHeight, opt.height);
    var source := SourceWindow(opt.width, bufferHeight, rh);
    if animating && state == MoveIn then
      Blit(Rect(opt.x, opt.y + bufferHeight - rh + HeaderShift(header), opt.width, rh), source)
    else if animating && header then
      Blit(Rect(opt.x, opt.y + HEADER_HEIGHT, opt.width, opt.height), source)
    else Blit(opt, source)
  }

  /** paintLabels' copy of the buffer of an animating row; a row hidden in a collapsed
      pinned section gets none, and neither does a row that is not animating (its
      labels are drawn on the view directly). */
  function LabelsBlit(option: Rect, animating: bool, state: NoteListState, frame: int, bufferHeight: int, header: bool, f: RowFacts, v: ViewFacts): (r: Option<Blit>)
    ensures r.Some? <==> animating && !(v.collapsed && f.isPinned)
    ensures r.Some? ==>
              && r.value.source == SourceWindow(option.width, bufferHeight, RevealHeight(true, state, frame, bufferHeight, option.height))
              && (state == MoveIn || header ==> r.value.target.height == r.value.source.height)
              && (state == MoveIn ==> r.value.target.y + r.value.target.height == option.y + bufferHeight + HeaderShift(header))
  {
    if !animating || (v.collapsed && f.isPinned) then None
    else
      var rh := RevealHeight(true, state, frame, bufferHeight, option.height);
      var source := SourceWindow(option.width, bufferHeight, rh);
      if state == MoveIn then
        Some(Blit(Rect(option.x, option.y + bufferHeight - rh + HeaderShift(header), option.width, rh), source))
      else if header then
        Some(Blit(Rect(option.x, option.y + HEADER_HEIGHT, option.width, rh), source))
      else Some(Blit(option, source))
  }

  // ---------------------------------------------------------------- background fill

  /** The application state reported by the toolkit. */
  datatype AppState = ApplicationActive | ApplicationInactive | ApplicationHidden | ApplicationSuspended

  /** The colour role the row buffer is filled with, or none. DragStrip is the thin
      strip at the bottom of a hovered pinned row during a drag. */
  datatype Fill = NoFill | DefaultFill | ActiveFill | NotActiveFill | AppInactiveFill | HoverFill | DragStrip

  /** The precedence of background fills: the header-only cell of a collapsed pinned
      section, then selection, then hover, then the default background, which rows
      of a collapsed pinned section do not get. */
  function BackgroundFill(f: RowFacts, v: ViewFacts, selected: bool, hovered: bool, dragging: bool, app: AppState, isActive: bool): (r: Fill)
    ensures var headerCell := f.hasPinned && f.isFirstPinned && v.collapsed;
            && (r == DefaultFill <==> headerCell || (!selected && !hovered && !(v.collapsed && f.isPinned)))
            && (r == ActiveFill <==> !headerCell && selected && app == ApplicationActive && isActive)
            && (r == NotActiveFill <==> !headerCell && selected && app == ApplicationActive && !isActive)
            && (r == AppInactiveFill <==> !headerCell && selected && app == ApplicationInactive)
            && (r == HoverFill <==> !headerCell && !selected && hovered && !dragging)
            && (r == DragStrip <==> !headerCell && !selected && hovered && dragging && f.isPinned)
  {
    if f.hasPinned && f.isFirstPinned && v.collapsed then DefaultFill
    else if selected then
      if app == ApplicationActive then (if isActive then ActiveFill else NotActiveFill)
      else if app == ApplicationInactive then AppInactiveFill
      else NoFill
    else if hovered then
      if dragging then (if f.isPinned then DragStrip else NoFill) else HoverFill
    else if v.collapsed then (if !f.isPinned then DefaultFill else NoFill)
    else DefaultFill
  }

  /** The bottom strip of a hovered pinned row during a drag: rect.setTop(rect.bottom() - 5). */
  function DragStripRect(buffer: Rect): Rect
  {
    Rect(buffer.x, buffer.y + buffer.height - 6, buffer.width, 6)
  }

  // ---------------------------------------------------------------- drag edges

  datatype Edge = Top | Left | Right | Bottom

  /** The edges marked while an unpinned row is dragged outside the pinned section:
      the left and right edges always, the top edge on the first unpinned row and the
      bottom edge on the last row. */
  function DragEdges(dragging: bool, draggingInsidePinned: bool, f: RowFacts, rowCount: int): (es: set<Edge>)
    ensures es == {} <==> !(dragging && !f.isPinned && !draggingInsidePinned)
    ensures es != {} ==> Left in es && Right in es
    ensures Top in es <==> es != {} && f.isFirstUnpinned
    ensures Bottom in es <==> es != {} && f.row == rowCount - 1
  {
    if dragging && !f.isPinned && !draggingInsidePinned then
      var isLast := f.row == rowCount - 1;
      if f.isFirstUnpinned && isLast then {Top, Left, Right, Bottom}
      else if f.isFirstUnpinned then {Top, Left, Right}
      else if isLast then {Bottom, Left, Right}
      else {Left, Right}
    else {}
  }

  /** The strip filled for one edge of the buffer: 4 high at the top, 3 wide at the
      left, from right() - 3 at the right and from bottom() - 3 at the bottom. */
  function EdgeRect(e: Edge, buffer: Rect): Rect
  {
    match e
    case Top => Rect(buffer.x, buffer.y, buffer.width, 4)
    case Left => Rect(buffer.x, buffer.y, 3, buffer.height)
    case Right => Rect(buffer.x + buffer.width - 4, buffer.y, 4, buffer.height)
    case Bottom => Rect(buffer.x, buffer.y + buffer.height - 4, buffer.width, 4)
  }

  /** Every edge strip and the drag strip lie inside a buffer large enough to hold
      them, each against its own side. */
  lemma StripsInsideBuffer(e: Edge, buffer: Rect)
    requires buffer.width >= 4 && buffer.height >= 6
    ensures Inside(EdgeRect(e, buffer), buffer) && Inside(DragStripRect(buffer), buffer)
    ensures e == Top ==> EdgeRect(e, buffer).y == buffer.y
    ensures e == Left ==> EdgeRect(e, buffer).x == buffer.x
    ensures e == Right ==> EdgeRect(e, buffer).x + EdgeRect(e, buffer).width == buffer.x + buffer.width
    ensures e == Bottom ==> EdgeRect(e, buffer).y + EdgeRect(e, buffer).height == buffer.y + buffer.height
  {
  }

  // ---------------------------------------------------------------- separator

  /** The loop over the selected indexes: is the row below this one selected. */
  function NextRowSelected(row: int, selected: seq<int>): (b: bool)
    ensures b <==> row + 1 in selected
  {
    if selected == [] then false
    else row == selected[0] - 1 || NextRowSelected(row, selected[1..])
  }

  /** shouldPaintSeparator. selected holds the rows of the selected indexes,
      hoveredRow the row of the hovered index (-1 when none) and firstUnpinnedRow the
      row of the first unpinned note (-1 when none). */
  function ShouldPaintSeparator(row: int, rowCount: int, viewPresent: bool, selected: seq<int>, hoveredRow: int,
                                firstUnpinnedRow: int, collapsed: bool, isPinned: bool): (b: bool)
    ensures b <==>
              && row != rowCount - 1
              && viewPresent
              && !(row !in selected && (row == hoveredRow - 1 || row == hoveredRow))
              && ((row in selected) <==> (row + 1 in selected))
              && row != firstUnpinnedRow - 1
              && !(collapsed && isPinned)
  {
    if row == rowCount - 1 then false
    else if !viewPresent then false
    else
      var isCurrentSelected := row in selected;
      var isNextRowSelected := NextRowSelected(row, selected);
      if !isCurrentSelected && (row == hoveredRow - 1 || row == hoveredRow) then false
      else if isCurrentSelected == isNextRowSelected then
        row != firstUnpinnedRow - 1 && (collapsed ==> !isPinned)
      else false
  }
}
