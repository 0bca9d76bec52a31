/** Row geometry: the height the list view reserves for a row (sizeHint) and the
    height of the offscreen buffer a row is drawn into (bufferSizeHint). Both are
    pure functions of facts about the row, the view and the running animation. */
module Layout {
  import opened Base

  /** The spacing constants of the note list. Their values are configuration the
      delegate reads, so every result below holds for all of them. */
  datatype Spacing = Spacing(
    nextNoteOffset: int,
    pinnedHeaderToNoteSpace: int,
    unpinnedHeaderToNoteSpace: int,
    lastPinnedToUnpinnedHeader: int,
    lastElSepSpace: int)

  /** Height of a row without tags. */
  const PLAIN_ROW_HEIGHT: int := 70
  /** Height of a row with tags (m_rowHeight). */
  const TAGGED_ROW_HEIGHT: int := 106
  /** Height of a "Pinned" / "Notes" section header band. */
  const HEADER_HEIGHT: int := 25
  /** Extra band for the folder name shown in the all-notes view. */
  const FOLDER_LABEL_HEIGHT: int := 20

  /** What the list model answers about one row. */
  datatype RowFacts = RowFacts(
    row: nat,
    hasTags: bool,
    isPinned: bool,
    isFirstPinned: bool,
    isFirstUnpinned: bool,
    hasPinned: bool)

  /** What the view answers: is the pinned section collapsed, is the all-notes view shown. */
  datatype ViewFacts = ViewFacts(collapsed: bool, allNotes: bool)

  /** The animation as seen by one row: is the row animating, the delegate's state
      and the timeline's current frame. */
  datatype Progress = Progress(animating: bool, state: NoteListState, frame: int)

  /** Facts a real list model can give: a first pinned row is pinned, a first unpinned
      row is not, and a pinned row means the list has pinned rows. */
  predicate Consistent(f: RowFacts)
  {
    && (f.isFirstPinned ==> f.isPinned)
    && (f.isFirstUnpinned ==> !f.isPinned)
    && (f.isPinned ==> f.hasPinned)
  }

  function BaseHeight(hasTags: bool): int
  {
    if hasTags then TAGGED_ROW_HEIGHT else PLAIN_ROW_HEIGHT
  }

  /** The measured size of an open inline editor replaces the computed height. */
  predicate MeasuredApplies(f: RowFacts, animating: bool, editorOpen: bool, cached: Option<int>)
  {
    editorOpen && !animating && f.hasTags && cached.Some?
  }

  /** A section header band is drawn above the first pinned and the first unpinned row,
      when the list has pinned rows. */
  predicate HeaderOwed(f: RowFacts)
  {
    f.hasPinned && (f.isFirstPinned || f.isFirstUnpinned)
  }

  /** In a collapsed pinned section only the first pinned row keeps a height: its header. */
  function CollapsedPinnedHeight(f: RowFacts): int
  {
    if f.isFirstPinned then HEADER_HEIGHT else 0
  }

  /** The bottom inset trimmed from every row's height. */
  function Trim(allNotes: bool): int
  {
    if allNotes then 2 else 10
  }

  /** The sum of the vertical offsets that separate a row from what is above it.
      The gap between the last pinned row and the "Notes" header is included only
      when withGap holds (sizeHint includes it, bufferSizeHint does not). */
  function YOffsets(k: Spacing, f: RowFacts, v: ViewFacts, withGap: bool): int
  {
    (if f.row > 0 then k.nextNoteOffset else 0)
    + (if f.isFirstPinned then k.pinnedHeaderToNoteSpace else 0)
    + (if f.isFirstUnpinned then k.unpinnedHeaderToNoteSpace else 0)
    + (if withGap && f.hasPinned && !v.collapsed && f.isFirstUnpinned then k.lastPinnedToUnpinnedHeader else 0)
  }

  /** The row's own height as the animation shows it: scaled by the frame for every
      state but MoveIn, full for MoveIn and for rows that are not animating. */
  function AnimatedBase(base: int, p: Progress): int
  {
    if p.animating && p.state != MoveIn then Scale(base, p.frame) else base
  }

  /** sizeHint: the height the view reserves for a row. */
  function SizeHint(k: Spacing, f: RowFacts, v: ViewFacts, p: Progress, editorOpen: bool, cached: Option<int>): (h: int)
    ensures MeasuredApplies(f, p.animating, editorOpen, cached) ==> h == cached.value
    ensures !MeasuredApplies(f, p.animating, editorOpen, cached) && v.collapsed && f.isPinned ==>
              h == (if f.isFirstPinned then HEADER_HEIGHT else 0)
  {
    if MeasuredApplies(f, p.animating, editorOpen, cached) then cached.value
    else
      var h0 := AnimatedBase(BaseHeight(f.hasTags), p);
      var h1 := if v.allNotes then h0 + FOLDER_LABEL_HEIGHT else h0;
      if v.collapsed && f.isPinned then CollapsedPinnedHeight(f)
      else
        var header := if v.collapsed then f.hasPinned && f.isFirstUnpinned else HeaderOwed(f);
        var h2 := if header then h1 + HEADER_HEIGHT else h1;
        h2 - Trim(v.allNotes) + k.lastElSepSpace + YOffsets(k, f, v, true)
  }

  /** bufferSizeHint: the height of the buffer a row is drawn into. It never depends
      on the frame, has no header band and no gap above the "Notes" header. */
  function BufferSizeHint(k: Spacing, f: RowFacts, v: ViewFacts, animating: bool, editorOpen: bool, cached: Option<int>): (h: int)
    ensures MeasuredApplies(f, animating, editorOpen, cached) ==> h == cached.value
    ensures !MeasuredApplies(f, animating, editorOpen, cached) && v.collapsed && f.isPinned ==>
              h == (if f.isFirstPinned then HEADER_HEIGHT else 0)
  {
    if MeasuredApplies(f, animating, editorOpen, cached) then cached.value
    else
      var h0 := BaseHeight(f.hasTags);
      var h1 := if v.allNotes then h0 + FOLDER_LABEL_HEIGHT else h0;
      if v.collapsed && f.isPinned then CollapsedPinnedHeight(f)
      else h1 - Trim(v.allNotes) + k.lastElSepSpace + YOffsets(k, f, v, false)
  }

  /** A row in the middle of the unpinned section, outside any animation: 70 units
      without tags, 106 with, plus the spacing; all-notes adds 20 and trims 2 instead of 10. */
  lemma PlainRowHeight(k: Spacing, f: RowFacts, v: ViewFacts, p: Progress, editorOpen: bool, cached: Option<int>)
    requires Consistent(f) && !p.animating && !f.isPinned && !f.isFirstUnpinned && f.row > 0
    requires !MeasuredApplies(f, p.animating, editorOpen, cached)
    ensures !v.allNotes && !f.hasTags ==>
              SizeHint(k, f, v, p, editorOpen, cached) == 70 + k.nextNoteOffset - 10 + k.lastElSepSpace
    ensures !v.allNotes && f.hasTags ==>
              SizeHint(k, f, v, p, editorOpen, cached) == 106 + k.nextNoteOffset - 10 + k.lastElSepSpace
    ensures v.allNotes ==>
              SizeHint(k, f, v, p, editorOpen, cached) == BaseHeight(f.hasTags) + 20 + k.nextNoteOffset - 2 + k.lastElSepSpace
  {
  }

  /** A row that is not animating gets its full height: the same as a MoveIn row,
      and the same whatever the frame. */
  lemma RestingRowIgnoresFrame(k: Spacing, f: RowFacts, v: ViewFacts, s1: NoteListState, s2: NoteListState, fr1: int, fr2: int, editorOpen: bool, cached: Option<int>)
    ensures SizeHint(k, f, v, Progress(false, s1, fr1), editorOpen, cached)
         == SizeHint(k, f, v, Progress(false, s2, fr2), editorOpen, cached)
    ensures !MeasuredApplies(f, false, editorOpen, cached) ==>
              (SizeHint(k, f, v, Progress(true, MoveIn, fr1), editorOpen, cached)
               == SizeHint(k, f, v, Progress(false, s2, fr2), editorOpen, cached))
  {
  }

  /** The height an animating (non-MoveIn) row reserves: its base height scaled by
      the frame, plus what a resting row adds around the base. */
  lemma AnimatedRowHeight(k: Spacing, f: RowFacts, v: ViewFacts, p: Progress, editorOpen: bool, cached: Option<int>)
    requires p.animating && p.state != MoveIn && !(v.collapsed && f.isPinned)
    requires 0 <= p.frame <= MAX_FRAME
    ensures var rest := SizeHint(k, f, v, p.(animating := false), false, None);
            var base := BaseHeight(f.hasTags);
            SizeHint(k, f, v, p, editorOpen, cached) == rest - base + Scale(base, p.frame)
            && rest - base <= SizeHint(k, f, v, p, editorOpen, cached) <= rest
  {
    ScaleWithin(BaseHeight(f.hasTags), p.frame);
  }

  /** During Insert, Remove and MoveOut a row's reserved height never decreases as the
      frame grows: it runs from its height without the row body at frame 0 to its full
      height at MAX_FRAME. */
  lemma AnimatedHeightMonotone(k: Spacing, f: RowFacts, v: ViewFacts, s: NoteListState, f1: int, f2: int, editorOpen: bool, cached: Option<int>)
    requires s != MoveIn && 0 <= f1 <= f2
    ensures SizeHint(k, f, v, Progress(true, s, f1), editorOpen, cached)
         <= SizeHint(k, f, v, Progress(true, s, f2), editorOpen, cached)
  {
    ScaleMonotone(BaseHeight(f.hasTags), f1, f2);
  }

  /** Outside animation, the reserved height is the buffer height plus the header band
      above the row and the gap above the "Notes" header: the two parts the compositor
      draws outside the buffer. */
  lemma SizeIsBufferPlusHeader(k: Spacing, f: RowFacts, v: ViewFacts, p: Progress, editorOpen: bool, cached: Option<int>)
    requires Consistent(f) && !p.animating && !(v.collapsed && f.isPinned)
    requires !MeasuredApplies(f, p.animating, editorOpen, cached)
    ensures SizeHint(k, f, v, p, editorOpen, cached)
         == BufferSizeHint(k, f, v, p.animating, editorOpen, cached)
            + (if HeaderOwed(f) then HEADER_HEIGHT else 0)
            + (if f.hasPinned && !v.collapsed && f.isFirstUnpinned then k.lastPinnedToUnpinnedHeader else 0)
  {
  }

  /** The measured size is used exactly when the override applies: otherwise the
      cache and the editor play no part, and both heights are what they would be with
      no editor open and nothing cached. */
  lemma CacheIgnoredOtherwise(k: Spacing, f: RowFacts, v: ViewFacts, p: Progress, editorOpen: bool, cached: Option<int>)
    requires !MeasuredApplies(f, p.animating, editorOpen, cached)
    ensures SizeHint(k, f, v, p, editorOpen, cached) == SizeHint(k, f, v, p, false, None)
    ensures BufferSizeHint(k, f, v, p.animating, editorOpen, cached) == BufferSizeHint(k, f, v, p.animating, false, None)
  {
  }
}
