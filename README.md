# NoteListDelegate model

A Dafny model of the note list's item delegate in `src/notelistdelegate.cpp`.
The delegate is the Qt object that answers how tall each note row is and paints rows
that are not covered by an inline tag editor. It also runs the row animations for
inserting, removing and moving notes between the pinned and unpinned sections, and
keeps the measured sizes of open inline editors.

The model has one module per concern:

- `Base`:
  - the animation states and the frame range [0, 200];
  - `Scale`, the share `h * frame / 200` of a height, computed exactly and truncated toward zero as C++'s `int(...)` conversion does.
- `Layout`: `sizeHint` and `bufferSizeHint` as pure functions. Their inputs are:
  - the facts the list model gives about a row;
  - the facts the view gives (collapsed pinned section, all-notes view);
  - the animation progress;
  - whether the row's editor is open;
  - the cached measured height.

  The `note_list_constants` spacing values are a `Spacing` parameter, so every result holds for any configuration.
- `Animation`: the animation session as pure step functions from the session before to the session after plus the notifications sent to the view. The session is:
  - the state;
  - the animated rows;
  - the queue of deferred requests;
  - the timeline, an explicit record that is advanced by a number of frames per tick.
- `Compositor`: the decisions `paint`, `paintBackground` and `paintLabels` make before drawing:
  - whether the row is drawn at all;
  - the background fill role and its precedence;
  - the marked drag edges;
  - whether a separator is drawn;
  - the buffer window each animated row is copied from, and where it is copied to.
- `TagChips`: the left-to-right layout loop of `paintTagList`, both as a specification function and as the loop itself.
- `Palette`: the colours of each theme.
- `Delegate`: the class `NoteListDelegate`. Its fields are the state, the animated rows, the queue, the timeline, the size map, the theme and the colours. Its handlers update them in place:
  - `setState`, `setStateI`, the timeline's `frameChanged` and `finished` handlers;
  - `updateSizeMap`, `editorDestroyed`, `clearSizeMap`;
  - `setTheme`.

  Each handler is proved to produce exactly the session and notifications of the corresponding `Animation` step function, or the map and colours stated in its contract.

The view, the list model and the toolkit are inputs:
- lookups such as `isFirstPinnedNote`, `rowCount`, `getNoteIndex` and the selection are parameters;
- the notifications the delegate sends to the view (`sizeHintChanged`, `openPersistentEditor`, `closePersistentEditor`, `animationFinished`) are returned as `HostEvent` values, in order.

### Behaviour of the code worth knowing

- When a queued request comes due, none of whose note ids still resolve, the
  `finished` handler calls `setStateI` with the empty list anyway. The transition is
  started with no rows (`Animation.Finish`).
- A request is queued whatever its kind, including Normal. When a queued Normal is
  dequeued, `setStateI` does not restart the timeline, so any later queued requests
  wait with the timeline stopped. Requests then wait although nothing runs
  (`Animation.QueuedNormalStalls` exhibits this). The invariant "requests wait
  only while the timeline runs" is proved under the condition that no Normal
  request is queued (`Animation.TickKeepsWellformed`).
- The tag chip loop compares the next chip's left edge, which includes the row's
  `x`, against the row's width rather than its right edge. The model keeps this
  comparison (`TagChips.Chips`).

## Model

| member | source | states |
|---|---|---|
| Base.TruncDiv | src/notelistdelegate.cpp:177-182 | the quotient truncates toward zero: for a nonnegative dividend it is the floor, for a negative one it is the ceiling |
| Base.ScaleWithin | src/notelistdelegate.cpp:177-182 | a height scaled by a frame in range lies between 0 and the full height; frame 0 gives 0 and frame 200 gives the full height |
| Base.ScaleMonotone | src/notelistdelegate.cpp:177-182 | the scaled height never decreases as the frame grows |
| Layout.SizeHint | src/notelistdelegate.cpp:158-233 | the measured size of an open editor replaces the height of a resting tagged row; in a collapsed pinned section only the first pinned row keeps a height, 25, and every other pinned row has height 0 |
| Layout.BufferSizeHint | src/notelistdelegate.cpp:235-287 | the same measured-size override and the same collapsed pinned heights as sizeHint |
| Layout.CacheIgnoredOtherwise | src/notelistdelegate.cpp:164-172 | when the override does not apply, both heights are what they would be with no editor open and nothing cached, so the cache is used exactly when the editor is open, the row is not animating, it has tags and an entry exists |
| Layout.PlainRowHeight | src/notelistdelegate.cpp:158-233 | a resting row in the middle of the unpinned section is 70 high without tags and 106 with tags, with 10 trimmed and the spacing added; the all-notes view adds 20 and trims 2 |
| Layout.RestingRowIgnoresFrame | src/notelistdelegate.cpp:177-186 | a row that is not animating has the same height whatever the state and the frame, and a MoveIn row has its full resting height |
| Layout.AnimatedRowHeight | src/notelistdelegate.cpp:177-183 | an animating row that is not in MoveIn reserves its resting height, less its base height, plus the base height scaled by the frame; the result lies between the two |
| Layout.AnimatedHeightMonotone | src/notelistdelegate.cpp:177-183 | during Insert, Remove and MoveOut a row's reserved height never decreases as the frame grows |
| Layout.SizeIsBufferPlusHeader | src/notelistdelegate.cpp:158-287 | outside animation, the reserved height is the buffer height plus the section header band plus the gap above the "Notes" header |
| Animation.Started | src/notelistdelegate.cpp:801-803 | start runs the timeline in the given direction and duration; a stopped timeline starts from frame 0 (forward) or 200 (backward), and a running one keeps its frame |
| Animation.Advanced | src/notelistdelegate.cpp:55-56 | a tick keeps the frame in [0, 200], moves it only in the run's direction, and stops the timeline exactly when it reaches the end frame; a stopped timeline does not move |
| Animation.CollectIds | src/notelistdelegate.cpp:95-101 | the ids of a deferred request are free of duplicates; an id is among them exactly when it is valid and some requested row carries it |
| Animation.Resolve | src/notelistdelegate.cpp:73-83 | a row is among the resolved rows exactly when some queued id still resolves to it; there are no more rows than ids, and exactly as many when every id resolves |
| Animation.StartSession | src/notelistdelegate.cpp:792-824 | a non-Normal transition animates the given rows, runs the timeline forward for Insert and backward otherwise, starting from the first frame of its direction when it was stopped, and closes the editor of every animated row, in row order, sending nothing else; Normal clears the rows and leaves the timeline alone; the queue is unchanged |
| Animation.RequestTransition | src/notelistdelegate.cpp:92-108 | while the timeline runs a request changes nothing but the queue, to which it appends its valid ids and kind only when there are some; otherwise it starts at once on the given rows |
| Animation.Finish | src/notelistdelegate.cpp:66-89 | the finished state is reported first, then the editor of every animated row is reopened in order; the oldest request is dequeued and started on the current rows of its ids, or the session comes to rest at Normal with no rows |
| Animation.Tick | src/notelistdelegate.cpp:60-89 | a tick of a stopped timeline changes nothing and notifies nothing; a running tick whose frame moves first asks the view to recompute the size of every animated row, in order; a tick that does not end the run only moves the frame and sends nothing else, and nothing at all when the frame does not move; a tick that ends the run continues with the finished handler's session and notifications |
| Animation.LongTickFinishes | src/notelistdelegate.cpp:60-89 | a tick of 200 frames always ends the run and leads to the finished handler |
| Animation.TickKeepsSession | src/notelistdelegate.cpp:60-64 | a tick that does not end the run keeps the state, rows and queue and moves the frame only in the run's direction, within range |
| Animation.DrainServesInOrder | src/notelistdelegate.cpp:66-89 | queued requests are served first in, first out: after n runs finish, the n-th request's kind is the current state and, unless it is Normal, the timeline is running on the rows its ids resolve to, and the later ones wait in order |
| Animation.RequestKeepsWellformed | src/notelistdelegate.cpp:92-108 | requests keep the frame in range and queue only while the timeline runs; a non-Normal request adds no queued Normal |
| Animation.TickKeepsWellformed | src/notelistdelegate.cpp:66-89 | with no Normal request queued, ticks keep the frame in range and never leave a request waiting on a stopped timeline |
| Animation.QueuedNormalStalls | src/notelistdelegate.cpp:818-820 | a concrete session with a queued Normal request in which, after the run ends, a request still waits while the timeline is stopped |
| Animation.RemoveThenInsertScenario | src/notelistdelegate.cpp:92-108 | Remove starts at once, backward from frame 200; an Insert requested meanwhile is queued by note id and starts, forward from frame 0, on the row the model then gives the note |
| Compositor.PaintDraws | src/notelistdelegate.cpp:117-129 | paint draws a row exactly when it is animating or has no tags, and it is not a pinned row other than the first in a collapsed pinned section |
| Compositor.CreatesEditor | src/notelistdelegate.cpp:865-880 | an editor is created exactly for a valid row with tags that is not hidden in a collapsed pinned section |
| Compositor.OneRendererPerRow | src/notelistdelegate.cpp:117-129 | outside animation, every visible row is drawn by exactly one of the delegate and its inline editor, and a hidden row by neither |
| Compositor.RevealHeight | src/notelistdelegate.cpp:382-393 | a row that is not animating shows the height the view gave it; for an animating row with a frame in range the window height lies between 0 and the buffer height, the whole buffer being shown at the last frame (at the first frame for MoveIn) and nothing at the first frame (at the last frame for MoveIn) |
| Compositor.SourceWindow | src/notelistdelegate.cpp:396-414 | the copied window spans the buffer's width, ends at the buffer's bottom, and lies inside the buffer whenever its height is at most the buffer's |
| Compositor.RevealWindowInsideBuffer | src/notelistdelegate.cpp:382-393 | during an animation the window lies inside the buffer |
| Compositor.RevealMonotone | src/notelistdelegate.cpp:382-393 | as the frame grows the window grows for all states but MoveIn, for which it shrinks |
| Compositor.RevealOverTime | src/notelistdelegate.cpp:382-393 | with frames played in each transition's direction, Insert and MoveIn reveal more of the row with each tick, and Remove and MoveOut less |
| Compositor.BackgroundBlit | src/notelistdelegate.cpp:396-414 | the row buffer's bottom window is copied; a resting row fills its narrowed rect; a MoveIn row keeps its bottom edge where the full row ends, shifted by a header band; other animating rows start below the header band at the height paint gave them |
| Compositor.LabelsBlit | src/notelistdelegate.cpp:517-545 | the labels buffer is copied exactly for animating rows outside a collapsed pinned section, from the same bottom window, with the same MoveIn anchoring |
| Compositor.BackgroundFill | src/notelistdelegate.cpp:304-334 | for each fill role, the exact condition under which it is used: the collapsed header cell, then selection by application and widget activity, then hover or the drag strip, then the default fill, which pinned rows of a collapsed section do not get |
| Compositor.DragEdges | src/notelistdelegate.cpp:335-377 | edges are marked exactly while an unpinned row is dragged outside the pinned section; left and right always, top exactly on the first unpinned row, bottom exactly on the last row |
| Compositor.StripsInsideBuffer | src/notelistdelegate.cpp:335-377 | each edge strip and the drag strip lie inside the buffer, each against its own side |
| Compositor.NextRowSelected | src/notelistdelegate.cpp:766-771 | the loop finds that the next row is selected exactly when the row below is among the selected rows |
| Compositor.ShouldPaintSeparator | src/notelistdelegate.cpp:758-790 | a separator is drawn exactly when the row is not the last, the view is present, the row is neither hovered nor above the hovered row unless it is selected, it and the row below agree on selection, it is not just above the first unpinned note, and it is not a pinned row in a collapsed section |
| TagChips.Chips | src/notelistdelegate.cpp:714-729 | never more chips than tags |
| TagChips.LayoutChips | src/notelistdelegate.cpp:714-729 | the loop draws exactly the chips of the layout function starting 10 right of the row's x; each starts left of the row's width and is as wide as its name needs |
| TagChips.ChipsShape | src/notelistdelegate.cpp:714-729 | chips sit at the given top, 20 high, each 5 after the one before; the layout stops early only at a left edge that reaches the limit |
| TagChips.ChipsDisjoint | src/notelistdelegate.cpp:714-729 | for name widths that are not negative, every chip ends before any later chip starts |
| Palette.ThemesAndConstructor | src/notelistdelegate.cpp:905-947 | the Light theme's colours are the constructor's; Sepia differs from Light only in the default background; no two themes share their colours |
| Delegate.NoteListDelegate.constructor | src/notelistdelegate.cpp:38-58 | a new delegate is at rest with a stopped 300 ms timeline at frame 0, an empty size map, the Light theme and the constructor's colours |
| Delegate.NoteListDelegate.RowSizeHint | src/notelistdelegate.cpp:164-172 | a resting tagged row with an open editor and a cached entry reserves exactly the cached height |
| Delegate.NoteListDelegate.RowBufferSizeHint | src/notelistdelegate.cpp:239-246 | the same override for the buffer height |
| Delegate.NoteListDelegate.UpdateSizeMap | src/notelistdelegate.cpp:851-855 | only the note's entry changes, to the reported height; the note's resting tagged row with an open editor then reserves exactly that height; the view is told that the row's size changed |
| Delegate.NoteListDelegate.EditorDestroyed | src/notelistdelegate.cpp:857-861 | only the note's entry goes, after which its row's height no longer depends on whether an editor is open; the view is told that the row's size changed |
| Delegate.NoteListDelegate.ClearSizeMap | src/notelistdelegate.cpp:846-849 | no note has a cached height afterwards |
| Delegate.NoteListDelegate.Notify | src/notelistdelegate.cpp:60-64 | one call to the view per row, in row order |
| Delegate.NoteListDelegate.ResolveIds | src/notelistdelegate.cpp:73-83 | the loop yields exactly the resolved rows of the queued ids |
| Delegate.NoteListDelegate.CollectNoteIds | src/notelistdelegate.cpp:95-101 | the loop yields exactly the deferred request's id set |
| Delegate.NoteListDelegate.SetStateI | src/notelistdelegate.cpp:792-824 | the new session and the notifications are exactly those of starting the transition, and the frame stays in range |
| Delegate.NoteListDelegate.SetState | src/notelistdelegate.cpp:92-108 | the new session and notifications are exactly those of the request: queued while running, started otherwise |
| Delegate.NoteListDelegate.Finished | src/notelistdelegate.cpp:66-89 | the new session and notifications are exactly those of the finished handler |
| Delegate.NoteListDelegate.Tick | src/notelistdelegate.cpp:60-89 | the new session and notifications are exactly those of a timeline tick followed, when the run ends, by the finished handler |
| Delegate.NoteListDelegate.SetTheme | src/notelistdelegate.cpp:905-947 | the theme is set and every colour field takes that theme's colour |
| Delegate.ThemeRoundTrip | src/notelistdelegate.cpp:905-947 | switching a freshly themed Light delegate to Dark and back gives back the constructor's colours |

## Left out

- Drawing is not modelled: QPainter calls, fonts, text metrics and elision, the title, date, content and folder texts, section header texts and icons, and the separator line's coordinates. Only the decisions painting depends on are modelled.
- Delegate.NoteListDelegate.Tick: the timeline's easing curve, wall-clock duration and 10 ms update interval become a number of frames per tick, given from outside. This is the only way the frame moves in the model.
- Base.Scale: the source multiplies a height by `frame / 200.0` in floating point and truncates the double. The model computes the exact quotient and truncates it. The two agree for the 70 and 106 row heights sizeHint and paint scale, at every frame. For the buffer heights the reveal windows scale, which depend on the spacing constants or an editor's measured height, the model can be one unit higher than the C++ result when the exact value is a whole number (a buffer of 100 at frame 58 gives 29 here and 28 in C++).
- Animation.CollectIds: the QSet of note ids has an unspecified iteration order. The model keeps the ids in the order the rows were given; Resolve, and so the order of the animated rows, follows that order.
- The `__APPLE__` font choices in the constructor and the icon size offsets are platform configuration, not modelled.
- createEditor's construction and wiring of the editor (themeChanged, updateSizeHint, nearDestroyed connections and recalculateSize), and NoteListDelegateEditor itself, are not part of this model.
- Delegate.NoteListDelegate.SetTheme: the `themeChanged` signal it emits is not among the modelled notifications.
- The trivial accessors and setters (setAnimationDuration, setActive, setRowRightOffset, setHoveredIndex, setIsInAllNotes, hoveredIndex, theme, isInAllNotes, animationState) store or return a field. Their values appear as parameters of the functions that read them.
- Delegate.NoteListDelegate.SetStateI: the `frameChanged` that QTimeLine::start emits for the start frame is not among the returned notifications.
- A null list model in the finished handler resolves no ids. It is modelled as an empty lookup map.
- Delegate.NoteListDelegate.UpdateSizeMap: the stored QSize's width is never read, so the size map stores only heights.
- Compositor.PaintOption, Compositor.HeaderShift, Compositor.DragStripRect, Compositor.EdgeRect and Delegate.NoteListDelegate.CachedHeight are definitions (geometry, and the size-map lookup) without contracts beyond their bodies; their properties are stated by BackgroundBlit, StripsInsideBuffer, RowSizeHint, UpdateSizeMap and EditorDestroyed.
