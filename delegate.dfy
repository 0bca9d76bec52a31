/** NoteListDelegate: the object that owns the animation session, the measured-size
    cache and the theme colours, and whose handlers update them in place. */
module Delegate {
  import opened Base
  import opened Layout
  import opened Animation
  import opened Palette

  class NoteListDelegate {
    var state: NoteListState
    /** The rows animating in the current session (m_animatedIndexes). */
    var animated: seq<nat>
    /** Transitions requested while the timeline ran (m_animationQueue). */
    var queue: seq<Request>
    var timeLine: TimeLine
    /** Measured heights of open inline editors, by note id (m_sizeMap). */
    var sizeMap: map<int, int>
    var theme: Theme
    var titleColor: Color
    var dateColor: Color
    var contentColor: Color
    var defaultColor: Color
    var activeColor: Color
    var notActiveColor: Color
    var hoverColor: Color
    var applicationInactiveColor: Color
    var separatorColor: Color
    /** The note id that marks a row without a note. */
    const invalidNodeId: int
    const spacing: Spacing

    function CurrentSession(): Session
      reads this
    {
      Session(state, animated, queue, timeLine)
    }

    function CurrentColors(): Colors
      reads this
    {
      Colors(titleColor, dateColor, contentColor, defaultColor, activeColor, notActiveColor,
             hoverColor, applicationInactiveColor, separatorColor)
    }

    ghost predicate Valid()
      reads this
    {
      FrameInRange(timeLine)
    }

    constructor (invalidNodeId: int, spacing: Spacing)
      ensures Valid()
      ensures CurrentSession() == InitialSession() && sizeMap == map[]
      ensures theme == Light && CurrentColors() == ConstructorColors()
      ensures this.invalidNodeId == invalidNodeId && this.spacing == spacing
    {
      this.invalidNodeId := invalidNodeId;
      this.spacing := spacing;
      titleColor := Rgb(26, 26, 26);
      dateColor := Rgb(26, 26, 26);
      contentColor := Rgb(142, 146, 150);
      activeColor := Rgb(218, 233, 239);
      notActiveColor := Rgb(175, 212, 228);
      hoverColor := Rgb(207, 207, 207);
      applicationInactiveColor := Rgb(207, 207, 207);
      separatorColor := Rgb(191, 191, 191);
      defaultColor := Rgb(247, 247, 247);
      state := Normal;
      theme := Light;
      timeLine := TimeLine(false, Forward, 0, 300);
      animated := [];
      queue := [];
      sizeMap := map[];
    }

    // ------------------------------------------------------------ measured-size cache

    /** The measured height cached for a note, if any. */
    function CachedHeight(id: int): (r: Option<int>)
      reads this
      ensures r.Some? <==> id in sizeMap
      ensures r.Some? ==> r.value == sizeMap[id]
    {
      if id in sizeMap then Some(sizeMap[id]) else None
    }

    /** sizeHint for a row of this delegate: its facts, its note id, the view's facts
      and whether the row's inline editor is open. */
    function RowSizeHint(f: RowFacts, noteId: int, v: ViewFacts, editorOpen: bool): (h: int)
      reads this
      ensures editorOpen && f.hasTags && f.row !in animated && noteId in sizeMap ==> h == sizeMap[noteId]
    {
      SizeHint(spacing, f, v, Progress(f.row in animated, state, timeLine.frame), editorOpen, CachedHeight(noteId))
    }

    /** bufferSizeHint for a row of this delegate. */
    function RowBufferSizeHint(f: RowFacts, noteId: int, v: ViewFacts, editorOpen: bool): (h: int)
      reads this
      ensures editorOpen && f.hasTags && f.row !in animated && noteId in sizeMap ==> h == sizeMap[noteId]
    {
      BufferSizeHint(spacing, f, v, f.row in animated, editorOpen, CachedHeight(noteId))
    }

    /** updateSizeMap: an editor reports its measured size; only its note's entry changes,
        and the view is told to ask for the row's size again. */
    method UpdateSizeMap(id: int, height: int, row: nat) returns (events: seq<HostEvent>)
      modifies this`sizeMap
      ensures events == [RowEvent(SizeHintChanged, row)]
      ensures sizeMap == old(sizeMap)[id := height]
      ensures CachedHeight(id) == Some(height)
      ensures forall f: RowFacts, v: ViewFacts :: f.hasTags && f.row !in animated ==>
                RowSizeHint(f, id, v, true) == height && RowBufferSizeHint(f, id, v, true) == height
      ensures forall other :: other != id ==> CachedHeight(other) == old(CachedHeight(other))
    {
      sizeMap := sizeMap[id := height];
      events := [RowEvent(SizeHintChanged, row)];
    }

    /** editorDestroyed: only the destroyed editor's entry goes, and the view is told to
        ask for the row's size again. */
    method EditorDestroyed(id: int, row: nat) returns (events: seq<HostEvent>)
      modifies this`sizeMap
      ensures events == [RowEvent(SizeHintChanged, row)]
      ensures sizeMap == old(sizeMap) - {id}
      ensures CachedHeight(id) == None
      ensures forall f: RowFacts, v: ViewFacts, open: bool ::
                RowSizeHint(f, id, v, open) == RowSizeHint(f, id, v, false)
      ensures forall other :: other != id ==> CachedHeight(other) == old(CachedHeight(other))
    {
      sizeMap := sizeMap - {id};
      events := [RowEvent(SizeHintChanged, row)];
    }

    /** clearSizeMap: every entry goes. */
    method ClearSizeMap()
      modifies this`sizeMap
      ensures sizeMap == map[]
      ensures forall id :: CachedHeight(id) == None
    {
      sizeMap := map[];
    }

    // ------------------------------------------------------------ animation session

    /** One call to the view for each row, in order (the loops over m_animatedIndexes). */
    method Notify(call: RowCall, rows: seq<nat>) returns (events: seq<HostEvent>)
      ensures events == ForEach(call, rows)
    {
      events := [];
      for i := 0 to |rows|
        invariant events == ForEach(call, rows[..i])
      {
        events := events + [RowEvent(call, rows[i])];
      }
      assert rows[..|rows|] == rows;
    }

    /** The finished handler's loop: the rows getNoteIndex gives the ids, dropping ids
        it no longer knows. */
    method ResolveIds(ids: seq<int>, lookup: map<int, nat>) returns (rows: seq<nat>)
      ensures rows == Resolve(ids, lookup)
    {
      rows := [];
      for i := 0 to |ids|
        invariant rows == Resolve(ids[..i], lookup)
      {
        assert ids[..i + 1][..i] == ids[..i];
        if ids[i] in lookup {
          rows := rows + [lookup[ids[i]]];
        }
      }
      assert ids[..|ids|] == ids;
    }

    /** setState's loop: the valid note ids of the requested rows, each once. */
    method CollectNoteIds(indexes: seq<RowRef>) returns (ids: seq<int>)
      ensures ids == CollectIds(indexes, invalidNodeId)
    {
      ids := [];
      for i := 0 to |indexes|
        invariant ids == CollectIds(indexes[..i], invalidNodeId)
      {
        assert indexes[..i + 1][..i] == indexes[..i];
        var noteId := indexes[i].noteId;
        if noteId != invalidNodeId && noteId !in ids {
          ids := ids + [noteId];
        }
      }
      assert indexes[..|indexes|] == indexes;
    }

    /** setStateI. */
    method SetStateI(kind: NoteListState, rows: seq<nat>) returns (events: seq<HostEvent>)
      requires Valid()
      modifies this`state, this`animated, this`timeLine
      ensures Valid()
      ensures Step(CurrentSession(), events) == StartSession(old(CurrentSession()), kind, rows)
    {
      animated := rows;
      events := [];
      if kind == Normal {
        animated := [];
      } else {
        events := Notify(CloseEditor, animated);
        var direction := DirectionOf(kind);
        var t := timeLine.(direction := direction, duration := MAX_FRAME);
        if !t.running {
          t := t.(running := true, frame := StartFrame(direction));
        }
        timeLine := t;
      }
      state := kind;
    }

    /** setState: queue the request by note id while the timeline runs, start it otherwise. */
    method SetState(kind: NoteListState, indexes: seq<RowRef>) returns (events: seq<HostEvent>)
      requires Valid()
      modifies this`state, this`animated, this`queue, this`timeLine
      ensures Valid()
      ensures Step(CurrentSession(), events) == RequestTransition(old(CurrentSession()), kind, indexes, invalidNodeId)
    {
      if timeLine.running {
        var ids := CollectNoteIds(indexes);
        if ids != [] {
          queue := queue + [Request(ids, kind)];
        }
        events := [];
      } else {
        events := SetStateI(kind, Rows(indexes));
      }
    }

    /** The finished handler. */
    method Finished(lookup: map<int, nat>) returns (events: seq<HostEvent>)
      requires Valid()
      modifies this`state, this`animated, this`queue, this`timeLine
      ensures Valid()
      ensures Step(CurrentSession(), events) == Finish(old(CurrentSession()), lookup)
    {
      var reopened := Notify(OpenEditor, animated);
      events := [AnimationFinished(state)] + reopened;
      if queue != [] {
        var next := queue[0];
        queue := queue[1..];
        var rows := ResolveIds(next.ids, lookup);
        var started := SetStateI(next.kind, rows);
        events := events + started;
      } else {
        animated := [];
        state := Normal;
      }
    }

    /** A tick of the timeline by delta frames: frameChanged, then finished when the
        run reaches its end. */
    method Tick(delta: nat, lookup: map<int, nat>) returns (events: seq<HostEvent>)
      requires Valid()
      modifies this`state, this`animated, this`queue, this`timeLine
      ensures Valid()
      ensures Step(CurrentSession(), events) == Animation.Tick(old(CurrentSession()), delta, lookup)
    {
      if !timeLine.running {
        events := [];
        return;
      }
      var before := timeLine.frame;
      timeLine := Advanced(timeLine, delta);
      events := [];
      if timeLine.frame != before {
        events := Notify(SizeHintChanged, animated);
      }
      if !timeLine.running {
        var finished := Finished(lookup);
        events := events + finished;
      }
    }

    // ------------------------------------------------------------ theme

    /** setTheme: every colour field takes the theme's colour. */
    method SetTheme(t: Theme)
      modifies this`theme, this`titleColor, this`dateColor, this`contentColor, this`defaultColor,
               this`activeColor, this`notActiveColor, this`hoverColor, this`applicationInactiveColor,
               this`separatorColor
      ensures theme == t && CurrentColors() == ColorsOf(t)
    {
      theme := t;
      match t {
        case Light =>
          titleColor := Rgb(26, 26, 26);
          dateColor := Rgb(26, 26, 26);
          contentColor := Rgb(142, 146, 150);
          defaultColor := Rgb(247, 247, 247);
          activeColor := Rgb(218, 233, 239);
          notActiveColor := Rgb(175, 212, 228);
          hoverColor := Rgb(207, 207, 207);
          applicationInactiveColor := Rgb(207, 207, 207);
          separatorColor := Rgb(191, 191, 191);
        case Dark =>
          titleColor := Rgb(255, 255, 255);
          dateColor := Rgb(255, 255, 255);
          contentColor := Rgba(255, 255, 255, 127);
          defaultColor := Rgb(25, 25, 25);
          activeColor := Rgba(35, 52, 69, 127);
          notActiveColor := Rgb(35, 52, 69);
          hoverColor := Rgba(35, 52, 69, 127);
          applicationInactiveColor := Rgb(35, 52, 69);
          separatorColor := Rgba(255, 255, 255, 127);
        case Sepia =>
          titleColor := Rgb(26, 26, 26);
          dateColor := Rgb(26, 26, 26);
          contentColor := Rgb(142, 146, 150);
          defaultColor := Rgb(251, 240, 217);
          activeColor := Rgb(218, 233, 239);
          notActiveColor := Rgb(175, 212, 228);
          hoverColor := Rgb(207, 207, 207);
          applicationInactiveColor := Rgb(207, 207, 207);
          separatorColor := Rgb(191, 191, 191);
      }
    }
  }

  /** Switching from Light to Dark and back restores the colours the delegate was
      constructed with, and leaves the session and the cache alone. */
  method ThemeRoundTrip(d: NoteListDelegate)
    requires d.theme == Light && d.CurrentColors() == ConstructorColors()
    modifies d
    ensures d.theme == Light && d.CurrentColors() == ConstructorColors()
    ensures d.CurrentSession() == old(d.CurrentSession()) && d.sizeMap == old(d.sizeMap)
  {
    d.SetTheme(Dark);
    assert d.CurrentColors() != ConstructorColors();
    d.SetTheme(Light);
    ThemesAndConstructor();
  }
}
