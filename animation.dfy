/** The animation session: the delegate's state, the rows that are animating, the
    queue of transitions requested while one is running, and the frame timeline.
    Each handler of the delegate is a function from the session before to the
    session after, together with the notifications it sends to the view. */
module Animation {
  import opened Base

  datatype Direction = Forward | Backward

  /** The frame timeline (a QTimeLine with frame range [0, MAX_FRAME]), advanced
      from outside by a number of frames per tick. */
  datatype TimeLine = TimeLine(running: bool, direction: Direction, frame: int, duration: int)

  predicate FrameInRange(t: TimeLine)
  {
    0 <= t.frame <= MAX_FRAME
  }

  /** The frame a run starts from and the frame it ends at. */
  function StartFrame(d: Direction): int
  {
    if d == Forward then 0 else MAX_FRAME
  }

  function EndFrame(d: Direction): int
  {
    if d == Forward then MAX_FRAME else 0
  }

  /** setDirection, setDuration, then start. Starting a running timeline only
      leaves a warning, so its frame stays where it is. */
  function Started(t: TimeLine, d: Direction, duration: int): (r: TimeLine)
    ensures r.running && r.direction == d && r.duration == duration
    ensures r.frame == if t.running then t.frame else StartFrame(d)
  {
    if t.running then t.(direction := d, duration := duration)
    else TimeLine(true, d, StartFrame(d), duration)
  }

  /** One tick of delta frames: the frame moves toward the end of the run and the
      timeline stops when it gets there. A stopped timeline does not move. */
  function Advanced(t: TimeLine, delta: nat): (r: TimeLine)
    ensures r.direction == t.direction && r.duration == t.duration
    ensures FrameInRange(t) ==> FrameInRange(r)
    ensures FrameInRange(t) && t.direction == Forward ==> t.frame <= r.frame
    ensures FrameInRange(t) && t.direction == Backward ==> r.frame <= t.frame
    ensures t.running ==> (r.running <==> r.frame != EndFrame(t.direction))
    ensures !t.running ==> r == t
  {
    if !t.running then t
    else
      var f := if t.direction == Forward
               then (if t.frame + delta < MAX_FRAME then t.frame + delta else MAX_FRAME)
               else (if t.frame - delta > 0 then t.frame - delta else 0);
      TimeLine(f != EndFrame(t.direction), t.direction, f, t.duration)
  }

  /** A row index as the view hands it to the delegate: its position and the id of
      its note. */
  datatype RowRef = RowRef(row: nat, noteId: int)

  /** A transition requested while another ran: note ids (positions may change
      before it runs) and the state to run. */
  datatype Request = Request(ids: seq<int>, kind: NoteListState)

  datatype Session = Session(
    state: NoteListState,
    animated: seq<nat>,
    queue: seq<Request>,
    timeLine: TimeLine)

  /** What the delegate asks of the view, row by row. */
  datatype RowCall = SizeHintChanged | OpenEditor | CloseEditor

  datatype HostEvent = RowEvent(call: RowCall, row: nat) | AnimationFinished(kind: NoteListState)

  /** A handler's effect: the session afterwards and the notifications, in order. */
  datatype Step = Step(session: Session, events: seq<HostEvent>)

  /** The delegate is at rest before any transition. */
  function InitialSession(): Session
  {
    Session(Normal, [], [], TimeLine(false, Forward, 0, 300))
  }

  function Rows(indexes: seq<RowRef>): (rows: seq<nat>)
    ensures |rows| == |indexes|
    ensures forall i :: 0 <= i < |indexes| ==> rows[i] == indexes[i].row
  {
    seq(|indexes|, i requires 0 <= i < |indexes| => indexes[i].row)
  }

  /** The same call for each row, in order. */
  function ForEach(call: RowCall, rows: seq<nat>): (es: seq<HostEvent>)
    ensures |es| == |rows|
    ensures forall i :: 0 <= i < |rows| ==> es[i] == RowEvent(call, rows[i])
  {
    seq(|rows|, i requires 0 <= i < |rows| => RowEvent(call, rows[i]))
  }

  predicate NoDuplicates(ids: seq<int>)
  {
    forall i, j :: 0 <= i < j < |ids| ==> ids[i] != ids[j]
  }

  /** The set of valid note ids of the requested rows (setState's QSet), kept in the
      order the rows are given. */
  function CollectIds(indexes: seq<RowRef>, invalidId: int): (ids: seq<int>)
    ensures NoDuplicates(ids)
    ensures forall id :: id in ids <==> id != invalidId && exists i :: 0 <= i < |indexes| && indexes[i].noteId == id
    decreases |indexes|
  {
    if indexes == [] then []
    else
      var front := indexes[..|indexes| - 1];
      var ids := CollectIds(front, invalidId);
      var id := indexes[|indexes| - 1].noteId;
      assert forall i :: 0 <= i < |front| ==> front[i] == indexes[i];
      if id == invalidId || id in ids then ids else ids + [id]
  }

  /** The current positions of the ids the list model still knows (lookup is
      getNoteIndex), in the order of the ids; the others are dropped. */
  function Resolve(ids: seq<int>, lookup: map<int, nat>): (rows: seq<nat>)
    ensures |rows| <= |ids|
    ensures (forall id :: id in ids ==> id in lookup) ==> |rows| == |ids|
    ensures forall r :: r in rows <==> exists id :: id in ids && id in lookup && lookup[id] == r
    decreases |ids|
  {
    if ids == [] then []
    else
      var front := ids[..|ids| - 1];
      var rows := Resolve(front, lookup);
      var id := ids[|ids| - 1];
      assert forall x :: x in ids <==> x in front || x == id;
      if id in lookup then rows + [lookup[id]] else rows
  }

  /** Insert plays the frames forward, every other transition backward. */
  function DirectionOf(kind: NoteListState): Direction
  {
    if kind == Insert then Forward else Backward
  }

  /** setStateI: start the transition kind on the given rows, closing their inline
      editors; Normal only clears the animated rows. The timeline runs for
      MAX_FRAME milliseconds. */
  function StartSession(s: Session, kind: NoteListState, rows: seq<nat>): (r: Step)
    ensures r.session.state == kind && r.session.queue == s.queue
    ensures kind == Normal ==> r.session.animated == [] && r.session.timeLine == s.timeLine && r.events == []
    ensures kind != Normal ==>
              && r.session.animated == rows
              && r.session.timeLine.running
              && r.session.timeLine.direction == (if kind == Insert then Forward else Backward)
              && (!s.timeLine.running ==> r.session.timeLine.frame == (if kind == Insert then 0 else MAX_FRAME))
              && r.events == ForEach(CloseEditor, rows)
  {
    if kind == Normal then Step(s.(animated := [], state := kind), [])
    else
      var t := Started(s.timeLine, DirectionOf(kind), MAX_FRAME);
      Step(Session(kind, rows, s.queue, t), ForEach(CloseEditor, rows))
  }

  /** setState: while the timeline runs, the request is only queued, by note id and
      only when some id is valid; otherwise it starts at once. */
  function RequestTransition(s: Session, kind: NoteListState, indexes: seq<RowRef>, invalidId: int): (r: Step)
    ensures s.timeLine.running ==>
              && r.events == []
              && r.session.state == s.state
              && r.session.animated == s.animated
              && r.session.timeLine == s.timeLine
              && (CollectIds(indexes, invalidId) == [] ==> r.session.queue == s.queue)
              && (CollectIds(indexes, invalidId) != [] ==>
                    r.session.queue == s.queue + [Request(CollectIds(indexes, invalidId), kind)])
    ensures !s.timeLine.running ==> r == StartSession(s, kind, Rows(indexes))
  {
    if s.timeLine.running then
      var ids := CollectIds(indexes, invalidId);
      Step(if ids == [] then s else s.(queue := s.queue + [Request(ids, kind)]), [])
    else StartSession(s, kind, Rows(indexes))
  }

  /** The finished handler: report the finished state, reopen the editors of the
      animated rows, then start the oldest queued request on the current positions
      of its ids (even when none resolves), or come to rest. */
  function Finish(s: Session, lookup: map<int, nat>): (r: Step)
    ensures |r.events| >= 1 + |s.animated| && r.events[0] == AnimationFinished(s.state)
    ensures forall i :: 0 <= i < |s.animated| ==> r.events[1 + i] == RowEvent(OpenEditor, s.animated[i])
    ensures s.queue == [] ==>
              r.session == s.(animated := [], state := Normal) && |r.events| == 1 + |s.animated|
    ensures s.queue != [] ==>
              && r.session.queue == s.queue[1..]
              && r.session.state == s.queue[0].kind
              && (s.queue[0].kind != Normal ==> r.session.animated == Resolve(s.queue[0].ids, lookup)
                                                && r.session.timeLine.running)
  {
    var done := [AnimationFinished(s.state)] + ForEach(OpenEditor, s.animated);
    if s.queue != [] then
      var next := s.queue[0];
      var started := StartSession(s.(queue := s.queue[1..]), next.kind, Resolve(next.ids, lookup));
      Step(started.session, done + started.events)
    else Step(s.(animated := [], state := Normal), done)
  }

  /** A tick of the timeline: if the frame moved, every animated row's size is stale;
      if the run reached its end, the finished handler follows. */
  function Tick(s: Session, delta: nat, lookup: map<int, nat>): (r: Step)
    ensures !s.timeLine.running ==> r == Step(s, [])
    ensures s.timeLine.running ==>
              var t := Advanced(s.timeLine, delta);
              var moved := t.frame != s.timeLine.frame;
              && (moved ==> |r.events| >= |s.animated|
                            && forall i :: 0 <= i < |s.animated| ==> r.events[i] == RowEvent(SizeHintChanged, s.animated[i]))
              && (t.running ==> r.session == s.(timeLine := t)
                                && forall e :: e in r.events ==> e.RowEvent? && e.call == SizeHintChanged && e.row in s.animated)
              && (t.running && !moved ==> r.events == [])
              && (!t.running ==>
                    r.session == Finish(s.(timeLine := t), lookup).session
                    && r.events == (if moved then ForEach(SizeHintChanged, s.animated) else [])
                                   + Finish(s.(timeLine := t), lookup).events)
  {
    if !s.timeLine.running then Step(s, [])
    else
      var t := Advanced(s.timeLine, delta);
      var moved := if t.frame != s.timeLine.frame then ForEach(SizeHintChanged, s.animated) else [];
      if t.running then Step(s.(timeLine := t), moved)
      else
        var done := Finish(s.(timeLine := t), lookup);
        Step(done.session, moved + done.events)
  }

  /** A tick of a whole run's worth of frames always ends the running session. */
  lemma LongTickFinishes(s: Session, lookup: map<int, nat>)
    requires s.timeLine.running && FrameInRange(s.timeLine)
    ensures var stopped := s.timeLine.(running := false, frame := EndFrame(s.timeLine.direction));
            Tick(s, MAX_FRAME, lookup).session == Finish(s.(timeLine := stopped), lookup).session
  {
  }

  /** While a session runs, ticks keep the frame in range and move it only in the
      session's direction, and the session's state and rows stay as they are. */
  lemma TickKeepsSession(s: Session, delta: nat, lookup: map<int, nat>)
    requires FrameInRange(s.timeLine) && s.timeLine.running
    requires Advanced(s.timeLine, delta).running
    ensures var r := Tick(s, delta, lookup).session;
            && r.state == s.state && r.animated == s.animated && r.queue == s.queue
            && FrameInRange(r.timeLine) && r.timeLine.direction == s.timeLine.direction
            && (s.timeLine.direction == Forward ==> s.timeLine.frame <= r.timeLine.frame)
            && (s.timeLine.direction == Backward ==> r.timeLine.frame <= s.timeLine.frame)
  {
  }

  /** The session after n finished runs, with nothing requested in between. */
  function Drain(s: Session, lookup: map<int, nat>, n: nat): Session
    decreases n
  {
    if n == 0 then s else Drain(Finish(s, lookup).session, lookup, n - 1)
  }

  /** Queued requests are served first in, first out: after n runs finish, the n-th
      oldest request is the one running and the rest wait in their order. */
  lemma {:induction false} DrainServesInOrder(s: Session, lookup: map<int, nat>, n: nat)
    requires 0 < n <= |s.queue|
    decreases n
    ensures Drain(s, lookup, n).queue == s.queue[n..]
    ensures Drain(s, lookup, n).state == s.queue[n - 1].kind
    ensures s.queue[n - 1].kind != Normal ==>
              Drain(s, lookup, n).animated == Resolve(s.queue[n - 1].ids, lookup)
              && Drain(s, lookup, n).timeLine.running
  {
    var s1 := Finish(s, lookup).session;
    if n > 1 {
      DrainServesInOrder(s1, lookup, n - 1);
      assert s1.queue[n - 1..] == s.queue[n..];
      assert s1.queue[n - 2] == s.queue[n - 1];
    }
  }

  /** The session invariant: the frame stays in range and requests wait only while
      the timeline runs. */
  predicate Wellformed(s: Session)
  {
    FrameInRange(s.timeLine) && (s.queue != [] ==> s.timeLine.running)
  }

  predicate NoQueuedNormal(s: Session)
  {
    forall i :: 0 <= i < |s.queue| ==> s.queue[i].kind != Normal
  }

  /** Requests keep the invariant; a request for Normal is the only way to queue a
      Normal entry. */
  lemma RequestKeepsWellformed(s: Session, kind: NoteListState, indexes: seq<RowRef>, invalidId: int)
    requires Wellformed(s)
    ensures Wellformed(RequestTransition(s, kind, indexes, invalidId).session)
    ensures NoQueuedNormal(s) && kind != Normal ==>
              NoQueuedNormal(RequestTransition(s, kind, indexes, invalidId).session)
  {
    var r := RequestTransition(s, kind, indexes, invalidId).session;
    if s.timeLine.running {
      var ids := CollectIds(indexes, invalidId);
      if ids != [] && NoQueuedNormal(s) && kind != Normal {
        forall i | 0 <= i < |r.queue| ensures r.queue[i].kind != Normal {
          if i < |s.queue| { assert r.queue[i] == s.queue[i]; }
        }
      }
    }
  }

  /** Ticks keep the invariant as long as no Normal request waits: every dequeued
      request restarts the timeline. */
  lemma TickKeepsWellformed(s: Session, delta: nat, lookup: map<int, nat>)
    requires Wellformed(s) && NoQueuedNormal(s)
    ensures Wellformed(Tick(s, delta, lookup).session)
    ensures NoQueuedNormal(Tick(s, delta, lookup).session)
  {
    if s.timeLine.running {
      var t := Advanced(s.timeLine, delta);
      if !t.running {
        var r := Finish(s.(timeLine := t), lookup).session;
        if s.queue != [] {
          assert s.queue[0].kind != Normal;
          assert r.timeLine == Started(t, DirectionOf(s.queue[0].kind), MAX_FRAME);
          forall i | 0 <= i < |r.queue| ensures r.queue[i].kind != Normal {
            assert r.queue[i] == s.queue[i + 1];
          }
        }
      }
    }
  }

  /** A queued Normal request breaks the invariant: once it is dequeued the timeline
      stays stopped while a later request still waits. */
  lemma QueuedNormalStalls()
    ensures var s := Session(Insert, [0], [Request([1], Normal), Request([2], Insert)],
                             TimeLine(true, Forward, 150, MAX_FRAME));
            var r := Tick(s, 50, map[1 := 0, 2 := 1]).session;
            Wellformed(s) && !Wellformed(r) && r.queue == [Request([2], Insert)] && !r.timeLine.running
  {
  }

  /** Remove for notes 1 and 2 starts at once, backward from the last frame; Insert
      for note 3 meanwhile is queued; when the run ends Insert starts for note 3 at
      the position the model gives it then. */
  lemma RemoveThenInsertScenario()
    ensures var s1 := RequestTransition(InitialSession(), Remove, [RowRef(4, 1), RowRef(5, 2)], -1).session;
            var s2 := RequestTransition(s1, Insert, [RowRef(7, 3)], -1).session;
            var s3 := Tick(s2, MAX_FRAME, map[3 := 6]).session;
            && s1.state == Remove && s1.animated == [4, 5]
            && s1.timeLine == TimeLine(true, Backward, MAX_FRAME, MAX_FRAME)
            && s2.state == Remove && s2.animated == [4, 5] && s2.queue == [Request([3], Insert)]
            && s3.state == Insert && s3.animated == [6] && s3.queue == []
            && s3.timeLine == TimeLine(true, Forward, 0, MAX_FRAME)
  {
    var s0 := InitialSession();
    var a := [RowRef(4, 1), RowRef(5, 2)];
    assert Rows(a) == [4, 5];
    var s1 := RequestTransition(s0, Remove, a, -1).session;
    assert s1 == Session(Remove, [4, 5], [], TimeLine(true, Backward, MAX_FRAME, MAX_FRAME));
    var b := [RowRef(7, 3)];
    assert CollectIds(b, -1) == [3] by {
      assert b[..0] == [];
    }
    var s2 := RequestTransition(s1, Insert, b, -1).session;
    assert s2 == s1.(queue := [Request([3], Insert)]);
    var lookup := map[3 := 6];
    assert Resolve([3], lookup) == [6] by {
      assert [3][..0] == [];
    }
    var t := Advanced(s2.timeLine, MAX_FRAME);
    assert t == TimeLine(false, Backward, 0, MAX_FRAME);
    var s3 := Tick(s2, MAX_FRAME, lookup).session;
    assert s3 == Finish(s2.(timeLine := t), lookup).session;
  }
}
