/** The atomic sections of one session as actions, and what every run of them keeps. */
module SessionSteps {
  import opened Wrappers
  import opened Text
  import opened Revision
  import opened Session
  import opened SessionInvariant
  import opened SessionRuns
  import S = Stability
  import G = Segmentation

  datatype Action =
    | Ingest(event: Event, clock: real)
    | Resume(clock: real)                               // dropped segments have been invalidated
    | Timer(weather: Weather, uid: string, generation: nat)
    | Dispatch(queued: bool)                            // whether the scheduler took the job
    | Result(generation: nat, segment: nat, revision: nat, answer: Option<string>)
    | Attach
    | Detach
    | Detached
    | Reset
    | ResetDone
    | Close
    | CloseDone

  /** An action that is not enabled changes nothing. */
  ghost function Perform(w: World, s: Session, a: Action): Session
    requires Sound(w, s)
  {
    AllTracked(w, s);
    match a
    case Ingest(e, clock) => if s.pc == Idle then IngestStart(w, s, e, clock).state else s
    case Resume(clock) =>
      if s.pc.RollingBack? then IngestFinishSound(w, s, clock); IngestFinish(w, s, clock) else s
    case Timer(x, uid, generation) =>
      SoundIsSelectable(w, s);
      if s.pc == Idle then Evaluate(w, x, s, uid, generation) else s
    case Dispatch(queued) =>
      if s.pc != Dispatching then s
      else if NextReady(s).Some? && queued then Dispatched(s, NextReady(s).value)
      else Resumed(s)
    case Result(generation, segment, revision, answer) =>
      if s.pc == Idle then Resulted(w, s, generation, segment, revision, answer) else s
    case Attach => if s.pc == Idle then Attached(s) else s
    case Detach => if s.pc == Idle then DetachStart(s) else s
    case Detached => DetachFinish(s)
    case Reset => if s.pc == Idle then ResetStart(s) else s
    case ResetDone => if s.pc.Resetting? then Resumed(s) else s
    case Close => if s.pc == Idle then CloseStart(s) else s
    case CloseDone => if s.pc.Closing? then Resumed(s) else s
  }

  // -------- Every action keeps the session sound

  /** One segment's status and translation replaced. */
  function Marked(segments: seq<Segment>, i: nat, status: Status, translation: string): (r: seq<Segment>)
    requires i < |segments|
    ensures |r| == |segments| && r[i].status == status && r[i].translation == translation
    ensures Shape(segments[i], r[i])
    ensures forall k :: 0 <= k < |r| && k != i ==> r[k] == segments[k]
  {
    segments[i := segments[i].(status := status, translation := translation)]
  }

  lemma {:induction false} MarkedRunning(s: Session, r: Session, i: nat, translation: string)
    requires Numbered(s) && RunningIsActive(s) && i < |s.segments| && s.active.None?
    requires r.segments == Marked(s.segments, i, Running, translation) && r.active == Some(s.segments[i].id)
    ensures RunningIsActive(r)
  {
    assert r.segments[i] in r.segments;
    forall g | g in r.segments
      ensures g.status == Running <==> r.active == Some(g.id)
    {
      var k :| 0 <= k < |r.segments| && r.segments[k] == g;
      assert s.segments[k] in s.segments;
    }
  }

  lemma {:induction false} MarkedDone(s: Session, r: Session, i: nat, status: Status, translation: string)
    requires Numbered(s) && RunningIsActive(s) && i < |s.segments| && s.active == Some(s.segments[i].id)
    requires r.segments == Marked(s.segments, i, status, translation) && r.active == None && status != Running
    ensures RunningIsActive(r)
  {
    forall g | g in r.segments
      ensures g.status != Running
    {
      var k :| 0 <= k < |r.segments| && r.segments[k] == g;
      assert s.segments[k] in s.segments;
    }
  }

  lemma {:induction false} MarkedShape(segments: seq<Segment>, i: nat, status: Status, translation: string)
    requires i < |segments|
    ensures SameShape(segments, Marked(segments, i, status, translation))
  {
  }

  lemma {:induction false} DispatchedIs(s: Session, i: nat)
    requires i < |s.segments|
    ensures Dispatched(s, i)
         == s.(segments := Marked(s.segments, i, Running, s.segments[i].translation),
               active := Some(s.segments[i].id), pc := Idle)
  {
  }

  lemma {:induction false} DispatchedSound(w: World, s: Session, i: nat)
    requires Sound(w, s) && s.pc == Dispatching && s.active.None? && i < |s.segments|
    ensures Sound(w, Dispatched(s, i))
  {
    DispatchedIs(s, i);
    MarkedShape(s.segments, i, Running, s.segments[i].translation);
    MarkedRunning(s, Dispatched(s, i), i, s.segments[i].translation);
    hide Sound, RunningIsActive, SameShape;
    ShapeSound(w, s, Dispatched(s, i));
  }

  /** What an accepted result writes. */
  function Written(w: World, s: Session, i: nat, answer: Option<string>): (Status, string)
    requires i < |s.segments|
  {
    if Fails(w, s, answer) then (Failed, s.segments[i].translation) else (Complete, answer.value)
  }

  lemma {:induction false} ResultedIs(w: World, s: Session, generation: nat, segment: nat, revision: nat,
                                      answer: Option<string>)
    requires Accepts(s, generation, segment, revision)
    ensures var i := Find(s.segments, segment);
            var x := Written(w, s, i, answer);
      Resulted(w, s, generation, segment, revision, answer)
      == s.(segments := Marked(s.segments, i, x.0, x.1), active := None,
            pc := if Unproposable(w, s, answer) then s.pc else Dispatching)
  {
  }

  lemma {:induction false} ResultedSound(w: World, s: Session, generation: nat, segment: nat, revision: nat,
                                         answer: Option<string>)
    requires Sound(w, s) && s.pc == Idle
    ensures Sound(w, Resulted(w, s, generation, segment, revision, answer))
  {
    if Accepts(s, generation, segment, revision) {
      var i := Find(s.segments, segment);
      var x := Written(w, s, i, answer);
      var r := Resulted(w, s, generation, segment, revision, answer);
      ResultedIs(w, s, generation, segment, revision, answer);
      MarkedShape(s.segments, i, x.0, x.1);
      MarkedDone(s, r, i, x.0, x.1);
      hide Sound, RunningIsActive, SameShape, Resulted;
      ShapeSound(w, s, r);
    }
  }

  lemma {:induction false} StoppedIs(segments: seq<Segment>)
    ensures SameShape(segments, Stopped(segments))
    ensures forall g :: g in Stopped(segments) ==> g.status != Running
  {
  }

  lemma {:induction false} NoneRunning(r: Session)
    requires r.active.None? && forall g :: g in r.segments ==> g.status != Running
    ensures RunningIsActive(r)
  {
  }

  lemma {:induction false} DetachedSound(w: World, s: Session)
    requires Sound(w, s) && s.pc.Detaching?
    ensures Sound(w, DetachFinish(s))
  {
    hide Sound, RunningIsActive, SameShape, Stopped;
    StoppedIs(s.segments);
    NoneRunning(DetachFinish(s));
    ShapeSound(w, s, DetachFinish(s));
  }

  lemma {:induction false} ResetSound(w: World, s: Session)
    requires Sound(w, s) && s.pc == Idle
    ensures Sound(w, ResetStart(s))
  {
  }

  /** Before the first utterance there is nothing that other settings could upset. */
  lemma {:induction false} ConfiguredSound(w: World, s: Session, settings: Settings)
    requires Sound(w, s) && s.utterances == map[] && settings.Valid()
    ensures var w' := w.(settings := settings); Sound(w', s) && AllAligned(w', s) && s.segments == []
  {
    SomeSegment(s.segments);
  }

  lemma {:induction false} SomeSegment(segments: seq<Segment>)
    ensures segments != [] ==> exists g :: g in segments
  {
    if segments != [] { assert segments[0] in segments; }
  }

  /** Only the connection, the generation, the closing flag and the place in the code differ. */
  lemma {:induction false} FlagsSound(w: World, s: Session, r: Session)
    requires Sound(w, s) && !s.pc.RollingBack? && !r.pc.RollingBack?
    requires r.segments == s.segments && r.active == s.active && r.utterances == s.utterances && r.order == s.order
    requires r.autoId == s.autoId && r.nextSegment == s.nextSegment && r.lastSequence == s.lastSequence
    ensures Sound(w, r)
  {
    SoundRunning(w, s);
    SameRunning(s, r);
    ShapeSame(s.segments);
    hide Sound, RunningIsActive, SameShape;
    ShapeSound(w, s, r);
  }

  lemma {:induction false} SoundRunning(w: World, s: Session)
    requires Sound(w, s)
    ensures RunningIsActive(s) && Numbered(s)
  {
  }

  lemma {:induction false} SameRunning(s: Session, r: Session)
    requires RunningIsActive(s) && r.segments == s.segments && r.active == s.active
    ensures RunningIsActive(r)
  {
  }

  lemma {:induction false} PerformSound(w: World, s: Session, a: Action)
    requires Sound(w, s)
    ensures Sound(w, Perform(w, s, a))
  {
    hide Sound, IngestStart, IngestFinish, Evaluate, Resulted, Dispatched;
    AllTracked(w, s);
    match a
    case Ingest(e, clock) =>
      if s.pc == Idle { IngestStartSound(w, s, e, clock); }
    case Resume(clock) =>
      if s.pc.RollingBack? { IngestFinishSound(w, s, clock); }
    case Timer(x, uid, generation) =>
      if s.pc == Idle { EvaluateSound(w, x, s, uid, generation); }
    case Result(generation, segment, revision, answer) =>
      if s.pc == Idle { ResultedSound(w, s, generation, segment, revision, answer); }
    case _ => LifeSound(w, s, a);
  }

  /** Dispatching, and whatever only starts or ends a connection or a generation. */
  lemma {:induction false} LifeSound(w: World, s: Session, a: Action)
    requires Sound(w, s) && !a.Ingest? && !a.Resume? && !a.Timer? && !a.Result?
    ensures Sound(w, Perform(w, s, a))
  {
    hide Sound, IngestStart, IngestFinish, Evaluate, Resulted, Dispatched, Stopped, Tracked;
    match a
    case Dispatch(queued) =>
      if s.pc == Dispatching && NextReady(s).Some? && queued {
        DispatchedSound(w, s, NextReady(s).value);
      } else if s.pc == Dispatching {
        FlagsSound(w, s, Resumed(s));
      }
    case Detached =>
      if s.pc.Detaching? { DetachedSound(w, s); }
    case Reset =>
      if s.pc == Idle { ResetSound(w, s); }
    case Attach => if s.pc == Idle { FlagsSound(w, s, Attached(s)); }
    case Detach => if s.pc == Idle { FlagsSound(w, s, DetachStart(s)); }
    case Close => if s.pc == Idle { FlagsSound(w, s, CloseStart(s)); }
    case ResetDone => if s.pc.Resetting? { FlagsSound(w, s, Resumed(s)); }
    case CloseDone => if s.pc.Closing? { FlagsSound(w, s, Resumed(s)); }
    case _ =>
  }

  // -------- Runs

  ghost function RunOf(w: World, s: Session, actions: seq<Action>): Session
    requires Sound(w, s)
    decreases |actions|
  {
    if actions == [] then s
    else PerformSound(w, s, actions[0]); RunOf(w, Perform(w, s, actions[0]), actions[1..])
  }

  lemma {:induction false} OpenedSound(w: World, id: string)
    requires w.settings.Valid()
    ensures Sound(w, Opened(id)) && AllAligned(w, Opened(id))
  {
  }

  /** Whatever the interleaving of events, timers, results and connections, segments tile
      the selected text exactly, identities stay apart, and running means active. */
  lemma {:induction false} RunSound(w: World, s: Session, actions: seq<Action>)
    requires Sound(w, s)
    ensures Sound(w, RunOf(w, s, actions))
    decreases |actions|
  {
    hide Sound, Perform;
    if actions != [] {
      PerformSound(w, s, actions[0]);
      RunSound(w, Perform(w, s, actions[0]), actions[1..]);
    }
  }

  // -------- What an action may do to segments

  /** `r` has the segments of `s`, then new ones nobody has translated. */
  ghost predicate Appends(s: Session, r: Session) {
    && s.segments <= r.segments && s.nextSegment <= r.nextSegment
    && r.active == s.active && r.generation == s.generation && r.closed == s.closed && r.connected == s.connected
    && forall i :: |s.segments| <= i < |r.segments| ==> Unseen(s.nextSegment, r.segments[i])
  }

  ghost predicate Unseen(next: nat, g: Segment) {
    g.id > next && g.status == Ready && g.translation == ""
  }

  lemma {:induction false} AppendsTwice(a: Session, b: Session, c: Session)
    requires Appends(a, b) && Appends(b, c)
    ensures Appends(a, c)
  {
    forall i | |a.segments| <= i < |c.segments|
      ensures Unseen(a.nextSegment, c.segments[i])
    {
      if i < |b.segments| { assert c.segments[i] == b.segments[i]; }
    }
  }

  lemma {:induction false} SelectLoopAppends(w: World, x: Weather, s: Session, uid: string, conflict: bool)
    requires uid in s.utterances
    ensures Appends(s, SelectLoop(w, x, s, uid, conflict).0)
    decreases |s.utterances[uid].text| - s.utterances[uid].selectedEnd
  {
    hide HasContent, Blocked, G.Segmented, QueryFor, Choice;
    if Choice(w, x, s, uid, conflict).Some? {
      var c := Choice(w, x, s, uid, conflict).value;
      SelectsExactly(w, x, s, uid, conflict);
      var n := Appended(s, uid, s.utterances[uid], c);
      SelectLoopAppends(w, x, n, uid, conflict);
      AppendsTwice(s, n, SelectLoop(w, x, n, uid, conflict).0);
    }
  }

  lemma {:induction false} SweepAppends(w: World, x: Weather, s: Session, k: nat)
    requires k <= |s.order| && Selectable(w, s)
    ensures Appends(s, Sweep(w, x, s, k).0)
    decreases |s.order| - k
  {
    hide Pending, SelectLoop, Restabilised, Tracked;
    if k < |s.order| {
      var uid := s.order[k];
      if !Pending(w, s, uid) {
        SweepAppends(w, x, s, k + 1);
      } else {
        var r := SelectUtterance(w, x, s, uid);
        SelectUtteranceAppends(w, x, s, uid);
        if r.1 == Carry {
          SweepAppends(w, x, r.0, k + 1);
          AppendsTwice(s, r.0, Sweep(w, x, r.0, k + 1).0);
        }
      }
    }
  }

  lemma {:induction false} SelectUtteranceAppends(w: World, x: Weather, s: Session, uid: string)
    requires uid in s.utterances && Selectable(w, s)
    ensures Appends(s, SelectUtterance(w, x, s, uid).0)
  {
    hide Selectable, SelectLoop, S.Judged;
    var v := s.utterances[uid];
    assert Tracked(w, v.tracker) by { SelectableAt(w, s, uid); }
    var r := Restabilised(w, x, v, uid);
    if r.Ok? {
      var conflict := S.Refreshed(w.settings.stability, w.u, v.tracker, x.clock(uid)).verdict.value.conflict;
      SelectLoopAppends(w, x, s.(utterances := s.utterances[uid := r.value]), uid, conflict);
    }
  }

  lemma {:induction false} SelectableAt(w: World, s: Session, uid: string)
    requires Selectable(w, s) && uid in s.utterances
    ensures Tracked(w, s.utterances[uid].tracker)
  {
  }

  /** What an event does to the segment list: nothing, a retry, or a cut. */
  ghost predicate Cuts(s: Session, r: Session, index: nat) {
    && index <= |s.segments| && r.segments == s.segments[..index]
    && r.pc.RollingBack? && r.pc.dropped == Ids(s.segments[index..])
    && r.active == if s.active.Some? && s.active.value in Ids(s.segments[index..]) then None else s.active
  }

  ghost predicate SameLife(s: Session, r: Session) {
    r.generation == s.generation && r.nextSegment == s.nextSegment && r.closed == s.closed
    && r.connected == s.connected
  }

  lemma {:induction false} RevisedParts(w: World, s: Session, e: Event, uid: string, clock: real) returns (index: nat)
    requires uid in s.utterances && s.utterances[uid].tracker.verdict.Some? && Tracked(w, s.utterances[uid].tracker)
    requires s.pc == Idle
    ensures var i := Revise(w, s, e, uid, clock);
      && SameLife(s, i.state)
      && (i.Cut? ==> Cuts(s, i.state, index))
      && (!i.Cut? ==> i.state.pc == Idle && i.state.active == s.active
                      && i.state.segments in {s.segments, Retried(s.segments, uid)})
  {
    hide Tracked, S.Committed, Planned, Unselect, Retried, Of;
    var spans := Spans(Of(s.segments, uid));
    var plan := Planned(w.u, s.utterances[uid].text, e.text, spans);
    index := if plan.Plan? && plan.rollbackIndex < |spans| then IndexOf(s.segments, uid, plan.rollbackIndex) else 0;
  }

  ghost predicate Parts(s: Session, i: Ingested, uid: string, index: nat) {
    && SameLife(s, i.state)
    && (i.Cut? ==> Cuts(s, i.state, index))
    && (!i.Cut? ==> i.state.pc == Idle && i.state.active == s.active
                    && i.state.segments in {s.segments, Retried(s.segments, uid)})
  }

  lemma {:induction false} HearParts(w: World, s: Session, e: Event, uid: string, clock: real) returns (index: nat)
    requires w.settings.Valid() && (uid in s.utterances ==> Tracked(w, s.utterances[uid].tracker)) && s.pc == Idle
    ensures Parts(s, Hear(w, s, e, uid, clock), uid, index)
  {
    hide S.Judged, S.Recorded, S.Evaluated, Revise, Retried;
    FreshTracked(w);
    var r := Judgement(w, Known(s, uid, e), e, clock);
    index := 0;
    if r.Ok? && !(r.value.verdict.value.conflict && !e.final) {
      index := RevisedParts(w, Heard(s, e, uid, r.value), e, uid, clock);
    }
  }

  lemma {:induction false} IngestParts(w: World, s: Session, e: Event, clock: real) returns (index: nat)
    requires Sound(w, s) && s.pc == Idle
    ensures forall v :: v in s.utterances ==> Tracked(w, s.utterances[v].tracker)
    ensures w.settings.Valid() && Parts(s, IngestStart(w, s, e, clock), UtteranceId(s, e), index)
  {
    hide Sound, Tracked, Hear, Checked, Admissible, UtteranceId, Retried;
    AllTracked(w, s);
    index := HearParts(w, Counted(s, e), e, UtteranceId(s, e), clock);
  }

  /** `h` is `g`, perhaps with another status, and translated exactly if `g` was. */
  ghost predicate Kin(g: Segment, h: Segment) {
    Shape(g, h) && h.translation == g.translation && (h.status == Complete <==> g.status == Complete)
  }

  /** Every segment is an old one or was numbered since, and none was translated on the way. */
  ghost predicate Inherited(segments: seq<Segment>, next: nat, h: Segment) {
    || (h.id > next && h.status != Complete && h.translation == "")
    || exists g :: g in segments && Kin(g, h)
  }

  ghost predicate Grows(s: Session, r: Session) {
    && s.generation <= r.generation && s.nextSegment <= r.nextSegment && (s.closed ==> r.closed)
    && forall h :: h in r.segments ==> Inherited(s.segments, s.nextSegment, h)
  }

  lemma {:induction false} KinGrows(s: Session, r: Session)
    requires s.generation <= r.generation && s.nextSegment <= r.nextSegment && (s.closed ==> r.closed)
    requires |r.segments| <= |s.segments| && forall i :: 0 <= i < |r.segments| ==> Kin(s.segments[i], r.segments[i])
    ensures Grows(s, r)
  {
    forall h | h in r.segments
      ensures Inherited(s.segments, s.nextSegment, h)
    {
      var i :| 0 <= i < |r.segments| && r.segments[i] == h;
      assert s.segments[i] in s.segments;
    }
  }

  lemma {:induction false} AppendsGrows(s: Session, r: Session)
    requires Appends(s, r)
    ensures Grows(s, r)
  {
    forall h | h in r.segments
      ensures Inherited(s.segments, s.nextSegment, h)
    {
      var i :| 0 <= i < |r.segments| && r.segments[i] == h;
      if i < |s.segments| {
        assert Kin(s.segments[i], h) && s.segments[i] in s.segments;
      } else {
        assert Unseen(s.nextSegment, r.segments[i]);
      }
    }
  }

  lemma {:induction false} EvaluateGrows(w: World, x: Weather, s: Session, uid: string, generation: nat)
    requires Sound(w, s) && s.pc == Idle
    ensures Selectable(w, s)
    ensures Appends(s, Evaluate(w, x, s, uid, generation))
  {
    hide Sound, Sweep;
    SoundIsSelectable(w, s);
    SweepAppends(w, x, s, 0);
  }

  /** Only a result translates; no other action changes, moves or revives a translation. */
  lemma {:induction false} PerformGrows(w: World, s: Session, a: Action)
    requires Sound(w, s) && !a.Result?
    ensures Grows(s, Perform(w, s, a))
  {
    hide Sound, IngestStart, IngestFinish, Evaluate, Grows, Retried, Stopped, Tracked, Selectable, FirstReady;
    AllTracked(w, s);
    match a
    case Ingest(e, clock) =>
      if s.pc == Idle {
        var index := IngestParts(w, s, e, clock);
        KinGrows(s, IngestStart(w, s, e, clock).state);
      } else {
        KinGrows(s, s);
      }
    case Resume(clock) =>
      if s.pc.RollingBack? {
        FinishParts(w, s, clock);
        KinGrows(s, IngestFinish(w, s, clock));
      } else {
        KinGrows(s, s);
      }
    case Timer(x, uid, generation) =>
      if s.pc == Idle {
        EvaluateGrows(w, x, s, uid, generation);
        AppendsGrows(s, Evaluate(w, x, s, uid, generation));
      } else {
        KinGrows(s, s);
      }
    case Result(_, _, _, _) =>
    case _ => StatusGrows(w, s, a);
  }

  /** The actions that reach neither text nor selection. */
  lemma {:induction false} StatusGrows(w: World, s: Session, a: Action)
    requires Sound(w, s) && !a.Ingest? && !a.Resume? && !a.Timer? && !a.Result?
    ensures Grows(s, Perform(w, s, a))
  {
    hide Sound, IngestStart, IngestFinish, Evaluate, Grows, Stopped, FirstReady, Resulted;
    KinGrows(s, Perform(w, s, a));
  }

  lemma {:induction false} FinishParts(w: World, s: Session, clock: real)
    requires Sound(w, s) && s.pc.RollingBack?
    ensures Resumable(w, s)
    ensures var r := IngestFinish(w, s, clock);
      && SameLife(s, r) && r.pc == Idle && r.active == s.active
      && r.segments in {s.segments, Retried(s.segments, s.pc.uid)}
  {
    IngestFinishSound(w, s, clock);
    hide Sound, Tracked;
    SettleParts(w, s, s.pc.uid, s.pc.event, clock);
  }

  lemma {:induction false} SettleParts(w: World, s: Session, uid: string, e: Event, clock: real)
    requires uid in s.utterances && s.utterances[uid].tracker.verdict.Some? && Tracked(w, s.utterances[uid].tracker)
    ensures var r := Settle(w, s, uid, e, clock);
      SameLife(s, r) && r.pc == Idle && r.active == s.active && r.segments in {s.segments, Retried(s.segments, uid)}
  {
    hide S.Judged, S.Committed, Retried;
  }

  // -------- Runs without a contradicting final

  /** The action is not a final that contradicts what its utterance protects. */
  ghost predicate Clean(w: World, s: Session, a: Action) {
    a.Ingest? && a.event.final ==> !Contradicts(w, s, a.event)
  }

  lemma {:induction false} ShapeAllAligned(w: World, s: Session, r: Session)
    requires AllAligned(w, s) && SameShape(s.segments, r.segments) && r.utterances == s.utterances
    ensures AllAligned(w, r)
  {
    hide Aligned, SameShape;
    forall uid | uid in r.utterances
      ensures Aligned(w, r.utterances[uid], Of(r.segments, uid))
    {
      ShapeAligned(w, s.utterances[uid], s.segments, r.segments, uid);
    }
  }

  /** Whole segments stay where they are, and new ones come after them. */
  ghost predicate Prolongs(s: Session, r: Session) {
    |s.segments| <= |r.segments| && SameShape(s.segments, r.segments[..|s.segments|])
  }

  lemma {:induction false} ProlongsTwice(a: Session, b: Session, c: Session)
    requires Prolongs(a, b) && Prolongs(b, c)
    ensures Prolongs(a, c)
  {
    forall i | 0 <= i < |a.segments|
      ensures Shape(a.segments[i], c.segments[..|a.segments|][i])
    {
      assert Shape(a.segments[i], b.segments[..|a.segments|][i]);
      assert Shape(b.segments[i], c.segments[..|b.segments|][i]);
    }
  }

  lemma {:induction false} ShapeProlongs(s: Session, r: Session)
    requires SameShape(s.segments, r.segments)
    ensures Prolongs(s, r)
  {
    assert r.segments[..|s.segments|] == r.segments;
  }

  lemma {:induction false} AppendsProlongs(s: Session, r: Session)
    requires Appends(s, r)
    ensures Prolongs(s, r)
  {
    assert r.segments[..|s.segments|] == s.segments;
  }

  lemma {:induction false} CleanEvent(w: World, s: Session, e: Event, clock: real)
    requires Sound(w, s) && s.pc == Idle && AllAligned(w, s) && (e.final ==> !Contradicts(w, s, e))
    ensures forall v :: v in s.utterances ==> Tracked(w, s.utterances[v].tracker)
    ensures var r := IngestStart(w, s, e, clock).state;
      r.pc == Idle && AllAligned(w, r) && Prolongs(s, r)
  {
    hide Sound, AllAligned, Contradicts, SameShape, Prolongs, Tracked;
    AllTracked(w, s);
    var index := IngestParts(w, s, e, clock);
    var r := IngestStart(w, s, e, clock).state;
    RetriedShape(s.segments, UtteranceId(s, e));
    ShapeSame(s.segments);
    if Contradicts(w, s, e) {
      ContradictingPartial(w, s, e, clock);
      if r == s.(nextUtterance := r.nextUtterance) { CounterAligned(w, s, r.nextUtterance); }
    } else {
      UncontradictedEvent(w, s, e, clock);
    }
    ShapeProlongs(s, r);
  }

  /** A clean action other than a reset drops no segment, keeps every end on a boundary,
      and no timer fails. */
  lemma {:induction false} PerformAligned(w: World, s: Session, a: Action)
    requires Sound(w, s) && AllAligned(w, s) && !s.pc.RollingBack? && Clean(w, s, a)
    ensures var r := Perform(w, s, a);
      && AllAligned(w, r) && !r.pc.RollingBack? && (!a.Reset? ==> Prolongs(s, r))
      && (a.Timer? && s.pc == Idle && !s.closed && a.generation == s.generation && a.uid in s.utterances ==>
            r.pc == Dispatching)
  {
    hide Sound, AllAligned, SameShape, Prolongs, IngestStart, Evaluate, Contradicts, Appends, Tracked, Selectable,
      Resulted, Stopped;
    ShapeSame(s.segments);
    ShapeProlongs(s, s);
    match a
    case Ingest(e, clock) =>
      if s.pc == Idle { CleanEvent(w, s, e, clock); }
    case Timer(x, uid, generation) =>
      if s.pc == Idle {
        EvaluateSound(w, x, s, uid, generation);
        EvaluateGrows(w, x, s, uid, generation);
        AppendsProlongs(s, Evaluate(w, x, s, uid, generation));
      }
    case Reset =>
      if s.pc == Idle { NothingAligned(w, ResetStart(s)); }
    case _ =>
      var r := Perform(w, s, a);
      StatusOnly(w, s, a);
      ShapeAllAligned(w, s, r);
      ShapeProlongs(s, r);
  }

  lemma {:induction false} NothingAligned(w: World, s: Session)
    requires s.utterances == map[]
    ensures AllAligned(w, s)
  {
  }

  lemma {:induction false} StatusOnly(w: World, s: Session, a: Action)
    requires Sound(w, s) && !s.pc.RollingBack? && !a.Ingest? && !a.Timer? && !a.Reset?
    ensures var r := Perform(w, s, a);
      SameShape(s.segments, r.segments) && r.utterances == s.utterances && !r.pc.RollingBack?
  {
    hide Sound, Tracked, IngestStart, IngestFinish, Evaluate, Selectable, FirstReady, Fails, Unproposable, SameShape,
      Resulted, Dispatched, Stopped;
    ShapeSame(s.segments);
    match a
    case Result(generation, segment, revision, answer) =>
      ResultedShape(w, s, generation, segment, revision, answer);
    case Dispatch(queued) => if NextReady(s).Some? { DispatchedShape(s, NextReady(s).value); }
    case Detached => StoppedIs(s.segments);
    case _ =>
  }

  lemma {:induction false} ResultedShape(w: World, s: Session, generation: nat, segment: nat, revision: nat,
                                         answer: Option<string>)
    ensures var r := Resulted(w, s, generation, segment, revision, answer);
      SameShape(s.segments, r.segments) && r.utterances == s.utterances && (r.pc == s.pc || r.pc == Dispatching)
  {
    ShapeSame(s.segments);
    if Accepts(s, generation, segment, revision) {
      ResultedIs(w, s, generation, segment, revision, answer);
      var x := Written(w, s, Find(s.segments, segment), answer);
      hide SameShape, Marked;
      MarkedShape(s.segments, Find(s.segments, segment), x.0, x.1);
    }
  }

  lemma {:induction false} DispatchedShape(s: Session, i: nat)
    requires i < |s.segments|
    ensures var r := Dispatched(s, i);
      SameShape(s.segments, r.segments) && r.utterances == s.utterances && r.pc == Idle
  {
    DispatchedIs(s, i);
    MarkedShape(s.segments, i, Running, s.segments[i].translation);
  }

  ghost predicate CleanRun(w: World, s: Session, actions: seq<Action>)
    requires Sound(w, s)
    decreases |actions|
  {
    actions != [] ==>
      && Clean(w, s, actions[0])
      && (PerformSound(w, s, actions[0]); CleanRun(w, Perform(w, s, actions[0]), actions[1..]))
  }

  /** A run without contradicting finals stays aligned, through resets too. Without resets
      it never rolls anything back: the segments selected so far stay, in order, with their
      text. */
  lemma {:induction false} RunAligned(w: World, s: Session, actions: seq<Action>)
    requires Sound(w, s) && AllAligned(w, s) && !s.pc.RollingBack? && CleanRun(w, s, actions)
    ensures var r := RunOf(w, s, actions);
      && AllAligned(w, r) && !r.pc.RollingBack?
      && ((forall a :: a in actions ==> !a.Reset?) ==> Prolongs(s, r))
    decreases |actions|
  {
    hide Sound, AllAligned, Perform, Clean, Prolongs;
    if actions != [] {
      PerformSound(w, s, actions[0]);
      PerformAligned(w, s, actions[0]);
      var n := Perform(w, s, actions[0]);
      RunAligned(w, n, actions[1..]);
      if forall a :: a in actions ==> !a.Reset? {
        assert actions[0] in actions && forall a :: a in actions[1..] ==> a in actions;
        ProlongsTwice(s, n, RunOf(w, n, actions[1..]));
      }
    } else {
      ShapeSame(s.segments);
      ShapeProlongs(s, s);
    }
  }

  // -------- From the opening of a session

  /** What a session's segments are, whenever it is not in the middle of an action. */
  ghost predicate Orderly(s: Session) {
    && (forall uid :: uid in s.utterances ==>
          Tiles(Of(s.segments, uid), s.utterances[uid].text, 0, s.utterances[uid].selectedEnd))
    && (forall i, j :: 0 <= i < j < |s.segments| ==> s.segments[i].id != s.segments[j].id)
    && (forall g :: g in s.segments ==> (g.status == Running <==> s.active == Some(g.id)))
  }

  /** From its opening on, a session's segments tile what is selected of each utterance, have
      identities of their own, and are running exactly if active. Without contradicting
      finals every end stays on a boundary. */
  lemma {:induction false} SessionKeeps(w: World, id: string, actions: seq<Action>)
    requires w.settings.Valid()
    ensures Sound(w, Opened(id)) && Orderly(RunOf(w, Opened(id), actions))
    ensures CleanRun(w, Opened(id), actions) ==> AllAligned(w, RunOf(w, Opened(id), actions))
  {
    OpenedSound(w, id);
    RunSound(w, Opened(id), actions);
    SoundOrderly(w, RunOf(w, Opened(id), actions));
    hide Sound, AllAligned, RunOf, CleanRun;
    if CleanRun(w, Opened(id), actions) { RunAligned(w, Opened(id), actions); }
  }

  lemma {:induction false} SoundOrderly(w: World, s: Session)
    requires Sound(w, s)
    ensures Orderly(s)
  {
    hide Tiles, Tracked, Prefixed, Rested, Updating, Listed;
    forall uid | uid in s.utterances
      ensures Tiles(Of(s.segments, uid), s.utterances[uid].text, 0, s.utterances[uid].selectedEnd)
    {
      assert UtteranceOk(w, s, uid);
    }
  }
}
