/** Sessions and the scheduler they share, step by step
    (app/session/state.py with app/translation/scheduler.py). */
module Pipeline {
  import opened Wrappers
  import opened Session
  import opened SessionInvariant
  import opened SessionRuns
  import opened SessionSteps
  import Sch = Scheduler

  /** The backend was asked for this segment's source; what the worker made of its answer. */
  datatype Reply = Reply(session: string, segment: nat, source: string, answer: Option<string>)

  /** `results` holds what each worker has got back; `log` is the history of replies. */
  datatype State = State(
    sessions: map<string, Session>, scheduler: Sch.State, results: map<string, Option<string>>, log: set<Reply>)

  datatype Step =
    | Open(id: string)
    | Act(id: string, action: Action)
    | Invalidated(id: string, clock: real)       // the second half of an event that drops segments
    | Cancelled(id: string)                      // the second half of detach, reset and close
    | Dispatches(id: string)
    | Take
    | Begin(id: string)
    | Return(id: string, answer: Option<string>)
    | Callback(id: string)
    | Finish(id: string)
    | Shutdown

  function Initial(limits: Sch.Limits): State {
    State(map[], Sch.Initial(limits), map[], {})
  }

  /** Actions that need nothing from the scheduler. */
  predicate Alone(a: Action) {
    a.Ingest? || a.Timer? || a.Attach? || a.Detach? || a.Reset? || a.Close?
  }

  function JobOf(id: string, s: Session, i: nat): Sch.Job
    requires i < |s.segments|
  {
    var g := s.segments[i];
    Sch.Job(id, s.generation, g.id, g.revision, g.final, g.source)
  }

  function Ending(s: Session): Action {
    if s.pc.Detaching? then Detached else if s.pc.Resetting? then ResetDone else CloseDone
  }

  ghost predicate AllSound(ws: string -> World, p: State) {
    forall id :: id in p.sessions ==> Sound(ws(id), p.sessions[id])
  }

  ghost function Put(ws: string -> World, p: State, id: string, a: Action, scheduler: Sch.State): State
    requires AllSound(ws, p) && id in p.sessions
  {
    p.(sessions := p.sessions[id := Perform(ws(id), p.sessions[id], a)], scheduler := scheduler)
  }

  /** Whether a worker may run the session's callback now. */
  predicate MayCall(p: State, id: string) {
    && id in p.sessions && p.sessions[id].pc == Idle
    && id in p.scheduler.active && p.scheduler.active[id].phase == Sch.Calling && id in p.results
  }

  ghost function Submission(p: State, id: string): Result<Sch.State, Sch.Error>
    requires id in p.sessions && NextReady(p.sessions[id]).Some?
  {
    Sch.Submitted(p.scheduler, JobOf(id, p.sessions[id], NextReady(p.sessions[id]).value))
  }

  /** A worker takes a blank translation for a failure (app/translation/worker.py). */
  function Screened(w: World, answer: Option<string>): Option<string> {
    if answer.Some? && Blank(w.u, answer.value) then None else answer
  }

  ghost function Next(ws: string -> World, p: State, step: Step): State
    requires AllSound(ws, p)
  {
    match step
    case Open(id) => if id in p.sessions then p else p.(sessions := p.sessions[id := Opened(id)])
    case Act(id, a) => if id in p.sessions && Alone(a) then Put(ws, p, id, a, p.scheduler) else p
    case Invalidated(id, clock) =>
      if id in p.sessions && p.sessions[id].pc.RollingBack?
      then Put(ws, p, id, Resume(clock), Sch.Invalidate(p.scheduler, id, p.sessions[id].pc.dropped)) else p
    case Cancelled(id) =>
      if id in p.sessions && (p.sessions[id].pc.Detaching? || p.sessions[id].pc.Resetting?
                              || p.sessions[id].pc.Closing?)
      then Put(ws, p, id, Ending(p.sessions[id]), Sch.CancelSession(p.scheduler, id)) else p
    case Dispatches(id) =>
      if id !in p.sessions || p.sessions[id].pc != Dispatching then p
      else if NextReady(p.sessions[id]).Some? && Submission(p, id).Ok?
      then Put(ws, p, id, Dispatch(true), Submission(p, id).value)
      else Put(ws, p, id, Dispatch(false), p.scheduler)
    case Take => p.(scheduler := Sch.Take(p.scheduler))
    case Begin(id) => p.(scheduler := Sch.Begin(p.scheduler, id))
    case Return(id, answer) =>
      if id !in p.scheduler.active || p.scheduler.active[id].phase != Sch.Requested then p
      else
        var job := p.scheduler.active[id].entry.job;
        var kept := Screened(ws(id), answer);
        p.(scheduler := Sch.Return(p.scheduler, id), results := p.results[id := kept],
           log := p.log + {Reply(id, job.segment, job.source, kept)})
    case Callback(id) =>
      if !MayCall(p, id) then p
      else
        var job := p.scheduler.active[id].entry.job;
        Put(ws, p, id, Result(job.generation, job.segment, job.revision, p.results[id]),
            Sch.CallbackDone(p.scheduler, id))
    case Finish(id) => p.(scheduler := Sch.Finish(p.scheduler, id))
    case Shutdown => p.(scheduler := Sch.Close(p.scheduler))
  }

  // -------- What ties a session to its slot

  /** Entries whose callback is still to come: queued, or active, not stale and not done. */
  function Live(v: Sch.Slot): seq<Sch.Entry> {
    (if v.active.Some? && !v.active.value.stale && v.active.value.phase != Sch.Done then [v.active.value.entry] else [])
    + v.queue
  }

  /** A job names at most one present segment, and then its revision, source and finality. */
  ghost predicate JobFits(s: Session, job: Sch.Job) {
    && job.generation <= s.generation && job.segment <= s.nextSegment
    && forall g :: g in s.segments && g.id == job.segment ==>
         g.revision == job.revision && g.source == job.source && g.final == job.final
  }

  ghost predicate Fitted(s: Session, v: Sch.Slot) {
    && (forall e :: e in v.queue ==> JobFits(s, e.job))
    && (v.active.Some? ==> JobFits(s, v.active.value.entry.job))
  }

  predicate Owns(s: Session, job: Sch.Job) {
    job.generation == s.generation && s.active == Some(job.segment)
  }

  /** Exactly one live entry, for the active segment; or none and no active segment. */
  ghost predicate Owned(s: Session, v: Sch.Slot) {
    if s.active.None? then Live(v) == [] else |Live(v)| == 1 && Owns(s, Live(v)[0].job)
  }

  /** The job is of an earlier generation, or its segment is gone; neither ever comes back. */
  ghost predicate Gone(s: Session, job: Sch.Job) {
    job.generation < s.generation || forall g :: g in s.segments ==> g.id != job.segment
  }

  /** A stale request can never match the session again. */
  ghost predicate Disowned(s: Session, v: Sch.Slot) {
    v.active.Some? && v.active.value.stale && v.active.value.phase != Sch.Done ==> Gone(s, v.active.value.entry.job)
  }

  /** Everything the scheduler holds was submitted before the last change of generation. */
  ghost predicate Past(s: Session, v: Sch.Slot) {
    && (forall e :: e in v.queue ==> e.job.generation < s.generation)
    && (v.active.Some? ==> v.active.value.entry.job.generation < s.generation)
  }

  ghost predicate Dropping(s: Session, v: Sch.Slot, dropped: set<nat>) {
    s.active.None? && |Live(v)| <= 1 && forall e :: e in Live(v) ==> e.job.segment in dropped
  }

  ghost predicate Linked(s: Session, v: Sch.Slot) {
    if s.pc.Detaching? || s.pc.Resetting? || s.pc.Closing? then
      Past(s, v) && (s.pc.Resetting? ==> s.active.None?) && (s.pc.Closing? ==> s.closed)
    else if s.closed then Live(v) == []
    else Owned(s, v) || (s.pc.RollingBack? && Dropping(s, v, s.pc.dropped))
  }

  /** Every translation is the backend's answer for exactly that segment's source. */
  ghost predicate Answered(id: string, s: Session, log: set<Reply>) {
    forall g :: g in s.segments && (g.status == Complete || g.translation != "") ==>
      Reply(id, g.id, g.source, Some(g.translation)) in log
  }

  ghost predicate HoldsReply(id: string, v: Sch.Slot, results: map<string, Option<string>>, log: set<Reply>) {
    v.active.Some? && v.active.value.phase == Sch.Calling ==>
      id in results && Reply(id, v.active.value.entry.job.segment, v.active.value.entry.job.source, results[id]) in log
  }

  ghost predicate Paired(w: World, id: string, s: Session, v: Sch.Slot, open: bool,
                         results: map<string, Option<string>>, log: set<Reply>) {
    && Sound(w, s) && Fitted(s, v) && Answered(id, s, log) && HoldsReply(id, v, results, log)
    && (open ==> Linked(s, v) && Disowned(s, v))
  }

  ghost predicate PartOk(ws: string -> World, p: State, id: string) {
    var v := Sch.SlotOf(p.scheduler, id);
    if id in p.sessions then Paired(ws(id), id, p.sessions[id], v, !p.scheduler.closing, p.results, p.log)
    else v == Sch.Slot([], None)
  }

  ghost predicate Inv(ws: string -> World, p: State) {
    Sch.Inv(p.scheduler) && (forall id :: PartOk(ws, p, id)) && (forall id :: ws(id).settings.Valid())
  }

  lemma {:induction false} InvSound(ws: string -> World, p: State)
    requires Inv(ws, p)
    ensures AllSound(ws, p)
  {
    forall id | id in p.sessions
      ensures Sound(ws(id), p.sessions[id])
    {
      assert PartOk(ws, p, id);
    }
  }

  // -------- The scheduler moves, the session does not

  /** The slot holds the same live entries, and nothing stale that it did not hold stale. */
  ghost predicate Moved(v: Sch.Slot, r: Sch.Slot) {
    && Live(r) == Live(v)
    && (forall e :: e in r.queue ==> e in v.queue)
    && (r.active.Some? ==> r.active.value.entry in v.queue
                           || (v.active.Some? && r.active.value.entry == v.active.value.entry))
    && (r.active.Some? && r.active.value.stale && r.active.value.phase != Sch.Done ==>
          v.active.Some? && v.active.value.stale && v.active.value.phase != Sch.Done
          && v.active.value.entry == r.active.value.entry)
  }

  lemma {:induction false} MovedPaired(w: World, id: string, s: Session, v: Sch.Slot, r: Sch.Slot, open: bool,
                                       results: map<string, Option<string>>, log: set<Reply>)
    requires Paired(w, id, s, v, open, results, log) && Moved(v, r) && HoldsReply(id, r, results, log)
    ensures Paired(w, id, s, r, open, results, log)
  {
    hide Sound, Answered, JobFits, Gone;
    assert s.pc.RollingBack? && Dropping(s, v, s.pc.dropped) ==> Dropping(s, r, s.pc.dropped);
    if Past(s, v) { PastMoved(s, v, r); }
  }

  lemma {:induction false} PastMoved(s: Session, v: Sch.Slot, r: Sch.Slot)
    requires Past(s, v) && Moved(v, r)
    ensures Past(s, r)
  {
  }

  // -------- The session moves, the scheduler does not

  lemma {:induction false} GrowsFits(s: Session, r: Session, job: Sch.Job)
    requires JobFits(s, job) && Grows(s, r)
    ensures JobFits(r, job)
  {
    forall h | h in r.segments && h.id == job.segment
      ensures h.revision == job.revision && h.source == job.source
    {
      assert Inherited(s.segments, s.nextSegment, h);
    }
  }

  lemma {:induction false} GrowsFitted(s: Session, r: Session, v: Sch.Slot)
    requires Fitted(s, v) && Grows(s, r)
    ensures Fitted(r, v)
  {
    hide JobFits, Grows;
    forall e | e in v.queue
      ensures JobFits(r, e.job)
    {
      GrowsFits(s, r, e.job);
    }
    if v.active.Some? { GrowsFits(s, r, v.active.value.entry.job); }
  }

  lemma {:induction false} GrowsDisowned(s: Session, r: Session, v: Sch.Slot)
    requires Disowned(s, v) && Fitted(s, v) && Grows(s, r)
    ensures Disowned(r, v)
  {
    if v.active.Some? {
      var job := v.active.value.entry.job;
      forall h | h in r.segments && Gone(s, job) && job.generation == r.generation
        ensures h.id != job.segment
      {
        assert Inherited(s.segments, s.nextSegment, h);
      }
    }
  }

  lemma {:induction false} GrowsAnswered(id: string, s: Session, r: Session, log: set<Reply>)
    requires Answered(id, s, log) && Grows(s, r)
    ensures Answered(id, r, log)
  {
    forall h | h in r.segments && (h.status == Complete || h.translation != "")
      ensures Reply(id, h.id, h.source, Some(h.translation)) in log
    {
      assert Inherited(s.segments, s.nextSegment, h);
      var g :| g in s.segments && Kin(g, h);
    }
  }

  /** What an action on its own may do to ownership. */
  ghost predicate Quiet(s: Session, r: Session) {
    && r.generation == s.generation && r.closed == s.closed && r.active == s.active
    && !s.pc.RollingBack? && !r.pc.RollingBack? && !r.pc.Detaching? && !r.pc.Resetting? && !r.pc.Closing?
    && !s.pc.Detaching? && !s.pc.Resetting? && !s.pc.Closing?
  }

  lemma {:induction false} QuietLinked(s: Session, r: Session, v: Sch.Slot)
    requires Linked(s, v) && Quiet(s, r)
    ensures Linked(r, v)
  {
  }

  /** A new generation leaves everything the scheduler holds behind. */
  lemma {:induction false} NewGenerationLinked(s: Session, r: Session, v: Sch.Slot)
    requires Fitted(s, v) && r.generation > s.generation
    requires r.pc.Detaching? || (r.pc.Resetting? && r.active.None?) || (r.pc.Closing? && r.closed)
    ensures Linked(r, v)
  {
  }

  /** A cut disowns the live entry only if its segment was dropped. */
  lemma {:induction false} CutLinked(s: Session, r: Session, v: Sch.Slot, index: nat)
    requires Linked(s, v) && s.pc == Idle && Cuts(s, r, index) && SameLife(s, r)
    ensures Linked(r, v)
  {
    if !s.closed && r.active.None? && s.active.Some? {
      assert Dropping(r, v, r.pc.dropped);
    }
  }

  lemma {:induction false} AloneLinked(w: World, s: Session, a: Action, v: Sch.Slot)
    requires Sound(w, s) && Alone(a) && Fitted(s, v) && Linked(s, v)
    ensures Linked(Perform(w, s, a), v)
  {
    hide Sound, IngestStart, Evaluate, Appends, Linked, Fitted, S.Judged, Retried, Selectable;
    if s.pc == Idle {
      var r := Perform(w, s, a);
      match a
      case Ingest(e, clock) =>
        var index := IngestParts(w, s, e, clock);
        if r.pc.RollingBack? { CutLinked(s, r, v, index); } else { QuietLinked(s, r, v); }
      case Timer(x, uid, generation) =>
        EvaluateQuiet(w, x, s, uid, generation);
        QuietLinked(s, r, v);
      case Attach => QuietLinked(s, r, v);
      case _ => NewGenerationLinked(s, r, v);
    }
  }

  lemma {:induction false} EvaluateQuiet(w: World, x: Weather, s: Session, uid: string, generation: nat)
    requires Sound(w, s) && s.pc == Idle
    ensures Selectable(w, s) && Quiet(s, Evaluate(w, x, s, uid, generation))
  {
    EvaluateSound(w, x, s, uid, generation);
    EvaluateGrows(w, x, s, uid, generation);
    hide Sound, Evaluate, AllAligned, Selectable;
  }

  lemma {:induction false} AlonePaired(w: World, id: string, s: Session, a: Action, v: Sch.Slot, open: bool,
                                       results: map<string, Option<string>>, log: set<Reply>)
    requires Paired(w, id, s, v, open, results, log) && Alone(a)
    ensures Paired(w, id, Perform(w, s, a), v, open, results, log)
  {
    hide Sound, Fitted, Linked, Disowned, Answered, HoldsReply, Perform, Grows;
    PerformSound(w, s, a);
    PerformGrows(w, s, a);
    GrowsFitted(s, Perform(w, s, a), v);
    GrowsAnswered(id, s, Perform(w, s, a), log);
    if open {
      AloneLinked(w, s, a, v);
      GrowsDisowned(s, Perform(w, s, a), v);
    }
  }

  // -------- Both move

  lemma {:induction false} SpareLive(v: Sch.Slot, dropped: set<nat>)
    ensures forall e :: e in Live(Sch.Spare(v, dropped)) ==> e in Live(v) && e.job.segment !in dropped
    ensures |Live(v)| == 1 && Live(v)[0].job.segment !in dropped ==> Live(Sch.Spare(v, dropped)) == Live(v)
    ensures forall e :: e in Sch.Spare(v, dropped).queue ==> e in v.queue
    ensures (forall e :: e in Live(v) ==> e.job.segment in dropped) ==> Live(Sch.Spare(v, dropped)) == []
  {
    Sch.OutsideHolds(v.queue, dropped);
    var x := Live(Sch.Spare(v, dropped));
    if x != [] { assert x[0] in x; }
    if |v.queue| == 1 {
      assert v.queue == [v.queue[0]] && v.queue[1..] == [];
    }
  }

  /** Invalidating the dropped segments ends exactly the live entry the cut disowned. */
  lemma {:induction false} SpareLinked(w: World, s: Session, r: Session, v: Sch.Slot)
    requires Sound(w, s) && s.pc.RollingBack? && Linked(s, v)
    requires SameLife(s, r) && r.pc == Idle && r.active == s.active
    ensures Linked(r, Sch.Spare(v, s.pc.dropped))
  {
    ActiveNotDropped(w, s);
    hide Sound, Linked, Sch.Spare;
    SpareLinkedFrom(s, r, v, s.pc.dropped);
  }

  lemma {:induction false} SpareLinkedFrom(s: Session, r: Session, v: Sch.Slot, dropped: set<nat>)
    requires s.pc.RollingBack? && s.pc.dropped == dropped && Linked(s, v)
    requires s.active.Some? ==> s.active.value !in dropped
    requires SameLife(s, r) && r.pc == Idle && r.active == s.active
    ensures Linked(r, Sch.Spare(v, dropped))
  {
    hide Live, Sch.Spare, Owned, Dropping;
    if s.closed {
      SpareLive(v, dropped);
      NoneLive(v, Sch.Spare(v, dropped));
    } else if Owned(s, v) {
      SpareOwned(s, r, v, dropped);
    } else {
      SpareDropped(s, r, v, dropped);
    }
  }

  lemma {:induction false} NoneLive(v: Sch.Slot, x: Sch.Slot)
    requires Live(v) == [] && forall e :: e in Live(x) ==> e in Live(v)
    ensures Live(x) == []
  {
    SomeEntry(Live(x));
    hide Live;
  }

  lemma {:induction false} SomeEntry(q: seq<Sch.Entry>)
    ensures q == [] || exists e :: e in q
  {
    if q != [] { assert q[0] in q; }
  }

  lemma {:induction false} SpareOwned(s: Session, r: Session, v: Sch.Slot, dropped: set<nat>)
    requires Owned(s, v) && (s.active.Some? ==> s.active.value !in dropped)
    requires r.active == s.active && r.generation == s.generation
    ensures Owned(r, Sch.Spare(v, dropped))
  {
    SpareLive(v, dropped);
    hide Live, Sch.Spare;
  }

  lemma {:induction false} SpareDropped(s: Session, r: Session, v: Sch.Slot, dropped: set<nat>)
    requires Dropping(s, v, dropped) && r.active == s.active
    ensures Owned(r, Sch.Spare(v, dropped))
  {
    SpareLive(v, dropped);
    hide Live, Sch.Spare;
  }

  lemma {:induction false} ActiveNotDropped(w: World, s: Session)
    requires Sound(w, s) && s.pc.RollingBack?
    ensures s.active.Some? ==> s.active.value !in s.pc.dropped
    ensures forall g :: g in s.segments ==> g.id !in s.pc.dropped
  {
    hide UtteranceOk, Listed;
  }

  lemma {:induction false} SpareDisowned(w: World, s: Session, r: Session, v: Sch.Slot)
    requires Sound(w, s) && s.pc.RollingBack? && Disowned(s, v)
    requires r.generation == s.generation && SameShape(s.segments, r.segments)
    ensures Disowned(r, Sch.Spare(v, s.pc.dropped))
  {
    hide SameShape;
    ActiveNotDropped(w, s);
    hide Sound;
    var x := Sch.Spare(v, s.pc.dropped);
    if x.active.Some? && x.active.value.stale && x.active.value.phase != Sch.Done {
      assert Gone(s, x.active.value.entry.job);
      ShapeGone(s, r, x.active.value.entry.job);
    }
  }

  lemma {:induction false} ShapeGone(s: Session, r: Session, job: Sch.Job)
    requires Gone(s, job) && SameShape(s.segments, r.segments) && r.generation == s.generation
    ensures Gone(r, job)
  {
    forall h | h in r.segments
      ensures exists g :: g in s.segments && g.id == h.id
    {
      var i :| 0 <= i < |r.segments| && r.segments[i] == h;
      assert Shape(s.segments[i], h) && s.segments[i] in s.segments;
    }
  }

  lemma {:induction false} SpareFitted(s: Session, v: Sch.Slot, dropped: set<nat>)
    requires Fitted(s, v)
    ensures Fitted(s, Sch.Spare(v, dropped))
  {
    SpareLive(v, dropped);
  }

  lemma {:induction false} ResumePaired(w: World, id: string, s: Session, clock: real, v: Sch.Slot, open: bool,
                                        results: map<string, Option<string>>, log: set<Reply>)
    requires Paired(w, id, s, v, open, results, log) && s.pc.RollingBack?
    ensures Paired(w, id, Perform(w, s, Resume(clock)), Sch.Spare(v, s.pc.dropped), open, results, log)
  {
    hide Sound, Fitted, Linked, Disowned, Answered, Grows, IngestFinish;
    var a := Resume(clock);
    var r := Perform(w, s, a);
    PerformSound(w, s, a);
    PerformGrows(w, s, a);
    SpareFitted(s, v, s.pc.dropped);
    GrowsFitted(s, r, Sch.Spare(v, s.pc.dropped));
    GrowsAnswered(id, s, r, log);
    if open {
      FinishParts(w, s, clock);
      RetriedShape(s.segments, s.pc.uid);
      ShapeSame(s.segments);
      SpareLinked(w, s, r, v);
      SpareDisowned(w, s, r, v);
    }
  }

  /** Cancelling the session leaves nothing live, and nothing stale that could match. */
  lemma {:induction false} CancelPaired(w: World, id: string, s: Session, v: Sch.Slot, open: bool,
                                        results: map<string, Option<string>>, log: set<Reply>)
    requires Paired(w, id, s, v, open, results, log) && (s.pc.Detaching? || s.pc.Resetting? || s.pc.Closing?)
    ensures Paired(w, id, Perform(w, s, Ending(s)), Sch.Slot([], Sch.Stale(v.active)), open, results, log)
  {
    hide Sound, Answered, Grows, JobFits, Stopped;
    var a := Ending(s);
    PerformSound(w, s, a);
    PerformGrows(w, s, a);
    var x := Sch.Slot([], Sch.Stale(v.active));
    GrowsFitted(s, Perform(w, s, a), x);
    GrowsAnswered(id, s, Perform(w, s, a), log);
  }

  // -------- Dispatching

  lemma {:induction false} ReadyAt(s: Session)
    requires NextReady(s).Some?
    ensures var i := NextReady(s).value;
      i < |s.segments| && s.segments[i].status == Ready && s.active.None? && !s.closed && s.connected
  {
  }

  /** A session never submits an older revision of a segment the scheduler still holds. */
  lemma {:induction false} NeverOutrun(id: string, s: Session, sch: Sch.State)
    requires Fitted(s, Sch.SlotOf(sch, id)) && NextReady(s).Some?
    ensures !Sch.Outrun(sch, JobOf(id, s, NextReady(s).value))
  {
    hide NextReady;
    ReadyAt(s);
    var g := s.segments[NextReady(s).value];
    assert g in s.segments;
    var v := Sch.SlotOf(sch, id);
    assert forall e :: e in v.queue ==> JobFits(s, e.job);
  }

  lemma {:induction false} DispatchedLinked(id: string, s: Session, i: nat, sch: Sch.State)
    requires i < |s.segments| && s.active.None? && !s.closed && s.pc == Dispatching
    requires Linked(s, Sch.SlotOf(sch, id)) && Disowned(s, Sch.SlotOf(sch, id))
    ensures var r, x := Dispatched(s, i), Sch.Accept(sch, JobOf(id, s, i));
      Linked(r, x) && Live(x) == [Sch.Entry(sch.nextId, JobOf(id, s, i))]
      && (x.active.Some? && x.active.value.stale && x.active.value.phase != Sch.Done ==>
            Sch.SlotOf(sch, id).active == x.active)
  {
    var v := Sch.SlotOf(sch, id);
    assert v.queue == [];
  }

  lemma {:induction false} DispatchedFits(w: World, id: string, s: Session, i: nat, v: Sch.Slot, x: Sch.Slot,
                                          entry: Sch.Entry)
    requires Sound(w, s) && i < |s.segments| && s.active.None? && s.pc == Dispatching && Fitted(s, v)
    requires entry.job == JobOf(id, s, i) && (forall e :: e in x.queue ==> e in v.queue || e == entry)
    requires x.active.Some? ==> v.active.Some? && x.active.value.entry == v.active.value.entry
    ensures Fitted(s, x)
  {
    hide Sound;
    SoundRunning(w, s);
    assert s.segments[i] in s.segments;
  }

  lemma {:induction false} PerformDispatch(w: World, s: Session)
    requires Sound(w, s) && s.pc == Dispatching && NextReady(s).Some?
    ensures Perform(w, s, Dispatch(true)) == Dispatched(s, NextReady(s).value)
  {
    hide Sound, NextReady, Dispatched;
  }

  /** Admission adds one entry and at most marks the active one stale. */
  lemma {:induction false} AcceptShape(sch: Sch.State, job: Sch.Job)
    ensures var v, x := Sch.SlotOf(sch, job.session), Sch.Accept(sch, job);
      && (forall e :: e in x.queue ==> e in v.queue || e == Sch.Entry(sch.nextId, job))
      && (x.active.Some? ==> v.active.Some? && x.active.value.entry == v.active.value.entry
                             && x.active.value.phase == v.active.value.phase)
  {
    Sch.CoalesceHolds(Sch.SlotOf(sch, job.session).queue, Sch.Entry(sch.nextId, job), false);
  }

  lemma {:induction false} DispatchPaired(w: World, id: string, s: Session, sch: Sch.State,
                                          results: map<string, Option<string>>, log: set<Reply>)
    requires Paired(w, id, s, Sch.SlotOf(sch, id), true, results, log) && s.pc == Dispatching && NextReady(s).Some?
    ensures Paired(w, id, Perform(w, s, Dispatch(true)), Sch.Accept(sch, JobOf(id, s, NextReady(s).value)), true,
                   results, log)
  {
    var a, i, v := Dispatch(true), NextReady(s).value, Sch.SlotOf(sch, id);
    var r, x := Perform(w, s, a), Sch.Accept(sch, JobOf(id, s, i));
    var entry := Sch.Entry(sch.nextId, JobOf(id, s, i));
    ReadyAt(s);
    AcceptShape(sch, JobOf(id, s, i));
    PerformDispatch(w, s);
    hide Perform, Sound, Fitted, Linked, Disowned, Answered, Grows, Dispatched, NextReady, JobOf, Live, Sch.Accept,
        Sch.SlotOf;
    PerformSound(w, s, a);
    PerformGrows(w, s, a);
    DispatchedLinked(id, s, i, sch);
    DispatchedFits(w, id, s, i, v, x, entry);
    GrowsFitted(s, r, x);
    GrowsAnswered(id, s, r, log);
    AcceptDisowned(s, r, v, x);
  }

  lemma {:induction false} AcceptDisowned(s: Session, r: Session, v: Sch.Slot, x: Sch.Slot)
    requires Disowned(s, v) && Fitted(s, v) && Grows(s, r)
    requires x.active.Some? && x.active.value.stale && x.active.value.phase != Sch.Done ==> v.active == x.active
    ensures Disowned(r, x)
  {
    hide Gone, Grows, Fitted;
    GrowsDisowned(s, r, v);
  }

  lemma {:induction false} NotDispatchedPaired(w: World, id: string, s: Session, v: Sch.Slot, open: bool,
                                               results: map<string, Option<string>>, log: set<Reply>)
    requires Paired(w, id, s, v, open, results, log) && s.pc == Dispatching
    ensures Paired(w, id, Perform(w, s, Dispatch(false)), v, open, results, log)
  {
    var a := Dispatch(false);
    var r := Perform(w, s, a);
    hide Sound, Fitted, Disowned, Answered, Grows;
    PerformSound(w, s, a);
    PerformGrows(w, s, a);
    GrowsFitted(s, r, v);
    GrowsAnswered(id, s, r, log);
    if open { GrowsDisowned(s, r, v); }
  }

  // -------- Callbacks

  /** The slot once the callback of its active entry is over. */
  function Called(v: Sch.Slot): Sch.Slot
    requires v.active.Some?
  {
    Sch.Slot(v.queue, Some(v.active.value.(phase := Sch.Done)))
  }

  function Answer(id: string, v: Sch.Slot, results: map<string, Option<string>>): Action
    requires v.active.Some? && id in results
  {
    var job := v.active.value.entry.job;
    Result(job.generation, job.segment, job.revision, results[id])
  }

  /** While scheduler and session are open, a callback reaches its segment exactly when
      its entry was not stale. */
  lemma {:induction false} AcceptsIffFresh(w: World, s: Session, v: Sch.Slot)
    requires Sound(w, s) && Fitted(s, v) && Linked(s, v) && Disowned(s, v) && s.pc == Idle
    requires v.active.Some? && v.active.value.phase == Sch.Calling
    ensures var job := v.active.value.entry.job;
      Accepts(s, job.generation, job.segment, job.revision) <==> !v.active.value.stale
  {
    hide Sound;
    SoundRunning(w, s);
    var job := v.active.value.entry.job;
    if !v.active.value.stale {
      assert Live(v) == [v.active.value.entry] + v.queue;
      assert Owns(s, job);
      var g :| g in s.segments && g.id == job.segment;
      var i := Find(s.segments, job.segment);
      assert s.segments[i] in s.segments;
    } else if s.active == Some(job.segment) {
      assert exists g :: g in s.segments && g.id == job.segment;
    }
  }

  lemma {:induction false} CallLinked(w: World, id: string, s: Session, v: Sch.Slot,
                                      results: map<string, Option<string>>)
    requires Sound(w, s) && Fitted(s, v) && Linked(s, v) && Disowned(s, v) && s.pc == Idle
    requires v.active.Some? && v.active.value.phase == Sch.Calling && id in results
    ensures Linked(Perform(w, s, Answer(id, v, results)), Called(v))
    ensures Disowned(Perform(w, s, Answer(id, v, results)), Called(v))
  {
    hide Sound;
    AcceptsIffFresh(w, s, v);
    if !v.active.value.stale {
      assert Live(v) == [v.active.value.entry] + v.queue;
      assert Live(v)[0] == v.active.value.entry;
    }
  }

  lemma {:induction false} MarkedFits(s: Session, r: Session, i: nat, status: Status, translation: string, job: Sch.Job)
    requires JobFits(s, job) && i < |s.segments| && r.segments == Marked(s.segments, i, status, translation)
    requires r.generation == s.generation && r.nextSegment == s.nextSegment
    ensures JobFits(r, job)
  {
    forall h | h in r.segments && h.id == job.segment
      ensures h.revision == job.revision && h.source == job.source
    {
      var k :| 0 <= k < |r.segments| && r.segments[k] == h;
      assert s.segments[k] in s.segments;
    }
  }

  /** A result writes the reply for exactly the source the segment has now. */
  lemma {:induction false} MarkedAnswered(id: string, s: Session, r: Session, i: nat, status: Status,
                                          answer: Option<string>, translation: string, job: Sch.Job, log: set<Reply>)
    requires Answered(id, s, log) && JobFits(s, job) && i < |s.segments| && s.segments[i].id == job.segment
    requires r.segments == Marked(s.segments, i, status, translation)
    requires status == Complete ==> answer == Some(translation) && Reply(id, job.segment, job.source, answer) in log
    requires status != Complete ==> translation == s.segments[i].translation
    ensures Answered(id, r, log)
  {
    assert s.segments[i] in s.segments;
    forall h | h in r.segments && (h.status == Complete || h.translation != "")
      ensures Reply(id, h.id, h.source, Some(h.translation)) in log
    {
      var k :| 0 <= k < |r.segments| && r.segments[k] == h;
      assert s.segments[k] in s.segments;
    }
  }

  lemma {:induction false} CallPaired(w: World, id: string, s: Session, v: Sch.Slot, open: bool,
                                      results: map<string, Option<string>>, log: set<Reply>)
    requires Paired(w, id, s, v, open, results, log) && s.pc == Idle && id in results
    requires v.active.Some? && v.active.value.phase == Sch.Calling
    ensures Paired(w, id, Perform(w, s, Answer(id, v, results)), Called(v), open, results, log)
  {
    hide Sound, Linked, Disowned, Answered, Fitted, Perform;
    PerformSound(w, s, Answer(id, v, results));
    if open { CallLinked(w, id, s, v, results); }
    CallIs(w, id, s, v, results);
    CallFitted(w, s, v, v.active.value.entry.job, results[id]);
    CallAnswered(w, id, s, v.active.value.entry.job, results[id], log, v);
  }

  lemma {:induction false} CallIs(w: World, id: string, s: Session, v: Sch.Slot, results: map<string, Option<string>>)
    requires Sound(w, s) && s.pc == Idle && id in results && v.active.Some?
    ensures var job := v.active.value.entry.job;
      Perform(w, s, Answer(id, v, results))
      == Resulted(w, s, job.generation, job.segment, job.revision, results[id])
  {
    hide Sound, Resulted;
  }

  lemma {:induction false} CallFitted(w: World, s: Session, v: Sch.Slot, job: Sch.Job, answer: Option<string>)
    requires Fitted(s, v) && v.active.Some?
    ensures Fitted(Resulted(w, s, job.generation, job.segment, job.revision, answer), Called(v))
  {
    hide JobFits, Resulted, Accepts;
    var r := Resulted(w, s, job.generation, job.segment, job.revision, answer);
    if Accepts(s, job.generation, job.segment, job.revision) {
      forall e | e in v.queue
        ensures JobFits(r, e.job)
      {
        CallFits(w, s, r, job, answer, e.job);
      }
      CallFits(w, s, r, job, answer, v.active.value.entry.job);
    } else {
      NotResulted(w, s, job, answer);
    }
  }

  lemma {:induction false} CallAnswered(w: World, id: string, s: Session, job: Sch.Job, answer: Option<string>,
                                        log: set<Reply>, v: Sch.Slot)
    requires Fitted(s, v) && v.active.Some? && v.active.value.entry.job == job && Answered(id, s, log)
    requires Reply(id, job.segment, job.source, answer) in log
    ensures Answered(id, Resulted(w, s, job.generation, job.segment, job.revision, answer), log)
  {
    hide JobFits, Resulted, Accepts, Answered;
    if Accepts(s, job.generation, job.segment, job.revision) {
      CallWrites(w, id, s, Resulted(w, s, job.generation, job.segment, job.revision, answer), job, answer, log);
    } else {
      NotResulted(w, s, job, answer);
    }
  }

  lemma {:induction false} NotResulted(w: World, s: Session, job: Sch.Job, answer: Option<string>)
    requires !Accepts(s, job.generation, job.segment, job.revision)
    ensures Resulted(w, s, job.generation, job.segment, job.revision, answer) == s
  {
  }

  lemma {:induction false} CallFits(w: World, s: Session, r: Session, job: Sch.Job, answer: Option<string>,
                                    other: Sch.Job)
    requires Accepts(s, job.generation, job.segment, job.revision) && JobFits(s, other)
    requires r == Resulted(w, s, job.generation, job.segment, job.revision, answer)
    ensures JobFits(r, other)
  {
    hide JobFits, Marked;
    var i := Find(s.segments, job.segment);
    var x := Written(w, s, i, answer);
    ResultedIs(w, s, job.generation, job.segment, job.revision, answer);
    MarkedFits(s, r, i, x.0, x.1, other);
  }

  lemma {:induction false} CallWrites(w: World, id: string, s: Session, r: Session, job: Sch.Job,
                                      answer: Option<string>, log: set<Reply>)
    requires Accepts(s, job.generation, job.segment, job.revision) && JobFits(s, job) && Answered(id, s, log)
    requires r == Resulted(w, s, job.generation, job.segment, job.revision, answer)
    requires Reply(id, job.segment, job.source, answer) in log
    ensures Answered(id, r, log)
  {
    hide JobFits, Marked, Answered;
    var i := Find(s.segments, job.segment);
    var x := Written(w, s, i, answer);
    ResultedIs(w, s, job.generation, job.segment, job.revision, answer);
    MarkedAnswered(id, s, r, i, x.0, answer, x.1, job, log);
  }

  // -------- One step of the whole

  /** Nothing this session depends on changed; other sessions may have got replies. */
  ghost predicate Same(p: State, q: State, id: string) {
    && (id in q.sessions <==> id in p.sessions) && (id in p.sessions ==> q.sessions[id] == p.sessions[id])
    && Sch.SlotOf(q.scheduler, id) == Sch.SlotOf(p.scheduler, id)
    && (id in p.results ==> id in q.results && q.results[id] == p.results[id])
    && p.log <= q.log && q.scheduler.closing == p.scheduler.closing
  }

  lemma {:induction false} MoreReplies(w: World, id: string, s: Session, v: Sch.Slot, open: bool,
                                       results: map<string, Option<string>>, log: set<Reply>,
                                       results': map<string, Option<string>>, log': set<Reply>)
    requires Paired(w, id, s, v, open, results, log) && log <= log'
    requires id in results ==> id in results' && results'[id] == results[id]
    ensures Paired(w, id, s, v, open, results', log')
  {
    hide Sound, Fitted, Linked, Disowned;
  }

  lemma {:induction false} SamePart(ws: string -> World, p: State, q: State, id: string)
    requires PartOk(ws, p, id) && Same(p, q, id)
    ensures PartOk(ws, q, id)
  {
    hide Paired;
    if id in p.sessions {
      MoreReplies(ws(id), id, p.sessions[id], Sch.SlotOf(p.scheduler, id), !p.scheduler.closing,
                  p.results, p.log, q.results, q.log);
    }
  }

  /** A step of one session: it must end sound, and every other must be left alone. */
  lemma {:induction false} StepAt(ws: string -> World, p: State, q: State, id: string)
    requires Inv(ws, p) && Sch.Inv(q.scheduler) && PartOk(ws, q, id)
    requires forall other :: other != id ==> Same(p, q, other)
    ensures Inv(ws, q)
  {
    hide PartOk, Same, Sch.Inv;
    forall other
      ensures PartOk(ws, q, other)
    {
      if other != id {
        SamePart(ws, p, q, other);
      }
    }
  }

  // What each scheduler step does to the slots.

  lemma {:induction false} EditSlots(s: Sch.State, t: Sch.State, id: string, v: Sch.Slot, ledger: map<nat, Sch.Place>,
                                     idle: nat, nextId: nat)
    requires var u := Sch.Edit(s, id, v, ledger, idle, nextId); t.pending == u.pending && t.active == u.active
    ensures Sch.SlotOf(t, id) == v && forall other :: other != id ==> Sch.SlotOf(t, other) == Sch.SlotOf(s, other)
  {
    hide Sch.SlotOf;
    Sch.EditIs(s, id, v, ledger, idle, nextId);
    Sch.SameSlots(Sch.Edit(s, id, v, ledger, idle, nextId), t);
  }

  lemma {:induction false} HoldSlots(s: Sch.State, t: Sch.State, id: string, a: Option<Sch.Active>)
    requires t.pending == s.pending && t.active == Sch.PutActive(s.active, id, a)
    ensures Sch.SlotOf(t, id) == Sch.Slot(Sch.Queue(s, id), a)
    ensures forall other :: other != id ==> Sch.SlotOf(t, other) == Sch.SlotOf(s, other)
  {
  }

  lemma {:induction false} InvalidateSlots(s: Sch.State, id: string, dropped: set<nat>)
    ensures var t := Sch.Invalidate(s, id, dropped);
      && t.closing == s.closing && Sch.SlotOf(t, id) == Sch.Spare(Sch.SlotOf(s, id), dropped)
      && forall other :: other != id ==> Sch.SlotOf(t, other) == Sch.SlotOf(s, other)
  {
    var v := Sch.Spare(Sch.SlotOf(s, id), dropped);
    var ledger := Sch.Settle(s.ledger, Sch.Ids(Sch.Queue(s, id)) - Sch.Ids(v.queue), Sch.Discarded);
    Sch.InvalidateIs(s, id, dropped, v, ledger);
    EditSlots(s, Sch.Invalidate(s, id, dropped), id, v, ledger, s.idle, s.nextId);
  }

  lemma {:induction false} CancelSlots(s: Sch.State, id: string)
    ensures var t := Sch.CancelSession(s, id);
      && t.closing == s.closing && Sch.SlotOf(t, id) == Sch.Slot([], Sch.Stale(Sch.SlotOf(s, id).active))
      && forall other :: other != id ==> Sch.SlotOf(t, other) == Sch.SlotOf(s, other)
  {
    var v := Sch.Slot([], Sch.Stale(Sch.SlotOf(s, id).active));
    var ledger := Sch.Settle(s.ledger, Sch.Ids(Sch.Queue(s, id)) - Sch.Ids(v.queue), Sch.Discarded);
    Sch.CancelIs(s, id, v, ledger);
    EditSlots(s, Sch.CancelSession(s, id), id, v, ledger, s.idle, s.nextId);
  }

  lemma {:induction false} SubmitSlots(s: Sch.State, job: Sch.Job)
    requires Sch.Submitted(s, job).Ok?
    ensures var t := Sch.Submitted(s, job).value;
      && t == Sch.Admitted(s, job) && t.closing == s.closing && !s.closing
      && Sch.SlotOf(t, job.session) == Sch.Accept(s, job)
      && forall other :: other != job.session ==> Sch.SlotOf(t, other) == Sch.SlotOf(s, other)
  {
    var t := Sch.Admitted(s, job);
    hide Sch.Accept, Sch.SlotOf, Sch.AcceptLedger, Sch.Outrun, Sch.Overflows, Sch.Admitted;
    Sch.AdmittedIs(s, job);
    EditSlots(s, t, job.session, Sch.Accept(s, job), Sch.AcceptLedger(s, job), s.idle, s.nextId + 1);
  }

  /** The slot after a taker, a request, a return or the end of a worker's turn. */
  lemma {:induction false} TakeMoved(s: Sch.State, id: string)
    requires Sch.Inv(s)
    ensures var t := Sch.Take(s);
      && t.closing == s.closing && Moved(Sch.SlotOf(s, id), Sch.SlotOf(t, id))
      && (Sch.SlotOf(t, id).active == Sch.SlotOf(s, id).active
          || (Sch.SlotOf(t, id).active.Some? && Sch.SlotOf(t, id).active.value.phase == Sch.Taken))
  {
    if !s.closing && s.idle > 0 && s.ready != [] {
      var sid := s.ready[0];
      Sch.TakeIs(s);
      var q := Sch.Queue(s, sid);
      var v := Sch.Slot(q[1..], Some(Sch.Active(q[0], false, Sch.Taken)));
      var ledger := s.ledger[q[0].id := Sch.Running(sid)];
      Sch.OccupyIs(s, sid, v, ledger);
      EditSlots(s, Sch.Take(s), sid, v, ledger, s.idle - 1, s.nextId);
      if id == sid {
        assert Live(v) == [q[0]] + q[1..] == q;
      }
    }
  }

  lemma {:induction false} BeginMoved(s: Sch.State, id: string, other: string)
    ensures var t := Sch.Begin(s, id);
      && t.closing == s.closing && Moved(Sch.SlotOf(s, other), Sch.SlotOf(t, other))
      && (Sch.SlotOf(t, other).active == Sch.SlotOf(s, other).active
          || (Sch.SlotOf(t, other).active.Some? && Sch.SlotOf(t, other).active.value.phase != Sch.Calling))
  {
    if id in s.active && s.active[id].phase == Sch.Taken {
      HoldSlots(s, Sch.Begin(s, id), id,
                Some(s.active[id].(phase := if s.active[id].stale then Sch.Done else Sch.Requested)));
    }
  }

  lemma {:induction false} FinishMoved(s: Sch.State, id: string, other: string)
    ensures var t := Sch.Finish(s, id);
      && t.closing == s.closing && Moved(Sch.SlotOf(s, other), Sch.SlotOf(t, other))
      && (Sch.SlotOf(t, other).active == Sch.SlotOf(s, other).active || Sch.SlotOf(t, other).active.None?)
  {
    if id in s.active && s.active[id].phase == Sch.Done {
      HoldSlots(s, Sch.Finish(s, id), id, None);
    }
  }

  lemma {:induction false} ReturnMoved(s: Sch.State, id: string)
    requires Sch.Inv(s) && id in s.active && s.active[id].phase == Sch.Requested
    ensures var t, v := Sch.Return(s, id), Sch.SlotOf(s, id);
      && t.closing == s.closing && Moved(v, Sch.SlotOf(t, id))
      && Sch.SlotOf(t, id)
         == Sch.Slot(v.queue, Some(v.active.value.(
              phase := if v.active.value.stale || s.closing then Sch.Done else Sch.Calling)))
      && forall other :: other != id ==> Sch.SlotOf(t, other) == Sch.SlotOf(s, other)
  {
    assert Sch.SessionOk(s, id);
    HoldSlots(s, Sch.Return(s, id), id,
              Some(s.active[id].(phase := if s.active[id].stale || s.closing then Sch.Done else Sch.Calling)));
  }

  lemma {:induction false} CallbackSlots(s: Sch.State, id: string)
    requires id in s.active && s.active[id].phase == Sch.Calling
    ensures var t := Sch.CallbackDone(s, id);
      && t.closing == s.closing && Sch.SlotOf(t, id) == Called(Sch.SlotOf(s, id))
      && forall other :: other != id ==> Sch.SlotOf(t, other) == Sch.SlotOf(s, other)
  {
    HoldSlots(s, Sch.CallbackDone(s, id), id, Some(s.active[id].(phase := Sch.Done)));
  }

  lemma {:induction false} CloseSlots(s: Sch.State, id: string)
    ensures Sch.SlotOf(Sch.Close(s), id) == Sch.Slot([], Sch.Stale(Sch.SlotOf(s, id).active))
  {
  }

  // -------- Every step keeps the invariant

  lemma {:induction false} KnownSession(ws: string -> World, p: State, id: string)
    requires PartOk(ws, p, id) && Sch.SlotOf(p.scheduler, id) != Sch.Slot([], None)
    ensures id in p.sessions
    ensures Paired(ws(id), id, p.sessions[id], Sch.SlotOf(p.scheduler, id), !p.scheduler.closing, p.results, p.log)
  {
  }

  /** One session acts and the scheduler changes at most its slot. */
  lemma {:induction false} PutKeeps(ws: string -> World, p: State, id: string, a: Action, t: Sch.State)
    requires Inv(ws, p) && AllSound(ws, p) && id in p.sessions && Sch.Inv(t) && t.closing == p.scheduler.closing
    requires forall other :: other != id ==> Sch.SlotOf(t, other) == Sch.SlotOf(p.scheduler, other)
    requires Paired(ws(id), id, Perform(ws(id), p.sessions[id], a), Sch.SlotOf(t, id), !t.closing, p.results, p.log)
    ensures Inv(ws, Put(ws, p, id, a, t))
  {
    hide Sch.Inv, Paired, Perform, Sch.SlotOf;
    StepAt(ws, p, Put(ws, p, id, a, t), id);
  }

  lemma {:induction false} PairedAt(ws: string -> World, p: State, id: string)
    requires Inv(ws, p) && id in p.sessions
    ensures Paired(ws(id), id, p.sessions[id], Sch.SlotOf(p.scheduler, id), !p.scheduler.closing, p.results, p.log)
    ensures Sch.Inv(p.scheduler)
  {
    assert PartOk(ws, p, id);
  }

  lemma {:induction false} OpenKeeps(ws: string -> World, p: State, id: string)
    requires Inv(ws, p) && id !in p.sessions
    ensures Inv(ws, p.(sessions := p.sessions[id := Opened(id)]))
  {
    var q := p.(sessions := p.sessions[id := Opened(id)]);
    assert PartOk(ws, p, id);
    OpenedSound(ws(id), id);
    StepAt(ws, p, q, id);
  }

  lemma {:induction false} ActKeeps(ws: string -> World, p: State, id: string, a: Action)
    requires Inv(ws, p) && AllSound(ws, p) && id in p.sessions && Alone(a)
    ensures Inv(ws, Put(ws, p, id, a, p.scheduler))
  {
    hide Inv, AllSound, Sch.Inv, Paired, Perform, Sch.SlotOf;
    PairedAt(ws, p, id);
    AlonePaired(ws(id), id, p.sessions[id], a, Sch.SlotOf(p.scheduler, id), !p.scheduler.closing, p.results, p.log);
    PutKeeps(ws, p, id, a, p.scheduler);
  }

  lemma {:induction false} InvalidatedKeeps(ws: string -> World, p: State, id: string, clock: real)
    requires Inv(ws, p) && AllSound(ws, p) && id in p.sessions && p.sessions[id].pc.RollingBack?
    ensures Inv(ws, Put(ws, p, id, Resume(clock), Sch.Invalidate(p.scheduler, id, p.sessions[id].pc.dropped)))
  {
    hide Inv, AllSound, Sch.Inv, Paired, Perform, Sch.SlotOf, Sch.Invalidate, Sch.Spare;
    PairedAt(ws, p, id);
    var s := p.sessions[id];
    ResumePaired(ws(id), id, s, clock, Sch.SlotOf(p.scheduler, id), !p.scheduler.closing, p.results, p.log);
    InvalidateSlots(p.scheduler, id, s.pc.dropped);
    Sch.InvalidateKeeps(p.scheduler, id, s.pc.dropped);
    PutKeeps(ws, p, id, Resume(clock), Sch.Invalidate(p.scheduler, id, s.pc.dropped));
  }

  lemma {:induction false} CancelledKeeps(ws: string -> World, p: State, id: string)
    requires Inv(ws, p) && AllSound(ws, p) && id in p.sessions
    requires p.sessions[id].pc.Detaching? || p.sessions[id].pc.Resetting? || p.sessions[id].pc.Closing?
    ensures Inv(ws, Put(ws, p, id, Ending(p.sessions[id]), Sch.CancelSession(p.scheduler, id)))
  {
    hide Inv, AllSound, Sch.Inv, Paired, Perform, Sch.SlotOf, Sch.CancelSession;
    PairedAt(ws, p, id);
    var s := p.sessions[id];
    CancelPaired(ws(id), id, s, Sch.SlotOf(p.scheduler, id), !p.scheduler.closing, p.results, p.log);
    CancelSlots(p.scheduler, id);
    Sch.CancelKeeps(p.scheduler, id);
    PutKeeps(ws, p, id, Ending(s), Sch.CancelSession(p.scheduler, id));
  }

  lemma {:induction false} QueuedKeeps(ws: string -> World, p: State, id: string)
    requires Inv(ws, p) && AllSound(ws, p) && id in p.sessions && p.sessions[id].pc == Dispatching
    requires NextReady(p.sessions[id]).Some? && Submission(p, id).Ok?
    ensures Inv(ws, Put(ws, p, id, Dispatch(true), Submission(p, id).value))
  {
    hide Inv, AllSound, Sch.Inv, Paired, Perform, Sch.SlotOf, Sch.Accept, Sch.Admitted;
    PairedAt(ws, p, id);
    var s := p.sessions[id];
    var job := JobOf(id, s, NextReady(s).value);
    SubmitSlots(p.scheduler, job);
    Sch.AdmittedKeeps(p.scheduler, job);
    DispatchPaired(ws(id), id, s, p.scheduler, p.results, p.log);
    PutKeeps(ws, p, id, Dispatch(true), Submission(p, id).value);
  }

  lemma {:induction false} NotQueuedKeeps(ws: string -> World, p: State, id: string)
    requires Inv(ws, p) && AllSound(ws, p) && id in p.sessions && p.sessions[id].pc == Dispatching
    ensures Inv(ws, Put(ws, p, id, Dispatch(false), p.scheduler))
  {
    hide Inv, AllSound, Sch.Inv, Paired, Perform, Sch.SlotOf;
    PairedAt(ws, p, id);
    NotDispatchedPaired(ws(id), id, p.sessions[id], Sch.SlotOf(p.scheduler, id), !p.scheduler.closing, p.results,
                        p.log);
    PutKeeps(ws, p, id, Dispatch(false), p.scheduler);
  }

  /** A scheduler step that only moves entries along. */
  lemma {:induction false} MovedPart(ws: string -> World, p: State, t: Sch.State, id: string)
    requires PartOk(ws, p, id) && t.closing == p.scheduler.closing
    requires var v, r := Sch.SlotOf(p.scheduler, id), Sch.SlotOf(t, id);
      Moved(v, r) && (r.active == v.active || r.active.None? || r.active.value.phase != Sch.Calling)
    ensures PartOk(ws, p.(scheduler := t), id)
  {
    hide Sch.SlotOf;
    var v, r := Sch.SlotOf(p.scheduler, id), Sch.SlotOf(t, id);
    if id in p.sessions {
      MovedPaired(ws(id), id, p.sessions[id], v, r, !t.closing, p.results, p.log);
    } else {
      assert Live(v) == [] && Live(r) == [];
    }
  }

  lemma {:induction false} TakeKeeps(ws: string -> World, p: State)
    requires Inv(ws, p)
    ensures Inv(ws, p.(scheduler := Sch.Take(p.scheduler)))
  {
    hide Sch.Inv, PartOk, Sch.SlotOf, Moved;
    Sch.TakeKeeps(p.scheduler);
    forall id
      ensures PartOk(ws, p.(scheduler := Sch.Take(p.scheduler)), id)
    {
      TakeMoved(p.scheduler, id);
      MovedPart(ws, p, Sch.Take(p.scheduler), id);
    }
  }

  lemma {:induction false} BeginKeeps(ws: string -> World, p: State, id: string)
    requires Inv(ws, p)
    ensures Inv(ws, p.(scheduler := Sch.Begin(p.scheduler, id)))
  {
    hide Sch.Inv, PartOk, Sch.SlotOf, Moved, Sch.Begin;
    Sch.BeginKeeps(p.scheduler, id);
    forall other
      ensures PartOk(ws, p.(scheduler := Sch.Begin(p.scheduler, id)), other)
    {
      BeginMoved(p.scheduler, id, other);
      MovedPart(ws, p, Sch.Begin(p.scheduler, id), other);
    }
  }

  lemma {:induction false} FinishKeeps(ws: string -> World, p: State, id: string)
    requires Inv(ws, p)
    ensures Inv(ws, p.(scheduler := Sch.Finish(p.scheduler, id)))
  {
    hide Sch.Inv, PartOk, Sch.SlotOf, Moved, Sch.Finish;
    Sch.FinishKeeps(p.scheduler, id);
    forall other
      ensures PartOk(ws, p.(scheduler := Sch.Finish(p.scheduler, id)), other)
    {
      FinishMoved(p.scheduler, id, other);
      MovedPart(ws, p, Sch.Finish(p.scheduler, id), other);
    }
  }

  lemma {:induction false} ReturnPaired(w: World, id: string, s: Session, v: Sch.Slot, r: Sch.Slot, open: bool,
                                        results: map<string, Option<string>>, log: set<Reply>, answer: Option<string>)
    requires Paired(w, id, s, v, open, results, log) && Moved(v, r) && v.active.Some? && r.active.Some?
    requires r.active.value.entry == v.active.value.entry && v.active.value.phase == Sch.Requested
    ensures var job := v.active.value.entry.job;
      Paired(w, id, s, r, open, results[id := answer], log + {Reply(id, job.segment, job.source, answer)})
  {
    hide Sound, Linked, Disowned, Fitted, Moved;
    var job := v.active.value.entry.job;
    MoreReplies(w, id, s, v, open, results, log, results, log + {Reply(id, job.segment, job.source, answer)});
    NoReplyYet(w, id, s, v, open, results, log + {Reply(id, job.segment, job.source, answer)}, answer);
    MovedPaired(w, id, s, v, r, open, results[id := answer], log + {Reply(id, job.segment, job.source, answer)});
  }

  lemma {:induction false} NoReplyYet(w: World, id: string, s: Session, v: Sch.Slot, open: bool,
                                      results: map<string, Option<string>>, log: set<Reply>, answer: Option<string>)
    requires Paired(w, id, s, v, open, results, log) && v.active.Some? && v.active.value.phase == Sch.Requested
    ensures Paired(w, id, s, v, open, results[id := answer], log)
  {
    hide Sound, Linked, Disowned, Fitted, Answered;
  }

  lemma {:induction false} ReturnKeeps(ws: string -> World, p: State, id: string, answer: Option<string>)
    requires Inv(ws, p) && AllSound(ws, p) && id in p.scheduler.active && p.scheduler.active[id].phase == Sch.Requested
    ensures Inv(ws, Next(ws, p, Return(id, answer)))
  {
    hide Inv, AllSound, Sch.Inv, Paired, Sch.SlotOf, Moved, Same, PartOk, Next;
    var q := Next(ws, p, Return(id, answer));
    PartAt(ws, p, id);
    ReturnIs(ws, p, id, answer);
    Sch.ReturnKeeps(p.scheduler, id);
    ReturnPart(ws, p, q, id, Screened(ws(id), answer));
    StepAt(ws, p, q, id);
  }

  lemma {:induction false} PartAt(ws: string -> World, p: State, id: string)
    requires Inv(ws, p)
    ensures PartOk(ws, p, id) && Sch.Inv(p.scheduler)
  {
  }

  lemma {:induction false} ReturnIs(ws: string -> World, p: State, id: string, answer: Option<string>)
    requires AllSound(ws, p) && Sch.Inv(p.scheduler) && id in p.scheduler.active
        && p.scheduler.active[id].phase == Sch.Requested
    ensures var q := Next(ws, p, Return(id, answer));
            var v, r := Sch.SlotOf(p.scheduler, id), Sch.SlotOf(q.scheduler, id);
      && q.sessions == p.sessions && q.scheduler == Sch.Return(p.scheduler, id)
      && q.scheduler.closing == p.scheduler.closing
      && Moved(v, r) && v.active.Some? && r.active.Some? && v.active.value.phase == Sch.Requested
      && r.active.value.entry == v.active.value.entry
      && q.results == p.results[id := Screened(ws(id), answer)]
      && q.log == p.log + {Reply(id, v.active.value.entry.job.segment, v.active.value.entry.job.source,
                               Screened(ws(id), answer))}
      && forall other :: other != id ==> Same(p, q, other)
  {
    hide AllSound, Sch.Inv, Sch.Return, Moved;
    ReturnMoved(p.scheduler, id);
  }

  lemma {:induction false} ReturnPart(ws: string -> World, p: State, q: State, id: string, answer: Option<string>)
    requires PartOk(ws, p, id) && q.sessions == p.sessions && q.scheduler.closing == p.scheduler.closing
    requires var v, r := Sch.SlotOf(p.scheduler, id), Sch.SlotOf(q.scheduler, id);
      && Moved(v, r) && v.active.Some? && r.active.Some? && v.active.value.phase == Sch.Requested
      && r.active.value.entry == v.active.value.entry
      && q.results == p.results[id := answer]
      && q.log == p.log + {Reply(id, v.active.value.entry.job.segment, v.active.value.entry.job.source, answer)}
    ensures PartOk(ws, q, id)
  {
    hide Paired, Sch.SlotOf, Moved;
    KnownSession(ws, p, id);
    ReturnPaired(ws(id), id, p.sessions[id], Sch.SlotOf(p.scheduler, id), Sch.SlotOf(q.scheduler, id),
                 !p.scheduler.closing, p.results, p.log, answer);
  }

  lemma {:induction false} CallbackIs(ws: string -> World, p: State, id: string)
    requires AllSound(ws, p) && MayCall(p, id)
    ensures var v := Sch.SlotOf(p.scheduler, id);
      && v.active.Some? && v.active.value.phase == Sch.Calling && v.active == Some(p.scheduler.active[id])
      && Next(ws, p, Callback(id)) == Put(ws, p, id, Answer(id, v, p.results), Sch.CallbackDone(p.scheduler, id))
  {
    hide AllSound, Put, Sch.CallbackDone;
  }

  lemma {:induction false} CallbackStepKeeps(ws: string -> World, p: State, id: string)
    requires Inv(ws, p) && AllSound(ws, p) && MayCall(p, id)
    ensures Inv(ws, Next(ws, p, Callback(id)))
  {
    hide Inv, AllSound, Sch.Inv, Paired, Sch.SlotOf, Sch.CallbackDone, Perform, Put, Next, Answer;
    CallbackIs(ws, p, id);
    PairedAt(ws, p, id);
    Sch.CallbackKeeps(p.scheduler, id);
    CallbackSlots(p.scheduler, id);
    CallPaired(ws(id), id, p.sessions[id], Sch.SlotOf(p.scheduler, id), !p.scheduler.closing, p.results, p.log);
    PutKeeps(ws, p, id, Answer(id, Sch.SlotOf(p.scheduler, id), p.results), Sch.CallbackDone(p.scheduler, id));
  }

  lemma {:induction false} ShutdownKeeps(ws: string -> World, p: State)
    requires Inv(ws, p)
    ensures Inv(ws, p.(scheduler := Sch.Close(p.scheduler)))
  {
    hide Sch.Inv, Sound, Linked, Disowned, Answered, JobFits, Sch.SlotOf;
    Sch.CloseKeeps(p.scheduler);
    var q := p.(scheduler := Sch.Close(p.scheduler));
    forall id
      ensures PartOk(ws, q, id)
    {
      assert PartOk(ws, p, id);
      CloseSlots(p.scheduler, id);
    }
  }

  lemma {:induction false} NextKeeps(ws: string -> World, p: State, step: Step)
    requires Inv(ws, p)
    ensures AllSound(ws, p) && Inv(ws, Next(ws, p, step))
  {
    InvSound(ws, p);
    hide Inv, AllSound, Put, MayCall, Submission, NextReady;
    match step
    case Open(id) => if id !in p.sessions { OpenKeeps(ws, p, id); }
    case Act(id, a) => if id in p.sessions && Alone(a) { ActKeeps(ws, p, id, a); }
    case Invalidated(id, clock) =>
      if id in p.sessions && p.sessions[id].pc.RollingBack? { InvalidatedKeeps(ws, p, id, clock); }
    case Cancelled(id) =>
      if id in p.sessions && (p.sessions[id].pc.Detaching? || p.sessions[id].pc.Resetting?
                              || p.sessions[id].pc.Closing?) {
        CancelledKeeps(ws, p, id);
      }
    case Dispatches(id) =>
      if id in p.sessions && p.sessions[id].pc == Dispatching {
        NotQueuedKeeps(ws, p, id);
        if NextReady(p.sessions[id]).Some? && Submission(p, id).Ok? { QueuedKeeps(ws, p, id); }
      }
    case Take => TakeKeeps(ws, p);
    case Begin(id) => BeginKeeps(ws, p, id);
    case Return(id, answer) =>
      if id in p.scheduler.active && p.scheduler.active[id].phase == Sch.Requested { ReturnKeeps(ws, p, id, answer); }
    case Callback(id) => if MayCall(p, id) { CallbackStepKeeps(ws, p, id); }
    case Finish(id) => FinishKeeps(ws, p, id);
    case Shutdown => ShutdownKeeps(ws, p);
  }

  // -------- Whole runs

  ghost function Run(ws: string -> World, p: State, steps: seq<Step>): State
    requires Inv(ws, p)
    decreases |steps|
  {
    if steps == [] then p
    else NextKeeps(ws, p, steps[0]); Run(ws, Next(ws, p, steps[0]), steps[1..])
  }

  lemma {:induction false} InitialHolds(ws: string -> World, limits: Sch.Limits)
    requires forall id :: ws(id).settings.Valid()
    ensures Inv(ws, Initial(limits))
  {
    Sch.InitialHolds(limits);
  }

  /** Any interleaving of any sessions, workers and shutdown keeps the joint invariant. */
  lemma {:induction false} RunKeeps(ws: string -> World, p: State, steps: seq<Step>)
    requires Inv(ws, p)
    ensures Inv(ws, Run(ws, p, steps))
    decreases |steps|
  {
    hide Inv, Next;
    if steps != [] {
      NextKeeps(ws, p, steps[0]);
      RunKeeps(ws, Next(ws, p, steps[0]), steps[1..]);
    }
  }

  // -------- What the invariant means

  /** At most one live entry; it asks for this generation's source and revision of the
      one running segment, which is the active one. */
  ghost predicate OneOwner(s: Session, live: seq<Sch.Entry>) {
    && |live| <= 1
    && (forall g :: g in s.segments ==> Owner(s, live, g))
    && (live != [] ==> live[0].job.generation == s.generation && exists g :: g in s.segments && g.status == Running)
  }

  ghost predicate Owner(s: Session, live: seq<Sch.Entry>, g: Segment) {
    && (g.status == Running <==> s.active == Some(g.id))
    && (g.status == Running <==> live != [] && live[0].job.segment == g.id)
    && (g.status == Running ==>
          live[0].job.revision == g.revision && live[0].job.source == g.source && live[0].job.final == g.final)
  }

  lemma {:induction false} OwnedWhenOpen(ws: string -> World, p: State, id: string)
    requires Inv(ws, p) && !p.scheduler.closing && id in p.sessions
    requires !p.sessions[id].closed && p.sessions[id].pc in {Idle, Dispatching}
    ensures OneOwner(p.sessions[id], Live(Sch.SlotOf(p.scheduler, id)))
  {
    PairedAt(ws, p, id);
    hide Inv, Sch.Inv, Answered, HoldsReply, Disowned, Sound, Sch.SlotOf, Fitted, OneOwner;
    var s, v := p.sessions[id], Sch.SlotOf(p.scheduler, id);
    SoundRunning(ws(id), s);
    OwnedMeans(s, v);
  }

  lemma {:induction false} OwnedMeans(s: Session, v: Sch.Slot)
    requires RunningIsActive(s) && Fitted(s, v) && Owned(s, v)
    ensures OneOwner(s, Live(v))
  {
    LiveFits(s, v);
    hide Live, Fitted;
    if s.active.Some? {
      var g :| g in s.segments && g.id == s.active.value;
      assert Live(v)[0] in Live(v);
    }
  }

  lemma {:induction false} LiveFits(s: Session, v: Sch.Slot)
    requires Fitted(s, v)
    ensures forall e :: e in Live(v) ==> JobFits(s, e.job)
  {
    hide JobFits;
  }

  lemma {:induction false} CallbackReaches(ws: string -> World, p: State, id: string)
    requires Inv(ws, p) && !p.scheduler.closing && MayCall(p, id)
    ensures AllSound(ws, p)
    ensures Next(ws, p, Callback(id)).sessions == p.sessions <==> p.scheduler.active[id].stale
  {
    InvSound(ws, p);
    PairedAt(ws, p, id);
    hide Inv, AllSound, Sch.Inv, Answered, HoldsReply, Sound, Put, Next, Fitted, Linked, Disowned, Sch.SlotOf;
    CallbackIs(ws, p, id);
    var s, v := p.sessions[id], Sch.SlotOf(p.scheduler, id);
    AcceptsIffFresh(ws(id), s, v);
    CallIs(ws(id), id, s, v, p.results);
    ResultedIffAccepted(ws(id), s, v.active.value.entry.job, p.results[id]);
    PutIs(ws, p, id, Answer(id, v, p.results), Sch.CallbackDone(p.scheduler, id));
  }

  lemma {:induction false} PutIs(ws: string -> World, p: State, id: string, a: Action, t: Sch.State)
    requires AllSound(ws, p) && id in p.sessions
    ensures Put(ws, p, id, a, t).sessions == p.sessions <==> Perform(ws(id), p.sessions[id], a) == p.sessions[id]
  {
    assert Sound(ws(id), p.sessions[id]);
    hide AllSound, Perform, Sound;
    assert p.sessions[id := Perform(ws(id), p.sessions[id], a)][id] == Perform(ws(id), p.sessions[id], a);
  }

  lemma {:induction false} ResultedIffAccepted(w: World, s: Session, job: Sch.Job, answer: Option<string>)
    ensures Resulted(w, s, job.generation, job.segment, job.revision, answer) == s
       <==> !Accepts(s, job.generation, job.segment, job.revision)
  {
    if Accepts(s, job.generation, job.segment, job.revision) {
      assert Resulted(w, s, job.generation, job.segment, job.revision, answer).active.None?;
    }
  }

  // -------- Blank translations

  /** Nothing a worker passed on is blank. */
  ghost predicate NothingBlank(ws: string -> World, log: set<Reply>) {
    forall r :: r in log && r.answer.Some? ==> !Blank(ws(r.session).u, r.answer.value)
  }

  lemma {:induction false} NothingBlankKept(ws: string -> World, p: State, step: Step)
    requires AllSound(ws, p) && NothingBlank(ws, p.log)
    ensures NothingBlank(ws, Next(ws, p, step).log)
  {
    hide AllSound, Blank, Submission, MayCall, NextReady;
  }

  lemma {:induction false} RunNothingBlank(ws: string -> World, p: State, steps: seq<Step>)
    requires Inv(ws, p) && NothingBlank(ws, p.log)
    ensures NothingBlank(ws, Run(ws, p, steps).log)
    decreases |steps|
  {
    hide Inv, Next, NothingBlank;
    if steps != [] {
      NextKeeps(ws, p, steps[0]);
      NothingBlankKept(ws, p, steps[0]);
      RunNothingBlank(ws, Next(ws, p, steps[0]), steps[1..]);
    }
  }

  lemma {:induction false} FreshDispatches(ws: string -> World, q: State, id: string)
    requires Inv(ws, q) && NothingBlank(ws, q.log)
    requires !q.scheduler.closing && MayCall(q, id) && !q.scheduler.active[id].stale
    ensures AllSound(ws, q) && !Unproposable(ws(id), q.sessions[id], q.results[id])
    ensures Next(ws, q, Callback(id)).sessions[id].pc == Dispatching
  {
    InvSound(ws, q);
    PairedAt(ws, q, id);
    hide Inv, AllSound, Sch.Inv, Answered, Sound, Put, Next, Fitted, Linked, Disowned, Sch.SlotOf, Blank, Fails;
    CallbackIs(ws, q, id);
    var s, v := q.sessions[id], Sch.SlotOf(q.scheduler, id);
    AcceptsIffFresh(ws(id), s, v);
    CallIs(ws(id), id, s, v, q.results);
    var job := v.active.value.entry.job;
    assert Reply(id, job.segment, job.source, q.results[id]) in q.log;
    ResultedDispatches(ws(id), s, job, q.results[id]);
    PutAt(ws, q, id, Answer(id, v, q.results), Sch.CallbackDone(q.scheduler, id));
  }

  lemma {:induction false} ResultedDispatches(w: World, s: Session, job: Sch.Job, answer: Option<string>)
    requires Accepts(s, job.generation, job.segment, job.revision)
    requires answer.Some? ==> !Blank(w.u, answer.value)
    ensures !Unproposable(w, s, answer)
    ensures Resulted(w, s, job.generation, job.segment, job.revision, answer).pc == Dispatching
  {
    hide Blank;
  }

  lemma {:induction false} PutAt(ws: string -> World, p: State, id: string, a: Action, t: Sch.State)
    requires AllSound(ws, p) && id in p.sessions
    ensures Sound(ws(id), p.sessions[id])
    ensures Put(ws, p, id, a, t).sessions[id] == Perform(ws(id), p.sessions[id], a)
  {
    hide Perform, Sound;
  }

  lemma {:induction false} SourceIsSlice(w: World, s: Session, g: Segment)
    requires Sound(w, s) && g in s.segments
    ensures g.uid in s.utterances && g.start < g.end <= |s.utterances[g.uid].text|
    ensures g.source == s.utterances[g.uid].text[g.start..g.end]
  {
    hide Tiles, Tracked, Prefixed, Rested, Updating;
    assert UtteranceOk(w, s, g.uid);
    var v, mine := s.utterances[g.uid], Of(s.segments, g.uid);
    TilesSources(mine, v.text, 0, v.selectedEnd);
    TilesBounds(mine, v.text, 0, v.selectedEnd);
    assert g in mine;
  }

  // -------- Reachable states

  ghost predicate AllValid(ws: string -> World) {
    forall id :: ws(id).settings.Valid()
  }

  /** The state after any interleaving, from the opening of the scheduler. */
  ghost function Reached(ws: string -> World, limits: Sch.Limits, steps: seq<Step>): (p: State)
    requires AllValid(ws)
    ensures Inv(ws, p) && AllSound(ws, p)
  {
    InitialHolds(ws, limits);
    RunKeeps(ws, Initial(limits), steps);
    InvSound(ws, Run(ws, Initial(limits), steps));
    Run(ws, Initial(limits), steps)
  }

  /** While the scheduler and the session are open, and the session is not waiting for the
      scheduler: a segment is running exactly when it is the active one, and exactly when
      the one live entry is for it. */
  lemma {:induction false} RunningIffOwned(ws: string -> World, limits: Sch.Limits, steps: seq<Step>, id: string)
    requires AllValid(ws)
    requires var p := Reached(ws, limits, steps);
      && !p.scheduler.closing && id in p.sessions
      && !p.sessions[id].closed && p.sessions[id].pc in {Idle, Dispatching}
    ensures var p := Reached(ws, limits, steps); OneOwner(p.sessions[id], Live(Sch.SlotOf(p.scheduler, id)))
  {
    OwnedWhenOpen(ws, Reached(ws, limits, steps), id);
  }

  /** While the scheduler is open, running a callback changes its session exactly when its
      entry is not stale; a stale one changes no session at all. */
  lemma {:induction false} CallbackIffFresh(ws: string -> World, limits: Sch.Limits, steps: seq<Step>, id: string)
    requires AllValid(ws)
    requires var p := Reached(ws, limits, steps); !p.scheduler.closing && MayCall(p, id)
    ensures var p := Reached(ws, limits, steps);
      Next(ws, p, Callback(id)).sessions == p.sessions <==> p.scheduler.active[id].stale
  {
    hide Inv, Next;
    CallbackReaches(ws, Reached(ws, limits, steps), id);
  }

  /** No worker ever passes on a blank translation. */
  lemma {:induction false} RepliesNotBlank(ws: string -> World, limits: Sch.Limits, steps: seq<Step>)
    requires AllValid(ws)
    ensures NothingBlank(ws, Reached(ws, limits, steps).log)
  {
    InitialHolds(ws, limits);
    RunNothingBlank(ws, Initial(limits), steps);
  }

  /** The callback of a fresh entry returns, and goes on to dispatch: the translation it
      brings can always be proposed. */
  lemma {:induction false} CallbackDispatches(ws: string -> World, limits: Sch.Limits, steps: seq<Step>, id: string)
    requires AllValid(ws)
    requires var p := Reached(ws, limits, steps);
      !p.scheduler.closing && MayCall(p, id) && !p.scheduler.active[id].stale
    ensures var p := Reached(ws, limits, steps);
      && !Unproposable(ws(id), p.sessions[id], p.results[id])
      && Next(ws, p, Callback(id)).sessions[id].pc == Dispatching
  {
    hide Inv, Next, Unproposable;
    RepliesNotBlank(ws, limits, steps);
    FreshDispatches(ws, Reached(ws, limits, steps), id);
  }

  /** Dispatching never submits work the scheduler has outrun, so the only refusals a
      session sees are a full queue and a closed scheduler. */
  lemma {:induction false} DispatchNeverOutrun(ws: string -> World, limits: Sch.Limits, steps: seq<Step>, id: string)
    requires AllValid(ws)
    requires var p := Reached(ws, limits, steps); id in p.sessions && NextReady(p.sessions[id]).Some?
    ensures Submission(Reached(ws, limits, steps), id) != Err(Sch.StaleRevision)
  {
    var p := Reached(ws, limits, steps);
    PairedAt(ws, p, id);
    NeverOutrun(id, p.sessions[id], p.scheduler);
  }

  /** The first ready segment, of a connected session with nothing running. */
  ghost predicate IsNext(s: Session, i: nat) {
    && i < |s.segments| && s.segments[i].status == Ready && (forall k :: 0 <= k < i ==> s.segments[k].status != Ready)
    && s.connected && !s.closed && s.active == None
  }

  /** While the scheduler is open and has room for it, dispatching queues exactly the job of
      the first ready segment, and that segment is running. */
  lemma {:induction false} DispatchQueues(ws: string -> World, limits: Sch.Limits, steps: seq<Step>, id: string, i: nat)
    requires AllValid(ws)
    requires var p := Reached(ws, limits, steps);
      && id in p.sessions && p.sessions[id].pc == Dispatching && IsNext(p.sessions[id], i) && !p.scheduler.closing
      && var t := Sch.Admitted(p.scheduler, JobOf(id, p.sessions[id], i));
         Sch.PendingCount(t.pending) <= p.scheduler.limits.maxPending
         && |Sch.Queue(t, id)| <= p.scheduler.limits.maxPerSession
    ensures var p := Reached(ws, limits, steps); var q := Next(ws, p, Dispatches(id));
      && id in q.sessions && q.sessions[id].segments
                             == p.sessions[id].segments[i := p.sessions[id].segments[i].(status := Running)]
      && exists e :: e in Sch.Queue(q.scheduler, id) && e.job == JobOf(id, p.sessions[id], i)
  {
    var p := Reached(ws, limits, steps);
    var s, job := p.sessions[id], JobOf(id, p.sessions[id], i);
    NextIs(s, i);
    DispatchNeverOutrun(ws, limits, steps, id);
    Sch.SubmittedIff(p.scheduler, job);
    hide Inv, Reached, Sch.Admitted, Sch.PendingCount, Sch.NewerIsLive;
    QueuesJob(p.scheduler, job);
    DispatchRuns(ws, p, id, i);
  }

  lemma {:induction false} NextIs(s: Session, i: nat)
    requires IsNext(s, i)
    ensures NextReady(s) == Some(i)
  {
    assert FirstReady(s.segments) == i;
  }

  lemma {:induction false} QueuesJob(s: Sch.State, job: Sch.Job)
    ensures exists e :: e in Sch.Queue(Sch.Admitted(s, job), job.session) && e.job == job
  {
    Sch.AdmittedQueue(s, job);
    var e := Sch.Entry(s.nextId, job);
    Sch.CoalesceHolds(Sch.Queue(s, job.session), e, false);
    hide Sch.Admitted, Sch.Coalesce, Sch.PendingCount;
    assert e in Sch.Queue(Sch.Admitted(s, job), job.session);
  }

  lemma {:induction false} DispatchRuns(ws: string -> World, p: State, id: string, i: nat)
    requires AllSound(ws, p) && id in p.sessions && p.sessions[id].pc == Dispatching
    requires NextReady(p.sessions[id]) == Some(i) && i < |p.sessions[id].segments|
    requires Sch.Submitted(p.scheduler, JobOf(id, p.sessions[id], i)).Ok?
    ensures var q := Next(ws, p, Dispatches(id));
      && id in q.sessions && q.scheduler == Sch.Submitted(p.scheduler, JobOf(id, p.sessions[id], i)).value
      && q.sessions[id].segments == p.sessions[id].segments[i := p.sessions[id].segments[i].(status := Running)]
  {
    hide Sound, Sch.Submitted, NextReady;
  }

  /** Each translation is what the backend answered for exactly the text its segment covers
      now. */
  lemma {:induction false} TranslationsCurrent(ws: string -> World, limits: Sch.Limits, steps: seq<Step>, id: string,
                                               g: Segment)
    requires AllValid(ws)
    requires var p := Reached(ws, limits, steps); id in p.sessions && g in p.sessions[id].segments
    requires g.status == Complete || g.translation != ""
    ensures var p := Reached(ws, limits, steps); var s := p.sessions[id];
      && Reply(id, g.id, g.source, Some(g.translation)) in p.log
      && g.uid in s.utterances && g.start < g.end <= |s.utterances[g.uid].text|
      && g.source == s.utterances[g.uid].text[g.start..g.end]
  {
    var p := Reached(ws, limits, steps);
    hide Inv, Reached, AllSound, Linked, Disowned, Fitted;
    PairedAt(ws, p, id);
    SourceIsSlice(ws(id), p.sessions[id], g);
  }
}
