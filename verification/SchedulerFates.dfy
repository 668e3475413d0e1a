/** The exact fate of every accepted request (app/translation/scheduler.py). */
module SchedulerFates {
  import opened Wrappers
  import opened Scheduler

  /** The job is queued under `id`, or its request is not back yet. */
  ghost predicate Awaits(s: State, sid: string, id: nat, job: Job) {
    id in s.ledger && (InQueue(s, sid, id, job) || UnderWay(s, sid, id, job))
  }

  ghost predicate InQueue(s: State, sid: string, id: nat, job: Job) {
    Entry(id, job) in Queue(s, sid)
  }

  ghost predicate UnderWay(s: State, sid: string, id: nat, job: Job) {
    sid in s.active && s.active[sid].entry == Entry(id, job) && s.active[sid].phase in {Taken, Requested}
  }

  /** The steps that take a request back: a later job of the same segment unless the request
      is final, a cancellation of its session, an invalidation of its segment, the end. */
  ghost predicate Withdraws(s: State, step: Step, sid: string, job: Job) {
    match step
    case DoSubmit(later) =>
      Submitted(s, later).Ok? && !job.final && Same(job, later) && job.revision <= later.revision
    case DoCancel(other) => other == sid
    case DoInvalidate(other, segments) => other == sid && job.segment in segments
    case DoClose => true
    case _ => false
  }

  /** Where a request that awaits its turn or its answer stands. */
  lemma {:induction false} Stands(s: State, sid: string, id: nat, job: Job)
    requires Inv(s) && Awaits(s, sid, id, job)
    ensures job.session == sid
    ensures InQueue(s, sid, id, job) ==>
      s.ledger[id] == Queued(sid) && id in Ids(Queue(s, sid)) && !Doomed(s, id) && !s.closing
      && forall e :: e in Queue(s, sid) && e.id == id ==> e == Entry(id, job)
    ensures UnderWay(s, sid, id, job) ==>
      s.ledger[id] == Running(sid) && id !in Ids(Queue(s, sid))
      && (Doomed(s, id) <==> s.active[sid].stale) && (s.closing ==> s.active[sid].stale)
    ensures forall other :: other != sid ==>
      id !in Ids(Queue(s, other)) && (other in s.active && s.active[other].phase in {Taken, Requested} ==>
                                        s.active[other].entry.id != id)
  {
    assert SessionOk(s, sid);
    forall other | other != sid
      ensures id !in Ids(Queue(s, other)) && (other in s.active && s.active[other].phase in {Taken, Requested} ==>
                                                s.active[other].entry.id != id)
    {
      assert SessionOk(s, other);
    }
    if InQueue(s, sid, id, job) {
      var q := Queue(s, sid);
      forall e | e in q && e.id == id
        ensures e == Entry(id, job)
      {
        var i :| 0 <= i < |q| && q[i] == e;
        var j :| 0 <= j < |q| && q[j] == Entry(id, job);
        assert i < j || j < i || i == j;
      }
    }
  }

  /** What a step leaves of a request, read from its slot and the ledger. */
  lemma {:induction false} Fallen(t: State, sid: string, id: nat, job: Job, v: Slot)
    requires SlotOf(t, sid) == v && id in t.ledger
    ensures Entry(id, job) in v.queue && t.ledger[id] == Queued(sid) ==>
      Awaits(t, sid, id, job) && !Doomed(t, id)
    ensures v.active.Some? && v.active.value.entry == Entry(id, job) && v.active.value.phase in {Taken, Requested}
            && t.ledger[id] == Running(sid) ==>
      Awaits(t, sid, id, job) && (Doomed(t, id) <==> v.active.value.stale)
    ensures t.ledger[id] in {Discarded, Coalesced} ==> Doomed(t, id)
  {
  }

  lemma {:induction false} CancelFate(s: State, whose: string, sid: string, id: nat, job: Job)
    requires Inv(s) && Awaits(s, sid, id, job) && !Doomed(s, id)
    ensures var t := CancelSession(s, whose);
      if whose == sid then Doomed(t, id) else Awaits(t, sid, id, job) && !Doomed(t, id)
  {
    hide Inv, Doomed, Settle, CancelSession;
    var v := Slot([], Stale(SlotOf(s, whose).active));
    var ledger := Settle(s.ledger, Ids(Queue(s, whose)) - Ids(v.queue), Discarded);
    CancelIs(s, whose, v, ledger);
    EditIs(s, whose, v, ledger, s.idle, s.nextId);
    Stands(s, sid, id, job);
    var t := CancelSession(s, whose);
    Fallen(t, sid, id, job, SlotOf(t, sid));
  }

  lemma {:induction false} InvalidateFate(s: State, whose: string, segments: set<nat>, sid: string, id: nat, job: Job)
    requires Inv(s) && Awaits(s, sid, id, job) && !Doomed(s, id)
    ensures var t := Invalidate(s, whose, segments);
      if whose == sid && job.segment in segments then Doomed(t, id) else Awaits(t, sid, id, job) && !Doomed(t, id)
  {
    hide Inv, Doomed, Settle, Outside, Invalidate;
    var v := Spare(SlotOf(s, whose), segments);
    var ledger := Settle(s.ledger, Ids(Queue(s, whose)) - Ids(v.queue), Discarded);
    InvalidateIs(s, whose, segments, v, ledger);
    EditIs(s, whose, v, ledger, s.idle, s.nextId);
    OutsideHolds(Queue(s, whose), segments);
    Stands(s, sid, id, job);
    var t := Invalidate(s, whose, segments);
    Fallen(t, sid, id, job, SlotOf(t, sid));
  }

  lemma {:induction false} SubmitFate(s: State, later: Job, sid: string, id: nat, job: Job)
    requires Inv(s) && Awaits(s, sid, id, job) && !Doomed(s, id)
    ensures var t := Apply(s, DoSubmit(later));
      if Withdraws(s, DoSubmit(later), sid, job) then Doomed(t, id) else Awaits(t, sid, id, job) && !Doomed(t, id)
  {
    if Submitted(s, later).Ok? {
      hide Inv, Doomed, Outrun, Overflows, Admitted;
      Stands(s, sid, id, job);
      AdmittedSlot(s, later, sid);
      AdmittedPlace(s, later, id);
      CoalesceHolds(Queue(s, later.session), Entry(s.nextId, later), false);
      hide Coalesce, AcceptLedger;
      assert id in Ids(Queue(s, sid)) <==> InQueue(s, sid, id, job);
      var t := Admitted(s, later);
      Fallen(t, sid, id, job, SlotOf(t, sid));
    }
  }

  /** Where admission leaves an earlier request in the ledger. */
  lemma {:induction false} AdmittedPlace(s: State, later: Job, id: nat)
    requires id in s.ledger
    ensures var t := Admitted(s, later);
      && id in t.ledger
      && (id != s.nextId ==>
            t.ledger[id] == if id in Ids(Queue(s, later.session)) && id !in Ids(Accept(s, later).queue) then Coalesced
                            else s.ledger[id])
  {
    AdmittedIs(s, later);
    hide Accept, PutQueue, PutActive, Ids;
  }

  lemma {:induction false} TakeFate(s: State, sid: string, id: nat, job: Job)
    requires Inv(s) && Awaits(s, sid, id, job) && !Doomed(s, id)
    ensures Awaits(Take(s), sid, id, job) && !Doomed(Take(s), id)
  {
    if !s.closing && s.idle > 0 && s.ready != [] {
      TakeIs(s);
      Stands(s, sid, id, job);
      var whose := s.ready[0];
      var q := Queue(s, whose);
      var v, ledger := Slot(q[1..], Some(Active(q[0], false, Taken))), s.ledger[q[0].id := Running(whose)];
      OccupyIs(s, whose, v, ledger);
      EditIs(s, whose, v, ledger, s.idle - 1, s.nextId);
      assert q == [q[0]] + q[1..];
      var t := Take(s);
      Fallen(t, sid, id, job, SlotOf(t, sid));
      hide Inv, Doomed, Take;
    }
  }

  lemma {:induction false} WorkFate(s: State, step: Step, sid: string, id: nat, job: Job)
    requires Inv(s) && Awaits(s, sid, id, job) && !Doomed(s, id)
    requires step.DoBegin? || step.DoReturn? || step.DoCallback? || step.DoFinish?
    ensures var t := Apply(s, step);
      if step == DoReturn(sid) && LiveRequest(s, id) then id in t.ledger && t.ledger[id] == Delivered
      else Awaits(t, sid, id, job) && !Doomed(t, id)
  {
    Stands(s, sid, id, job);
    assert SessionOk(s, step.session);
    hide Inv, Doomed, Begin, Return, CallbackDone, Finish, MarkReady, Ids;
    var t := Apply(s, step);
    WorkSlot(s, step, sid);
    Fallen(t, sid, id, job, SlotOf(t, sid));
  }

  /** What a worker does to a slot. */
  lemma {:induction false} WorkSlot(s: State, step: Step, sid: string)
    requires step.DoBegin? || step.DoReturn? || step.DoCallback? || step.DoFinish?
    ensures var t := Apply(s, step);
      && SlotOf(t, sid).queue == Queue(s, sid)
      && (step.session != sid || sid !in s.active ==> SlotOf(t, sid) == SlotOf(s, sid))
  {
  }

  lemma {:induction false} CloseFate(s: State, sid: string, id: nat, job: Job)
    requires Inv(s) && Awaits(s, sid, id, job)
    ensures Doomed(Close(s), id)
  {
    Stands(s, sid, id, job);
    CloseDooms(s, id);
  }

  /** Of the requests that await their turn or their answer, a step dooms exactly those it
      withdraws; the return of a live one delivers it, and nothing else happens to any. */
  lemma {:induction false} StepFate(s: State, step: Step, sid: string, id: nat, job: Job)
    requires Inv(s) && Awaits(s, sid, id, job) && !Doomed(s, id)
    ensures var t := Apply(s, step);
      if Withdraws(s, step, sid, job) then Doomed(t, id)
      else if step == DoReturn(sid) && LiveRequest(s, id) then id in t.ledger && t.ledger[id] == Delivered
      else Awaits(t, sid, id, job) && !Doomed(t, id)
  {
    match step
    case DoSubmit(later) => SubmitFate(s, later, sid, id, job);
    case DoCancel(whose) => CancelFate(s, whose, sid, id, job);
    case DoInvalidate(whose, segments) => InvalidateFate(s, whose, segments, sid, id, job);
    case DoTake => TakeFate(s, sid, id, job);
    case DoClose => CloseFate(s, sid, id, job);
    case _ => WorkFate(s, step, sid, id, job);
    hide Inv, Doomed, Awaits, LiveRequest, Submitted, CancelSession, Invalidate, Take, Close, Begin, Return,
      CallbackDone, Finish;
  }

  /** Some step of the run withdraws the request before it is delivered. */
  ghost predicate WithdrawnIn(s: State, steps: seq<Step>, sid: string, id: nat, job: Job)
    decreases |steps|
  {
    && steps != [] && Awaits(s, sid, id, job)
    && (Withdraws(s, steps[0], sid, job) || WithdrawnIn(Apply(s, steps[0]), steps[1..], sid, id, job))
  }

  /** Over any run a request is doomed exactly if some step withdrew it in time; otherwise
      it has been delivered or still awaits its turn or its answer. */
  lemma {:induction false} RunFate(s: State, steps: seq<Step>, sid: string, id: nat, job: Job)
    requires Inv(s) && Awaits(s, sid, id, job) && !Doomed(s, id)
    ensures var t := Run(s, steps);
      && id in t.ledger && (Doomed(t, id) <==> WithdrawnIn(s, steps, sid, id, job))
      && (!Doomed(t, id) ==> (t.ledger[id] == Delivered <==> !Awaits(t, sid, id, job)))
    decreases |steps|
  {
    if steps == [] {
      Stands(s, sid, id, job);
    } else {
      var n := Apply(s, steps[0]);
      StepKeeps(s, steps[0]);
      StepFate(s, steps[0], sid, id, job);
      hide Inv, Apply, Withdraws, LiveRequest;
      if Awaits(n, sid, id, job) && !Doomed(n, id) {
        RunFate(n, steps[1..], sid, id, job);
      } else {
        RunStands(n, steps[1..], sid, id, job);
      }
    }
  }

  /** The delivered and the doomed stay what they are. */
  lemma {:induction false} RunStands(s: State, steps: seq<Step>, sid: string, id: nat, job: Job)
    requires Inv(s) && id in s.ledger && (Doomed(s, id) || s.ledger[id] == Delivered)
    ensures var t := Run(s, steps);
      && id in t.ledger && (Doomed(s, id) ==> Doomed(t, id))
      && (s.ledger[id] == Delivered ==> t.ledger[id] == Delivered && !Doomed(t, id) && !Awaits(t, sid, id, job))
    ensures s.ledger[id] == Delivered ==> !Awaits(s, sid, id, job)
    decreases |steps|
  {
    if s.ledger[id] == Delivered && Awaits(s, sid, id, job) { Stands(s, sid, id, job); }
    if steps != [] {
      StepKeeps(s, steps[0]);
      StepFates(s, steps[0]);
      assert FateOf(s, Apply(s, steps[0]), id);
      hide Inv, Apply, Awaits, LiveRequest;
      RunStands(Apply(s, steps[0]), steps[1..], sid, id, job);
    }
  }
}
