/** The scheduler's own loops and assignments, each proved to be its step. */
module SchedulerClass {
  import opened Wrappers
  import opened Scheduler

  /** Whether any queued entry of the job's segment carries a later revision. */
  method AnyOutdated(queue: seq<Entry>, job: Job) returns (found: bool)
    ensures found <==> exists e :: e in queue && Outdated(e, job)
  {
    for k := 0 to |queue|
      invariant forall j :: 0 <= j < k ==> !Outdated(queue[j], job)
    {
      if Outdated(queue[k], job) {
        assert queue[k] in queue;
        return true;
      }
    }
    return false;
  }

  method FindReplacements(queue: seq<Entry>, job: Job) returns (found: seq<nat>)
    ensures |found| == |Replaced(queue, job)|
    ensures forall k: nat :: k in found <==> k < |queue| && Replaceable(queue[k], job)
    ensures found != [] ==> forall k :: 0 <= k < found[0] && k < |queue| ==> !Replaceable(queue[k], job)
  {
    found := [];
    for k := 0 to |queue|
      invariant |found| + |Replaced(queue[k..], job)| == |Replaced(queue, job)|
      invariant forall j: nat :: j in found <==> j < k && Replaceable(queue[j], job)
      invariant found != [] ==> forall j :: 0 <= j < found[0] && j < |queue| ==> !Replaceable(queue[j], job)
    {
      if Replaceable(queue[k], job) {
        found := found + [k];
      }
    }
  }

  /** The queue with the entry at the first replaced index, or at the end. */
  method Rebuild(queue: seq<Entry>, entry: Entry, replacements: seq<nat>) returns (rebuilt: seq<Entry>)
    requires forall k: nat :: k in replacements <==> k < |queue| && Replaceable(queue[k], entry.job)
    requires replacements != [] ==>
      forall k :: 0 <= k < replacements[0] && k < |queue| ==> !Replaceable(queue[k], entry.job)
    ensures rebuilt == Coalesce(queue, entry, false)
  {
    if replacements == [] {
      NothingReplaced(queue, entry, 0);
      return queue + [entry];
    }
    hide Replaceable;
    rebuilt := [];
    ghost var first := replacements[0];
    assert first in replacements;
    for k := 0 to |queue|
      invariant rebuilt + Coalesce(queue[k..], entry, first < k) == Coalesce(queue, entry, false)
    {
      assert queue[k..][1..] == queue[k + 1..];
      if k !in replacements {
        rebuilt := rebuilt + [queue[k]];
      } else if k == replacements[0] {
        rebuilt := rebuilt + [entry];
      }
    }
  }

  lemma {:induction false} NothingReplaced(queue: seq<Entry>, entry: Entry, from: nat)
    requires from <= |queue| && forall k :: 0 <= k < |queue| ==> !Replaceable(queue[k], entry.job)
    ensures Coalesce(queue[from..], entry, false) == queue[from..] + [entry]
    decreases |queue| - from
  {
    if from < |queue| {
      NothingReplaced(queue, entry, from + 1);
    }
  }

  method KeepOutside(queue: seq<Entry>, segments: set<nat>) returns (rest: seq<Entry>)
    ensures rest == Outside(queue, segments)
  {
    rest := [];
    for k := 0 to |queue|
      invariant rest + Outside(queue[k..], segments) == Outside(queue, segments)
    {
      if queue[k].job.segment !in segments {
        rest := rest + [queue[k]];
      }
    }
  }

  method CountPending(pending: map<string, seq<Entry>>) returns (n: nat)
    ensures n == PendingCount(pending)
  {
    n := 0;
    var left := pending;
    while left != map[]
      invariant n + PendingCount(left) == PendingCount(pending)
      decreases |left|
    {
      var sid :| sid in left;
      PendingAt(left, sid);
      n := n + |left[sid]|;
      left := left - {sid};
    }
  }

  class TranslationScheduler {
    const limits: Limits
    var pending: map<string, seq<Entry>>
    var ready: seq<string>
    var readySet: set<string>
    var active: map<string, Active>
    var idle: nat
    var closing: bool
    var nextId: nat
    ghost var ledger: map<nat, Place>

    ghost function State(): State
      reads this
    {
      Scheduler.State.State(limits, pending, ready, readySet, active, idle, closing, nextId, ledger)
    }

    constructor (limits: Limits)
      requires 1 <= limits.workers <= 64 && limits.maxPending >= 1 && limits.maxPerSession >= 1
      ensures State() == Initial(limits)
    {
      this.limits := limits;
      pending, ready, readySet, active := map[], [], {}, map[];
      idle, closing, nextId, ledger := limits.workers, false, 0, map[];
    }

    method MarkReady(sid: string)
      modifies this`ready, this`readySet
      ensures State() == Scheduler.MarkReady(old(State()), sid)
    {
      if sid in pending && pending[sid] != [] && sid !in active && sid !in readySet && !closing {
        ready := ready + [sid];
        readySet := readySet + {sid};
      }
    }

    method ForgetReady(sid: string)
      modifies this`ready, this`readySet
      ensures State() == Scheduler.ForgetReady(old(State()), sid)
    {
      readySet := readySet - {sid};
      var kept := [];
      for k := 0 to |ready|
        invariant kept + Removing(ready[k..], sid) == Removing(ready, sid)
        invariant ready == old(ready) && readySet == old(readySet) - {sid}
      {
        if ready[k] != sid { kept := kept + [ready[k]]; }
      }
      ready := kept;
    }

    /** Marks the active entry stale; its request may go on ignoring that. */
    method CancelActive(sid: string)
      requires sid in active
      modifies this`active
      ensures active == old(active)[sid := old(active)[sid].(stale := true)]
    {
      if !active[sid].stale {
        active := active[sid := active[sid].(stale := true)];
      }
    }

    method Submit(job: Job) returns (r: Result<nat, Error>)
      modifies this
      ensures match Submitted(old(State()), job)
              case Ok(t) => State() == t && r == Ok(old(nextId))
              case Err(e) => State() == old(State()) && r == Err(e)
    {
      if closing { return Err(Closed); }
      var sid := job.session;
      var queue := if sid in pending then pending[sid] else [];
      var outdated := AnyOutdated(queue, job);
      if outdated || (sid in active && !active[sid].stale && Outdated(active[sid].entry, job)) {
        return Err(StaleRevision);
      }
      var replacements := FindReplacements(queue, job);
      var count := CountPending(pending);
      if count - |replacements| + 1 > limits.maxPending || |queue| - |replacements| + 1 > limits.maxPerSession {
        return Err(QueueFull);
      }
      Admit(job, queue, replacements);
      return Ok(nextId - 1);
    }

    method Admit(job: Job, queue: seq<Entry>, replacements: seq<nat>)
      requires queue == Queue(State(), job.session)
      requires forall k: nat :: k in replacements <==> k < |queue| && Replaceable(queue[k], job)
      requires replacements != [] ==>
                 forall k :: 0 <= k < replacements[0] && k < |queue| ==> !Replaceable(queue[k], job)
      modifies this
      ensures State() == Admitted(old(State()), job) && nextId == old(nextId) + 1
    {
      var rebuilt := Rebuild(queue, Entry(nextId, job), replacements);
      CoalesceHolds(queue, Entry(nextId, job), false);
      assert Entry(nextId, job) in rebuilt;
      Enqueue(job, rebuilt);
      MarkReady(job.session);
    }

    method Enqueue(job: Job, rebuilt: seq<Entry>)
      requires rebuilt == Coalesce(Queue(State(), job.session), Entry(nextId, job), false) != []
      modifies this`pending, this`active, this`nextId, this`ledger
      ensures var s := old(State());
        State() == Edit(s, job.session, Accept(s, job), AcceptLedger(s, job), s.idle, s.nextId + 1)
    {
      ledger := AcceptLedger(State(), job);
      pending := pending[job.session := rebuilt];
      Supersede(job);
      nextId := nextId + 1;
    }

    /** A newer revision cancels a speculative request, never a final one. */
    method Supersede(job: Job)
      modifies this`active
      ensures active == PutActive(old(active), job.session,
                                  if Superseded(old(State()), job) then Stale(SlotOf(old(State()), job.session).active)
                                  else SlotOf(old(State()), job.session).active)
    {
      var sid := job.session;
      if sid in active && !active[sid].entry.job.final && Same(active[sid].entry.job, job)
         && active[sid].entry.job.revision <= job.revision {
        CancelActive(sid);
      }
    }

    method CancelSession(sid: string)
      modifies this
      ensures State() == Scheduler.CancelSession(old(State()), sid)
    {
      ghost var s := State();
      ledger := Settle(ledger, Ids(Queue(s, sid)) - Ids([]), Discarded);
      pending := pending - {sid};
      ForgetReady(sid);
      if sid in active {
        CancelActive(sid);
      }
      CancelIs(s, sid, Slot([], Stale(SlotOf(s, sid).active)), ledger);
      assert active == PutActive(s.active, sid, Stale(SlotOf(s, sid).active));
    }

    method Invalidate(sid: string, segments: set<nat>)
      modifies this
      ensures State() == Scheduler.Invalidate(old(State()), sid, segments)
    {
      ghost var s := State();
      ghost var v := Spare(SlotOf(s, sid), segments);
      ledger := Settle(ledger, Ids(Queue(s, sid)) - Ids(v.queue), Discarded);
      InvalidateIs(s, sid, segments, v, ledger);
      if sid in pending {
        var remaining := KeepOutside(pending[sid], segments);
        if remaining != [] {
          pending := pending[sid := remaining];
        } else {
          pending := pending - {sid};
          ForgetReady(sid);
        }
      }
      if sid in active && active[sid].entry.job.segment in segments {
        CancelActive(sid);
      }
      assert pending == PutQueue(s.pending, sid, v.queue);
      assert active == PutActive(s.active, sid, v.active);
    }

    /** One worker's attempt to take work; none is left when the deque runs dry. */
    method Take() returns (taken: Option<Entry>)
      modifies this
      ensures State() == Scheduler.Take(old(State()))
    {
      ghost var s := State();
      taken := None;
      if closing || idle == 0 { return; }
      while ready != []
        invariant Scheduler.Take(State()) == Scheduler.Take(s) && !closing && idle > 0
        decreases |ready|
      {
        var sid := ready[0];
        ready := ready[1..];
        readySet := readySet - {sid};
        var queue := if sid in pending then pending[sid] else [];
        if queue == [] || sid in active { continue; }
        Start(sid, queue);
        return Some(queue[0]);
      }
    }

    method Start(sid: string, queue: seq<Entry>)
      requires queue == Queue(State(), sid) != [] && idle > 0
      modifies this`pending, this`active, this`idle, this`ledger
      ensures State() == Occupy(old(State()), sid)
    {
      ledger := ledger[queue[0].id := Running(sid)];
      pending := if |queue| == 1 then pending - {sid} else pending[sid := queue[1..]];
      active := active[sid := Active(queue[0], false, Taken)];
      idle := idle - 1;
    }

    /** The first half of an execution: a stale entry is dropped before any request. */
    method Begin(sid: string) returns (requested: bool)
      requires sid in active && active[sid].phase == Taken
      modifies this`active, this`ledger
      ensures State() == Scheduler.Begin(old(State()), sid)
      ensures requested <==> !old(active)[sid].stale
    {
      ghost var s := State();
      requested := !active[sid].stale;
      if requested {
        active := active[sid := active[sid].(phase := Requested)];
      } else {
        ledger := ledger[active[sid].entry.id := Discarded];
        active := active[sid := active[sid].(phase := Done)];
      }
    }

    /** The request returned: its callback starts unless the entry went stale meanwhile. */
    method Return(sid: string) returns (callback: bool)
      requires sid in active && active[sid].phase == Requested
      modifies this`active, this`ledger
      ensures State() == Scheduler.Return(old(State()), sid)
      ensures callback <==> !old(active)[sid].stale && !closing
    {
      ghost var s := State();
      callback := !active[sid].stale && !closing;
      ledger := ledger[active[sid].entry.id := if callback then Delivered else Discarded];
      active := active[sid := active[sid].(phase := if callback then Calling else Done)];
    }

    method Finish(sid: string)
      requires sid in active && active[sid].phase == Done
      modifies this`active, this`idle, this`ready, this`readySet
      ensures State() == Scheduler.Finish(old(State()), sid)
    {
      ghost var s := State();
      active := active - {sid};
      idle := idle + 1;
      MarkReady(sid);
    }

    method Close()
      modifies this
      ensures State() == Scheduler.Close(old(State()))
    {
      ledger := Scheduler.Close(State()).ledger;
      closing, pending, ready, readySet := true, map[], [], {};
      CancelAll();
    }

    method CancelAll()
      modifies this`active
      ensures active == AllStale(old(active))
    {
      var left := active.Keys;
      while left != {}
        invariant left <= active.Keys == old(active).Keys
        invariant forall sid :: sid in active ==>
                    active[sid] == if sid in left then old(active)[sid] else old(active)[sid].(stale := true)
        decreases |left|
      {
        var sid :| sid in left;
        CancelActive(sid);
        left := left - {sid};
      }
      assert active == AllStale(old(active));
    }
  }
}
