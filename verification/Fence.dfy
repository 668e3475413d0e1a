/** Retiring a gateway session (gateway_server.py): the fence that counts native calls on
    worker threads, and the lease that outlives them. Each step is one section under the
    fence's lock or one turn of the event loop; threads interleave freely. */
module Fence {
  import opened Wrappers

  datatype Fence = Fence(open: bool, active: int, resolved: bool, scheduled: nat)

  /** Leaving: the call has given back its count; `last` if it must wake the waiter. */
  datatype Phase = Queued | Running | Leaving(last: bool) | Ended | Rejected

  datatype Call = Call(fence: nat, phase: Phase)

  /** Closed: admission has ended; `idle` if the closer itself must wake the waiter. */
  datatype Stage = Serving | Closed(idle: bool) | Cleaning | Waiting | Resetting

  datatype Lease = Lease(fence: nat, stage: Stage)

  datatype State = State(
    fences: map<nat, Fence>, nextFence: nat, calls: map<nat, Call>, lease: Option<Lease>, blocked: bool)

  const Idle := State(map[], 0, map[], None, false)

  function Opened(): Fence {
    Fence(true, 0, false, 0)
  }

  // -------- The fence's own sections

  /** A wrapper that starts after the fence closed never runs its function. */
  function Enter(f: Fence): (Fence, bool) {
    if f.open then (f.(active := f.active + 1), true) else (f, false)
  }

  /** The last call out of a closed fence must wake the waiter. */
  function Leave(f: Fence): (Fence, bool) {
    (f.(active := f.active - 1), !f.open && f.active == 1)
  }

  function Shut(f: Fence): (Fence, bool) {
    (f.(open := false), f.active == 0)
  }

  class NativeCallFence {
    var open: bool
    var active: int
    var resolved: bool
    var scheduled: nat
    /** The calls between their two sections, that is, the functions under way. */
    ghost var inside: set<nat>

    function State(): Fence
      reads this
    {
      Fence(open, active, resolved, scheduled)
    }

    /** The count is exact, and nothing runs under a resolved fence. */
    ghost predicate Valid()
      reads this
    {
      active == |inside| && (resolved ==> !open && inside == {})
    }

    constructor ()
      ensures Valid() && State() == Opened() && inside == {}
    {
      open, active, resolved, scheduled := true, 0, false, 0;
      inside := {};
    }

    /** A call runs its function if and only if the fence had not closed. */
    method Begin(ghost call: nat) returns (admitted: bool)
      requires Valid() && call !in inside
      modifies this`active, this`inside
      ensures Valid() && (State(), admitted) == Enter(old(State()))
      ensures admitted == open && inside == if admitted then old(inside) + {call} else old(inside)
    {
      if !open { return false; }
      active := active + 1;
      inside := inside + {call};
      return true;
    }

    /** The call must wake the waiter exactly when it was the last inside a closed fence. */
    method End(ghost call: nat) returns (drained: bool)
      requires Valid() && call in inside
      modifies this`active, this`inside
      ensures Valid() && inside == old(inside) - {call}
      ensures drained <==> !open && inside == {}
      ensures (State(), drained) == Leave(old(State()))
    {
      assert |inside| == |inside - {call}| + 1;
      active := active - 1;
      inside := inside - {call};
      return !open && active == 0;
    }

    /** No call is admitted any more; the closer itself must wake the waiter exactly when
        nobody is inside. */
    method Close() returns (drained: bool)
      requires Valid()
      modifies this`open
      ensures Valid() && !open && inside == old(inside)
      ensures drained <==> inside == {}
      ensures (State(), drained) == Shut(old(State()))
    {
      open := false;
      return active == 0;
    }

    /** Whoever was told the fence has drained may resolve it, however often. */
    method Resolve()
      requires Valid() && !open && inside == {}
      modifies this`resolved
      ensures Valid() && State() == old(State()).(resolved := true)
    {
      if !resolved { resolved := true; }
    }
  }

  // -------- Steps of the whole

  datatype Step =
    | OpenSession
    | Spawn(call: nat, fence: nat)      // the executor got a wrapper for this fence
    | Begin(call: nat)
    | End(call: nat)
    | Signal(call: nat)                 // after the lock: wake the waiter if last
    | Resolve(fence: nat)               // the event loop runs a scheduled wake-up
    | CloseFence
    | AfterClose                        // the closer wakes the waiter itself if idle
    | Cleaned(failed: bool)             // session and builder closed, retirement started
    | Drained                           // the waiter saw the fence resolved
    | Released(failed: bool)            // the engine was reset and the lease given back

  function Call1(s: State, call: nat, phase: Phase): map<nat, Call>
    requires call in s.calls
  {
    s.calls[call := s.calls[call].(phase := phase)]
  }

  function Staged(s: State, stage: Stage): Option<Lease>
    requires s.lease.Some?
  {
    Some(s.lease.value.(stage := stage))
  }

  predicate InStage(s: State, stage: Stage) {
    s.lease.Some? && s.lease.value.stage == stage && s.lease.value.fence in s.fences
  }

  predicate Known(s: State, call: nat, phase: Phase) {
    call in s.calls && s.calls[call].phase == phase && s.calls[call].fence in s.fences
  }

  function Apply(s: State, step: Step): State {
    match step
    case OpenSession =>
      if s.blocked || s.lease.Some? then s
      else s.(fences := s.fences[s.nextFence := Opened()], nextFence := s.nextFence + 1,
              lease := Some(Lease(s.nextFence, Serving)))
    case Spawn(call, fence) =>
      if call in s.calls || fence !in s.fences then s else s.(calls := s.calls[call := Call(fence, Queued)])
    case Begin(call) =>
      if !Known(s, call, Queued) then s
      else
        var f := s.calls[call].fence;
        var r := Enter(s.fences[f]);
        s.(fences := s.fences[f := r.0], calls := Call1(s, call, if r.1 then Running else Rejected))
    case End(call) =>
      if !Known(s, call, Running) then s
      else
        var f := s.calls[call].fence;
        var r := Leave(s.fences[f]);
        s.(fences := s.fences[f := r.0], calls := Call1(s, call, Leaving(r.1)))
    case Signal(call) =>
      if Known(s, call, Leaving(true)) then
        var f := s.calls[call].fence;
        s.(fences := s.fences[f := s.fences[f].(scheduled := s.fences[f].scheduled + 1)],
           calls := Call1(s, call, Ended))
      else if Known(s, call, Leaving(false)) then s.(calls := Call1(s, call, Ended))
      else s
    case Resolve(f) =>
      if f !in s.fences || s.fences[f].scheduled == 0 then s
      else s.(fences := s.fences[f := s.fences[f].(scheduled := s.fences[f].scheduled - 1, resolved := true)])
    case CloseFence =>
      if !InStage(s, Serving) then s
      else
        var f := s.lease.value.fence;
        var r := Shut(s.fences[f]);
        s.(fences := s.fences[f := r.0], lease := Staged(s, Closed(r.1)))
    case AfterClose =>
      if InStage(s, Closed(true)) then
        var f := s.lease.value.fence;
        s.(fences := s.fences[f := s.fences[f].(resolved := true)], lease := Staged(s, Cleaning))
      else if InStage(s, Closed(false)) then s.(lease := Staged(s, Cleaning))
      else s
    case Cleaned(failed) =>
      if InStage(s, Cleaning) then s.(lease := Staged(s, Waiting), blocked := s.blocked || failed) else s
    case Drained =>
      if InStage(s, Waiting) && s.fences[s.lease.value.fence].resolved then s.(lease := Staged(s, Resetting)) else s
    case Released(failed) =>
      if InStage(s, Resetting) then s.(lease := None, blocked := s.blocked || failed) else s
  }

  // -------- The invariant

  /** Calls whose function is running under the fence. */
  ghost function RunningUnder(calls: map<nat, Call>, f: nat): set<nat> {
    set c | c in calls && calls[c].fence == f && calls[c].phase == Running
  }

  /** Calls that still have to wake the fence's waiter. */
  ghost function LastOut(calls: map<nat, Call>, f: nat): set<nat> {
    set c | c in calls && calls[c].fence == f && calls[c].phase == Leaving(true)
  }

  ghost function Closing(lease: Option<Lease>, f: nat): nat {
    if lease == Some(Lease(f, Closed(true))) then 1 else 0
  }

  /** Wake-ups under way or done: one call or the closer holds it, or the loop does. */
  ghost function Wakes(s: State, f: nat): int
    requires f in s.fences
  {
    |LastOut(s.calls, f)| + Closing(s.lease, f) + s.fences[f].scheduled + if s.fences[f].resolved then 1 else 0
  }

  /** The count is exact, and exactly one side wakes the waiter: nobody while the fence is
      open or a call is inside, one once it is closed and empty. */
  ghost predicate FenceOk(s: State, f: nat)
    requires f in s.fences
  {
    && s.fences[f].active == |RunningUnder(s.calls, f)|
    && Wakes(s, f) == if !s.fences[f].open && s.fences[f].active == 0 then 1 else 0
  }

  ghost predicate LeaseOk(s: State) {
    && (forall f :: f in s.fences ==> f < s.nextFence)
    && (forall f :: f in s.fences && Retired(s, f) ==> !s.fences[f].open && s.fences[f].resolved)
    && (s.lease.Some? ==>
          s.lease.value.fence in s.fences
          && (s.lease.value.stage == Serving <==> s.fences[s.lease.value.fence].open)
          && (s.lease.value.stage == Resetting ==> s.fences[s.lease.value.fence].resolved))
  }

  predicate Retired(s: State, f: nat) {
    s.lease.None? || s.lease.value.fence != f
  }

  ghost predicate Inv(s: State) {
    && LeaseOk(s) && (forall f :: f in s.fences ==> FenceOk(s, f))
    && forall c :: c in s.calls ==> s.calls[c].fence in s.fences
  }

  // -------- Every interleaving keeps it

  /** One call changes phase: the two sets lose or gain at most that call. */
  lemma {:induction false} PhaseSets(calls: map<nat, Call>, call: nat, phase: Phase, f: nat)
    requires call in calls
    ensures var after := calls[call := calls[call].(phase := phase)];
      RunningUnder(after, f) == if calls[call].fence == f && phase == Running
                                then RunningUnder(calls, f) + {call} else RunningUnder(calls, f) - {call}
    ensures var after := calls[call := calls[call].(phase := phase)];
      LastOut(after, f) == if calls[call].fence == f && phase == Leaving(true)
                           then LastOut(calls, f) + {call} else LastOut(calls, f) - {call}
  {
    var after := calls[call := calls[call].(phase := phase)];
    var running := if calls[call].fence == f && phase == Running
                   then RunningUnder(calls, f) + {call} else RunningUnder(calls, f) - {call};
    var last := if calls[call].fence == f && phase == Leaving(true)
                then LastOut(calls, f) + {call} else LastOut(calls, f) - {call};
    assert forall c :: c in RunningUnder(after, f) <==> c in running;
    assert forall c :: c in LastOut(after, f) <==> c in last;
  }

  lemma {:induction false} OneMoreOrLess(q: set<nat>, c: nat)
    ensures |q + {c}| == |q| + if c in q then 0 else 1
    ensures |q - {c}| == |q| - if c in q then 1 else 0
  {
    if c in q { assert q + {c} == q; } else { assert q - {c} == q; }
  }

  function Indicator(b: bool): int {
    if b then 1 else 0
  }

  lemma {:induction false} PhaseCounts(calls: map<nat, Call>, call: nat, phase: Phase, f: nat)
    requires call in calls
    ensures var after := calls[call := calls[call].(phase := phase)]; var mine := calls[call].fence == f;
      |RunningUnder(after, f)| == |RunningUnder(calls, f)| + Indicator(mine && phase == Running)
                                  - Indicator(mine && calls[call].phase == Running)
    ensures var after := calls[call := calls[call].(phase := phase)]; var mine := calls[call].fence == f;
      |LastOut(after, f)| == |LastOut(calls, f)| + Indicator(mine && phase == Leaving(true))
                             - Indicator(mine && calls[call].phase == Leaving(true))
  {
    PhaseSets(calls, call, phase, f);
    OneMoreOrLess(RunningUnder(calls, f), call);
    OneMoreOrLess(LastOut(calls, f), call);
  }

  lemma {:induction false} CallKeeps(s: State, t: State, call: nat, phase: Phase)
    requires Inv(s) && call in s.calls && t.calls == Call1(s, call, phase) && t.lease == s.lease
        && t.nextFence == s.nextFence
    requires t.fences.Keys == s.fences.Keys
    requires forall f :: f in s.fences && f != s.calls[call].fence ==> t.fences[f] == s.fences[f]
    requires var f := s.calls[call].fence;
      && t.fences[f].open == s.fences[f].open && (s.fences[f].resolved ==> t.fences[f].resolved)
      && FenceOk(t, f)
    ensures Inv(t)
  {
    forall f | f in t.fences
      ensures FenceOk(t, f)
    {
      if f != s.calls[call].fence {
        PhaseCounts(s.calls, call, phase, f);
        assert FenceOk(s, f);
      }
    }
  }

  lemma {:induction false} BeginKeeps(s: State, call: nat)
    requires Inv(s) && Known(s, call, Queued)
    ensures Inv(Apply(s, Begin(call)))
  {
    var f := s.calls[call].fence;
    assert FenceOk(s, f);
    var phase := if s.fences[f].open then Running else Rejected;
    PhaseCounts(s.calls, call, phase, f);
    CallKeeps(s, Apply(s, Begin(call)), call, phase);
  }

  lemma {:induction false} EndKeeps(s: State, call: nat)
    requires Inv(s) && Known(s, call, Running)
    ensures Inv(Apply(s, End(call)))
  {
    var f := s.calls[call].fence;
    assert FenceOk(s, f);
    var phase := Leaving(Leave(s.fences[f]).1);
    PhaseCounts(s.calls, call, phase, f);
    CallKeeps(s, Apply(s, End(call)), call, phase);
  }

  lemma {:induction false} SignalKeeps(s: State, call: nat)
    requires Inv(s)
    ensures Inv(Apply(s, Signal(call)))
  {
    if Known(s, call, Leaving(true)) || Known(s, call, Leaving(false)) {
      assert FenceOk(s, s.calls[call].fence);
      PhaseCounts(s.calls, call, Ended, s.calls[call].fence);
      CallKeeps(s, Apply(s, Signal(call)), call, Ended);
    }
  }

  /** Calls stay as they are. */
  lemma {:induction false} FrameKeeps(s: State, t: State, f: nat)
    requires Inv(s) && t.calls == s.calls && f in s.fences && t.fences.Keys == s.fences.Keys
    requires forall g :: g in s.fences && g != f ==>
      t.fences[g] == s.fences[g] && Closing(t.lease, g) == Closing(s.lease, g)
    requires FenceOk(t, f) && LeaseOk(t)
    ensures Inv(t)
  {
    forall g | g in t.fences
      ensures FenceOk(t, g)
    {
      assert FenceOk(s, g);
    }
  }

  lemma {:induction false} SpawnKeeps(s: State, call: nat, fence: nat)
    requires Inv(s) && call !in s.calls && fence in s.fences
    ensures Inv(Apply(s, Spawn(call, fence)))
  {
    var t := Apply(s, Spawn(call, fence));
    forall f | f in t.fences
      ensures FenceOk(t, f)
    {
      assert FenceOk(s, f);
      assert RunningUnder(t.calls, f) == RunningUnder(s.calls, f);
      assert LastOut(t.calls, f) == LastOut(s.calls, f);
    }
  }

  lemma {:induction false} OpenKeeps(s: State)
    requires Inv(s) && !s.blocked && s.lease.None?
    ensures Inv(Apply(s, OpenSession))
  {
    var t := Apply(s, OpenSession);
    forall f | f in t.fences
      ensures FenceOk(t, f)
    {
      if f == s.nextFence {
        assert RunningUnder(t.calls, f) == {} && LastOut(t.calls, f) == {};
      } else {
        assert FenceOk(s, f);
      }
    }
  }

  lemma {:induction false} CloseKeeps(s: State)
    requires Inv(s) && InStage(s, Serving)
    ensures Inv(Apply(s, CloseFence))
  {
    var f := s.lease.value.fence;
    assert FenceOk(s, f);
    FrameKeeps(s, Apply(s, CloseFence), f);
  }

  lemma {:induction false} AfterCloseKeeps(s: State, idle: bool)
    requires Inv(s) && InStage(s, Closed(idle))
    ensures Inv(Apply(s, AfterClose))
  {
    hide RunningUnder, LastOut;
    var f := s.lease.value.fence;
    assert FenceOk(s, f);
    if idle {
      FrameKeeps(s, Apply(s, AfterClose), f);
    } else {
      MovedKeeps(s, Apply(s, AfterClose));
    }
  }

  /** Only the lease moves, and it holds no wake-up. */
  lemma {:induction false} MovedKeeps(s: State, t: State)
    requires Inv(s) && t.fences == s.fences && t.calls == s.calls && LeaseOk(t)
    requires forall f :: Closing(t.lease, f) == Closing(s.lease, f)
    ensures Inv(t)
  {
    forall f | f in t.fences
      ensures FenceOk(t, f)
    {
      assert FenceOk(s, f);
    }
  }

  lemma {:induction false} RetireKeeps(s: State, step: Step)
    requires Inv(s) && s.lease.Some? && (step.Cleaned? || step.Drained? || step.Released?)
    ensures Inv(Apply(s, step))
  {
    hide FenceOk, RunningUnder, LastOut;
    MovedKeeps(s, Apply(s, step));
  }

  lemma {:induction false} ResolveKeeps(s: State, f: nat)
    requires Inv(s) && f in s.fences && s.fences[f].scheduled > 0
    ensures Inv(Apply(s, Resolve(f)))
  {
    assert FenceOk(s, f);
    FrameKeeps(s, Apply(s, Resolve(f)), f);
  }

  lemma {:induction false} ApplyKeeps(s: State, step: Step)
    requires Inv(s)
    ensures Inv(Apply(s, step))
  {
    match step
    case OpenSession => if !s.blocked && s.lease.None? { OpenKeeps(s); }
    case Spawn(call, fence) => if call !in s.calls && fence in s.fences { SpawnKeeps(s, call, fence); }
    case Begin(call) => if Known(s, call, Queued) { BeginKeeps(s, call); }
    case End(call) => if Known(s, call, Running) { EndKeeps(s, call); }
    case Signal(call) => SignalKeeps(s, call);
    case Resolve(f) => if f in s.fences && s.fences[f].scheduled > 0 { ResolveKeeps(s, f); }
    case CloseFence => if InStage(s, Serving) { CloseKeeps(s); }
    case AfterClose =>
      if InStage(s, Closed(true)) {
        AfterCloseKeeps(s, true);
      } else if InStage(s, Closed(false)) {
        AfterCloseKeeps(s, false);
      }
    case _ => if s.lease.Some? { RetireKeeps(s, step); }
  }

  function Run(s: State, steps: seq<Step>): State
    decreases |steps|
  {
    if steps == [] then s else Run(Apply(s, steps[0]), steps[1..])
  }

  lemma {:induction false} RunKeeps(s: State, steps: seq<Step>)
    requires Inv(s)
    ensures Inv(Run(s, steps))
    decreases |steps|
  {
    hide Inv, Apply;
    if steps != [] {
      ApplyKeeps(s, steps[0]);
      RunKeeps(Apply(s, steps[0]), steps[1..]);
    }
  }

  // -------- What it means

  /** A resolved fence is closed and empty, in every interleaving of closing and returning. */
  lemma {:induction false} ResolvedIsEmpty(steps: seq<Step>, f: nat)
    requires f in Run(Idle, steps).fences && Run(Idle, steps).fences[f].resolved
    ensures var s := Run(Idle, steps);
      !s.fences[f].open && s.fences[f].active == 0 && RunningUnder(s.calls, f) == {}
  {
    RunKeeps(Idle, steps);
    assert FenceOk(Run(Idle, steps), f);
  }

  /** No wake-up is lost and none is sent twice: once closed and empty, exactly one is held
      by the last call out, by the closer, by the event loop, or has been delivered. */
  lemma {:induction false} WokenExactlyOnce(steps: seq<Step>, f: nat)
    requires f in Run(Idle, steps).fences
    ensures var s := Run(Idle, steps);
      Wakes(s, f) == if !s.fences[f].open && RunningUnder(s.calls, f) == {} then 1 else 0
  {
    RunKeeps(Idle, steps);
    assert FenceOk(Run(Idle, steps), f);
  }

  lemma {:induction false} ApplyStaysClosed(s: State, step: Step, f: nat)
    requires Inv(s) && f in s.fences && !s.fences[f].open
    ensures f in Apply(s, step).fences && !Apply(s, step).fences[f].open
    ensures RunningUnder(Apply(s, step).calls, f) <= RunningUnder(s.calls, f)
  {
    hide FenceOk, LastOut, RunningUnder;
    match step
    case Spawn(call, fence) => NoneAdmitted(s, step, call, f);
    case Begin(call) => NoneAdmitted(s, step, call, f);
    case End(call) => NoneAdmitted(s, step, call, f);
    case Signal(call) => NoneAdmitted(s, step, call, f);
    case _ =>
  }

  /** A step about one call starts no function under a closed fence. */
  lemma {:induction false} NoneAdmitted(s: State, step: Step, call: nat, f: nat)
    requires f in s.fences && !s.fences[f].open
    requires step.Begin? || step.End? || step.Signal? || step.Spawn?
    requires call == step.call
    ensures RunningUnder(Apply(s, step).calls, f) <= RunningUnder(s.calls, f)
  {
    hide Enter, Leave;
    EnterClosed(s.fences[f]);
    var t := Apply(s, step);
    forall c | c in RunningUnder(t.calls, f)
      ensures c in RunningUnder(s.calls, f)
    {
      assert c != call ==> c in s.calls && t.calls[c] == s.calls[c];
    }
  }

  lemma {:induction false} EnterClosed(f: Fence)
    requires !f.open
    ensures Enter(f) == (f, false)
  {
  }

  /** After a fence closes no further function starts under it, so once it is resolved none
      ever runs under it again. */
  lemma {:induction false} ResolvedForGood(s: State, steps: seq<Step>, f: nat)
    requires Inv(s) && f in s.fences && !s.fences[f].open
    ensures f in Run(s, steps).fences && !Run(s, steps).fences[f].open
    ensures RunningUnder(Run(s, steps).calls, f) <= RunningUnder(s.calls, f)
    decreases |steps|
  {
    hide Inv, Apply;
    if steps != [] {
      ApplyKeeps(s, steps[0]);
      ApplyStaysClosed(s, steps[0], f);
      ResolvedForGood(Apply(s, steps[0]), steps[1..], f);
    }
  }

  /** The engine is reset, and a new session admitted, only when no native call of any
      earlier session is still running. */
  lemma {:induction false} ResetFollowsEveryCall(steps: seq<Step>, call: nat)
    requires var s := Run(Idle, steps); InStage(s, Resetting) || s.lease.None?
    requires call in Run(Idle, steps).calls
    ensures Run(Idle, steps).calls[call].phase != Running
  {
    RunKeeps(Idle, steps);
    var s := Run(Idle, steps);
    var f := s.calls[call].fence;
    assert FenceOk(s, f);
    assert s.calls[call].phase == Running ==> call in RunningUnder(s.calls, f);
  }
}
