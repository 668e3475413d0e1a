/** Round-robin admission with one physical backend job per session
    (app/translation/scheduler.py). Steps are the atomic sections between awaits. */
module Scheduler {
  import opened Wrappers

  datatype Job = Job(session: string, generation: nat, segment: nat, revision: nat, final: bool, source: string)

  /** `id` stands for the identity of the entry object. */
  datatype Entry = Entry(id: nat, job: Job)

  /** Done: the callback has run or the result was dropped, and the worker still holds the slot. */
  datatype Phase = Taken | Requested | Calling | Done

  datatype Active = Active(entry: Entry, stale: bool, phase: Phase)

  /** History of every accepted entry. */
  datatype Place = Queued(session: string) | Running(session: string) | Delivered | Coalesced | Discarded

  datatype Limits = Limits(workers: nat, maxPending: nat, maxPerSession: nat)

  datatype Error = Closed | StaleRevision | QueueFull

  datatype State = State(
    limits: Limits, pending: map<string, seq<Entry>>, ready: seq<string>, readySet: set<string>,
    active: map<string, Active>, idle: nat, closing: bool, nextId: nat, ledger: map<nat, Place>)

  function Initial(limits: Limits): State {
    State(limits, map[], [], {}, map[], limits.workers, false, 0, map[])
  }

  predicate Same(a: Job, b: Job) {
    a.session == b.session && a.generation == b.generation && a.segment == b.segment
  }

  function Queue(s: State, sid: string): seq<Entry> {
    if sid in s.pending then s.pending[sid] else []
  }

  function Ids(q: seq<Entry>): set<nat> {
    set e | e in q :: e.id
  }

  ghost function AnyOf(pending: map<string, seq<Entry>>): (sid: string)
    requires pending != map[]
    ensures sid in pending
  {
    var sid :| sid in pending; sid
  }

  ghost function PendingCount(pending: map<string, seq<Entry>>): nat
    decreases |pending|
  {
    if pending == map[] then 0
    else
      var sid := AnyOf(pending);
      |pending[sid]| + PendingCount(pending - {sid})
  }

  // -------- Steps

  /** One session's share of the scheduler. */
  datatype Slot = Slot(queue: seq<Entry>, active: Option<Active>)

  function SlotOf(s: State, sid: string): Slot {
    Slot(Queue(s, sid), if sid in s.active then Some(s.active[sid]) else None)
  }

  function MarkReady(s: State, sid: string): State {
    if Queue(s, sid) != [] && sid !in s.active && sid !in s.readySet && !s.closing
    then s.(ready := s.ready + [sid], readySet := s.readySet + {sid}) else s
  }

  function Removing(ready: seq<string>, sid: string): (r: seq<string>)
    ensures sid !in r
    ensures forall x :: x in r <==> x in ready && x != sid
  {
    if ready == [] then []
    else if ready[0] == sid then Removing(ready[1..], sid)
    else [ready[0]] + Removing(ready[1..], sid)
  }

  function ForgetReady(s: State, sid: string): State {
    s.(ready := Removing(s.ready, sid), readySet := s.readySet - {sid})
  }

  /** The ledger with these entries at `place`. */
  ghost function Settle(ledger: map<nat, Place>, ids: set<nat>, place: Place): (r: map<nat, Place>)
    ensures forall id :: id in r <==> id in ledger || id in ids
    ensures forall id :: id in r ==> r[id] == if id in ids then place else ledger[id]
    decreases |ids|
  {
    if ids == {} then ledger
    else
      var id :| id in ids;
      Settle(ledger, ids - {id}, place)[id := place]
  }

  predicate Replaceable(e: Entry, job: Job) {
    !e.job.final && Same(e.job, job) && e.job.revision <= job.revision
  }

  /** The new entry takes the first replaceable position, or the end; the other
      replaceable entries go. */
  function Coalesce(q: seq<Entry>, entry: Entry, placed: bool): seq<Entry> {
    if q == [] then if placed then [] else [entry]
    else if !Replaceable(q[0], entry.job) then [q[0]] + Coalesce(q[1..], entry, placed)
    else if placed then Coalesce(q[1..], entry, true)
    else [entry] + Coalesce(q[1..], entry, true)
  }

  function Replaced(q: seq<Entry>, job: Job): seq<Entry> {
    if q == [] then []
    else if Replaceable(q[0], job) then [q[0]] + Replaced(q[1..], job)
    else Replaced(q[1..], job)
  }

  predicate Outdated(e: Entry, job: Job) {
    Same(e.job, job) && e.job.revision > job.revision
  }

  predicate Superseded(s: State, job: Job) {
    job.session in s.active && !s.active[job.session].entry.job.final
    && Same(s.active[job.session].entry.job, job)
    && s.active[job.session].entry.job.revision <= job.revision
  }

  predicate Outrun(s: State, job: Job) {
    || (exists e :: e in Queue(s, job.session) && Outdated(e, job))
    || (job.session in s.active && !s.active[job.session].stale && Outdated(s.active[job.session].entry, job))
  }

  ghost predicate Overflows(s: State, job: Job) {
    var q, r := Queue(s, job.session), |Replaced(Queue(s, job.session), job)|;
    PendingCount(s.pending) - r + 1 > s.limits.maxPending || |q| - r + 1 > s.limits.maxPerSession
  }

  function PutQueue(pending: map<string, seq<Entry>>, sid: string, q: seq<Entry>): map<string, seq<Entry>> {
    if q == [] then pending - {sid} else pending[sid := q]
  }

  function PutActive(active: map<string, Active>, sid: string, a: Option<Active>): map<string, Active> {
    if a.None? then active - {sid} else active[sid := a.value]
  }

  /** One session's queue and slot replaced, with what that means for the ledger. */
  function Edit(s: State, sid: string, v: Slot, ledger: map<nat, Place>, idle: nat, nextId: nat): State {
    State(s.limits, PutQueue(s.pending, sid, v.queue), s.ready, s.readySet, PutActive(s.active, sid, v.active),
          idle, s.closing, nextId, ledger)
  }

  function Stale(a: Option<Active>): Option<Active> {
    if a.Some? then Some(a.value.(stale := true)) else None
  }

  function Accept(s: State, job: Job): (v: Slot) {
    var v := SlotOf(s, job.session);
    Slot(Coalesce(v.queue, Entry(s.nextId, job), false), if Superseded(s, job) then Stale(v.active) else v.active)
  }

  ghost function AcceptLedger(s: State, job: Job): map<nat, Place> {
    var gone := Ids(Queue(s, job.session)) - Ids(Accept(s, job).queue);
    Settle(s.ledger, gone, Coalesced)[s.nextId := Queued(job.session)]
  }

  ghost function Admitted(s: State, job: Job): State {
    MarkReady(Edit(s, job.session, Accept(s, job), AcceptLedger(s, job), s.idle, s.nextId + 1), job.session)
  }

  ghost function Submitted(s: State, job: Job): Result<State, Error> {
    if s.closing then Err(Closed)
    else if Outrun(s, job) then Err(StaleRevision)
    else if Overflows(s, job) then Err(QueueFull)
    else Ok(Admitted(s, job))
  }

  /** Entries leave the queue for `v` and are settled as discarded. */
  ghost function Discard(s: State, sid: string, v: Slot): State {
    Edit(s, sid, v, Settle(s.ledger, Ids(Queue(s, sid)) - Ids(v.queue), Discarded), s.idle, s.nextId)
  }

  ghost function CancelSession(s: State, sid: string): State {
    ForgetReady(Discard(s, sid, Slot([], Stale(SlotOf(s, sid).active))), sid)
  }

  function Outside(q: seq<Entry>, segments: set<nat>): (r: seq<Entry>) {
    if q == [] then []
    else if q[0].job.segment in segments then Outside(q[1..], segments)
    else [q[0]] + Outside(q[1..], segments)
  }

  function Spare(v: Slot, segments: set<nat>): Slot {
    Slot(Outside(v.queue, segments),
         if v.active.Some? && v.active.value.entry.job.segment in segments then Stale(v.active) else v.active)
  }

  ghost function Invalidate(s: State, sid: string, segments: set<nat>): State {
    var v := Spare(SlotOf(s, sid), segments);
    var t := Discard(s, sid, v);
    if sid in s.pending && v.queue == [] then ForgetReady(t, sid) else t
  }

  /** An idle worker takes the first ready session that has work and no active job. */
  function Take(s: State): State
    decreases |s.ready|
  {
    if s.closing || s.idle == 0 || s.ready == [] then s
    else
      var sid := s.ready[0];
      var popped := s.(ready := s.ready[1..], readySet := s.readySet - {sid});
      if Queue(s, sid) == [] || sid in s.active then Take(popped) else Occupy(popped, sid)
  }

  function Occupy(s: State, sid: string): State
    requires Queue(s, sid) != [] && s.idle > 0
  {
    var q := Queue(s, sid);
    Edit(s, sid, Slot(q[1..], Some(Active(q[0], false, Taken))), s.ledger[q[0].id := Running(sid)], s.idle - 1,
         s.nextId)
  }

  /** The session's slot replaced, its queue untouched. */
  function Hold(s: State, sid: string, a: Option<Active>, ledger: map<nat, Place>, idle: nat): State {
    s.(active := PutActive(s.active, sid, a), ledger := ledger, idle := idle)
  }

  /** The active entry moves to another phase. */
  function Phased(s: State, sid: string, phase: Phase, ledger: map<nat, Place>): State
    requires sid in s.active
  {
    Hold(s, sid, Some(s.active[sid].(phase := phase)), ledger, s.idle)
  }

  function Drop(s: State, sid: string): State
    requires sid in s.active
  {
    Phased(s, sid, Done, s.ledger[s.active[sid].entry.id := Discarded])
  }

  /** The worker starts the request unless the entry is stale already. */
  function Begin(s: State, sid: string): State {
    if sid !in s.active || s.active[sid].phase != Taken then s
    else if s.active[sid].stale then Drop(s, sid)
    else Phased(s, sid, Requested, s.ledger)
  }

  /** The backend returned, with a result or an error, cancelled or not. */
  function Return(s: State, sid: string): State {
    if sid !in s.active || s.active[sid].phase != Requested then s
    else if s.active[sid].stale || s.closing then Drop(s, sid)
    else Phased(s, sid, Calling, s.ledger[s.active[sid].entry.id := Delivered])
  }

  function CallbackDone(s: State, sid: string): State {
    if sid !in s.active || s.active[sid].phase != Calling then s else Phased(s, sid, Done, s.ledger)
  }

  /** The worker gives the slot back. */
  function Finish(s: State, sid: string): State {
    if sid !in s.active || s.active[sid].phase != Done then s
    else MarkReady(Hold(s, sid, None, s.ledger, s.idle + 1), sid)
  }

  ghost function AllStale(active: map<string, Active>): (r: map<string, Active>)
    ensures forall sid :: sid in r <==> sid in active
    ensures forall sid :: sid in r ==> r[sid] == active[sid].(stale := true)
    decreases |active|
  {
    if active == map[] then active
    else
      var sid :| sid in active;
      AllStale(active - {sid})[sid := active[sid].(stale := true)]
  }

  ghost function Close(s: State): State {
    s.(closing := true, pending := map[], ready := [], readySet := {},
       active := AllStale(s.active),
       ledger := Settle(s.ledger, (set id | id in s.ledger && s.ledger[id].Queued?), Discarded))
  }

  datatype Step =
    | DoSubmit(job: Job) | DoCancel(session: string) | DoInvalidate(session: string, segments: set<nat>)
    | DoTake | DoBegin(session: string) | DoReturn(session: string) | DoCallback(session: string)
    | DoFinish(session: string) | DoClose

  ghost function Apply(s: State, step: Step): State {
    match step
    case DoSubmit(job) => (match Submitted(s, job) case Ok(t) => t case Err(_) => s)
    case DoCancel(sid) => CancelSession(s, sid)
    case DoInvalidate(sid, segments) => Invalidate(s, sid, segments)
    case DoTake => Take(s)
    case DoBegin(sid) => Begin(s, sid)
    case DoReturn(sid) => Return(s, sid)
    case DoCallback(sid) => CallbackDone(s, sid)
    case DoFinish(sid) => Finish(s, sid)
    case DoClose => Close(s)
  }

  // -------- The invariant

  /** Per segment: only the last queued job may be non-final; revisions never decrease. */
  ghost predicate Orderly(q: seq<Entry>) {
    forall i, j :: 0 <= i < j < |q| ==> Before(q[i].job, q[j].job)
  }

  /** Two jobs of one segment may stand in this order. */
  ghost predicate Before(a: Job, b: Job) {
    Same(a, b) ==> a.final && a.revision <= b.revision
  }

  ghost predicate Unique(q: seq<Entry>) {
    forall i, j :: 0 <= i < j < |q| ==> q[i].id != q[j].id
  }

  /** A live request and a queued job share a segment only if the request is final and older. */
  ghost predicate SlotOk(limits: Limits, sid: string, v: Slot) {
    && |v.queue| <= limits.maxPerSession && Orderly(v.queue) && Unique(v.queue)
    && (forall e :: e in v.queue ==> e.job.session == sid)
    && (v.active.Some? ==> v.active.value.entry.job.session == sid)
    && (v.active.Some? && !v.active.value.stale ==>
          forall e :: e in v.queue ==> Before(v.active.value.entry.job, e.job))
  }

  /** The ledger places this session's entries where they are, and nowhere else. */
  ghost predicate LedgerOk(ledger: map<nat, Place>, sid: string, v: Slot) {
    && (forall e :: e in v.queue ==> e.id in ledger && ledger[e.id] == Queued(sid))
    && (forall id :: id in ledger && ledger[id] == Queued(sid) ==> id in Ids(v.queue))
    && (v.active.Some? ==> HeldOk(ledger, sid, v.active.value))
    && (forall id :: id in ledger && ledger[id] == Running(sid) ==>
          v.active.Some? && v.active.value.entry.id == id && v.active.value.phase in {Taken, Requested})
  }

  ghost predicate HeldOk(ledger: map<nat, Place>, sid: string, a: Active) {
    && a.entry.id in ledger
    && match a.phase
       case Taken => ledger[a.entry.id] == Running(sid)
       case Requested => ledger[a.entry.id] == Running(sid)
       case Calling => ledger[a.entry.id] == Delivered
       case Done => ledger[a.entry.id] in {Delivered, Discarded}
  }

  /** A session is ready exactly when it has work and no active job. */
  ghost predicate SessionOk(s: State, sid: string) {
    var v := SlotOf(s, sid);
    && SlotOk(s.limits, sid, v) && LedgerOk(s.ledger, sid, v)
    && (sid in s.readySet <==> v.queue != [] && v.active.None?)
    && (s.closing ==> v.queue == [] && (v.active.Some? ==> v.active.value.stale))
  }

  ghost predicate Distinct(r: seq<string>) {
    forall i, j :: 0 <= i < j < |r| ==> r[i] != r[j]
  }

  ghost predicate ReadyOk(s: State) {
    Distinct(s.ready) && forall sid :: sid in s.ready <==> sid in s.readySet
  }

  /** At most `workers` jobs are active and both pending limits hold. */
  ghost predicate Global(s: State) {
    && ReadyOk(s)
    && s.idle + |s.active| == s.limits.workers
    && PendingCount(s.pending) <= s.limits.maxPending
    && (forall sid :: sid in s.pending ==> s.pending[sid] != [])
    && (forall id: nat :: id in s.ledger <==> id < s.nextId)
  }

  ghost predicate Inv(s: State) {
    Global(s) && forall sid :: SessionOk(s, sid)
  }

  // -------- Steps of one session leave the others alone

  /** Only entries of `sid` change place, and a terminal place is never left. */
  ghost predicate Moves(before: map<nat, Place>, after: map<nat, Place>, sid: string) {
    && (forall id :: id in before ==>
          id in after && (after[id] == before[id]
                          || (before[id] in {Queued(sid), Running(sid)}
                              && after[id] in {Running(sid), Delivered, Coalesced, Discarded})))
    && (forall id :: id in after && id !in before ==> after[id] == Queued(sid))
  }

  ghost predicate Local(s: State, t: State, sid: string) {
    && t.limits == s.limits && t.closing == s.closing && Moves(s.ledger, t.ledger, sid)
    && forall other :: other != sid ==>
         SlotOf(t, other) == SlotOf(s, other) && (other in t.readySet <==> other in s.readySet)
  }

  lemma {:induction false} LedgerFrame(before: map<nat, Place>, after: map<nat, Place>, sid: string, other: string,
                                       v: Slot)
    requires Moves(before, after, sid) && other != sid && LedgerOk(before, other, v)
    ensures LedgerOk(after, other, v)
  {
  }

  lemma {:induction false} LocalStep(s: State, t: State, sid: string)
    requires Inv(s) && Local(s, t, sid) && Global(t) && SessionOk(t, sid)
    ensures Inv(t)
  {
    forall other
      ensures SessionOk(t, other)
    {
      if other != sid {
        assert SessionOk(s, other);
        LedgerFrame(s.ledger, t.ledger, sid, other, SlotOf(s, other));
      }
    }
  }

  // -------- Counting queued work

  lemma {:induction false} PendingAt(pending: map<string, seq<Entry>>, sid: string)
    requires sid in pending
    ensures PendingCount(pending) == |pending[sid]| + PendingCount(pending - {sid})
    decreases |pending|
  {
    var k := AnyOf(pending);
    hide AnyOf;
    if k != sid {
      PendingSwap(pending, sid, k);
    }
  }

  lemma {:induction false} PendingSwap(pending: map<string, seq<Entry>>, sid: string, k: string)
    requires sid in pending && k in pending && k != sid
    ensures |pending[k]| + PendingCount(pending - {k}) == |pending[sid]| + PendingCount(pending - {sid})
    decreases |pending|, 0
  {
    var a, b := pending - {k}, pending - {sid};
    assert |a| < |pending| && |b| < |pending|;
    PendingAt(a, sid);
    PendingAt(b, k);
    assert a - {sid} == b - {k};
  }

  lemma {:induction false} PendingWithout(pending: map<string, seq<Entry>>, sid: string)
    ensures PendingCount(pending)
         == PendingCount(pending - {sid}) + if sid in pending then |pending[sid]| else 0
  {
    if sid in pending {
      PendingAt(pending, sid);
    } else {
      assert pending - {sid} == pending;
    }
  }

  lemma {:induction false} PendingWith(pending: map<string, seq<Entry>>, sid: string, q: seq<Entry>)
    ensures PendingCount(pending[sid := q]) == PendingCount(pending - {sid}) + |q|
  {
    PendingWithout(pending[sid := q], sid);
    assert pending[sid := q] - {sid} == pending - {sid};
  }

  // -------- Coalescing

  lemma {:induction false} ConsOk(a: Entry, q: seq<Entry>)
    requires Orderly(q) && Unique(q)
    requires forall e :: e in q ==> e.id != a.id && Before(a.job, e.job)
    ensures Orderly([a] + q) && Unique([a] + q)
  {
  }

  lemma {:induction false} TailOk(q: seq<Entry>)
    requires q != [] && Orderly(q) && Unique(q)
    ensures Orderly(q[1..]) && Unique(q[1..])
    ensures forall e :: e in q[1..] ==> e.id != q[0].id && Before(q[0].job, e.job)
  {
    forall e | e in q[1..]
      ensures e.id != q[0].id && Before(q[0].job, e.job)
    {
      var i :| 0 <= i < |q[1..]| && q[1..][i] == e;
      assert q[i + 1] == e;
    }
  }

  /** The survivors are the new entry and every entry that is not replaceable. */
  lemma {:induction false} CoalesceHolds(q: seq<Entry>, entry: Entry, placed: bool)
    ensures |Coalesce(q, entry, placed)| == |q| - |Replaced(q, entry.job)| + if placed then 0 else 1
    ensures forall e :: e in Coalesce(q, entry, placed) <==>
              (e in q && !Replaceable(e, entry.job)) || (!placed && e == entry)
    ensures forall e :: e in Replaced(q, entry.job) <==> e in q && Replaceable(e, entry.job)
  {
    if q != [] {
      var again := placed || Replaceable(q[0], entry.job);
      CoalesceHolds(q[1..], entry, again);
      assert q == [q[0]] + q[1..];
    }
  }

  lemma {:induction false} CoalesceOk(q: seq<Entry>, entry: Entry, placed: bool)
    requires Orderly(q) && Unique(q)
    requires forall e :: e in q ==> e.id != entry.id && !Outdated(e, entry.job)
    requires placed ==> forall e :: e in q ==> !Same(e.job, entry.job)
    ensures Orderly(Coalesce(q, entry, placed)) && Unique(Coalesce(q, entry, placed))
  {
    if q != [] {
      TailOk(q);
      var again := placed || Replaceable(q[0], entry.job);
      CoalesceHolds(q[1..], entry, again);
      CoalesceOk(q[1..], entry, again);
      if !Replaceable(q[0], entry.job) {
        ConsOk(q[0], Coalesce(q[1..], entry, again));
      } else if !placed {
        ConsOk(entry, Coalesce(q[1..], entry, again));
      }
    }
  }

  // -------- Editing one session

  lemma {:induction false} EditIs(s: State, sid: string, v: Slot, ledger: map<nat, Place>, idle: nat, nextId: nat)
    ensures var t := Edit(s, sid, v, ledger, idle, nextId);
      SlotOf(t, sid) == v && (forall other :: other != sid ==> SlotOf(t, other) == SlotOf(s, other))
  {
  }

  lemma {:induction false} EditCount(pending: map<string, seq<Entry>>, sid: string, q: seq<Entry>)
    ensures PendingCount(PutQueue(pending, sid, q))
         == PendingCount(pending) + |q| - if sid in pending then |pending[sid]| else 0
  {
    PendingWithout(pending, sid);
    if q != [] { PendingWith(pending, sid, q); }
  }

  function Held(a: Option<Active>): nat {
    if a.Some? then 1 else 0
  }

  lemma {:induction false} EditSize(active: map<string, Active>, sid: string, a: Option<Active>)
    ensures |PutActive(active, sid, a)| == |active| + Held(a) - if sid in active then 1 else 0
  {
    if sid !in active && a.None? {
      assert active - {sid} == active;
    }
    assert (active - {sid}).Keys == active.Keys - {sid};
    if a.Some? {
      assert active[sid := a.value].Keys == active.Keys + {sid};
    }
  }

  /** Everything SessionOk asks but the ready mark. */
  ghost predicate Almost(limits: Limits, closing: bool, sid: string, v: Slot, ledger: map<nat, Place>) {
    && SlotOk(limits, sid, v) && LedgerOk(ledger, sid, v)
    && (closing ==> v.queue == [] && (v.active.Some? ==> v.active.value.stale))
  }

  /** What an edit must meet so that nothing but the ready mark may be left to repair. */
  ghost predicate Fits(s: State, sid: string, v: Slot, ledger: map<nat, Place>, idle: nat, nextId: nat) {
    && Almost(s.limits, s.closing, sid, v, ledger) && Moves(s.ledger, ledger, sid)
    && PendingCount(s.pending) + |v.queue| - |Queue(s, sid)| <= s.limits.maxPending
    && idle + Held(v.active) == s.idle + Held(SlotOf(s, sid).active)
    && forall id: nat :: id in ledger <==> id < nextId
  }

  lemma {:induction false} EditGlobal(s: State, sid: string, v: Slot, ledger: map<nat, Place>, idle: nat, nextId: nat)
    requires Global(s) && Fits(s, sid, v, ledger, idle, nextId)
    ensures Global(Edit(s, sid, v, ledger, idle, nextId))
  {
    EditPending(s, sid, v, ledger, idle, nextId);
    EditActive(s, sid, v, ledger, idle, nextId);
    ReadySame(s, Edit(s, sid, v, ledger, idle, nextId));
    hide SlotOk, LedgerOk, Moves, PendingCount, PutQueue, PutActive, ReadyOk, Almost;
    assert Edit(s, sid, v, ledger, idle, nextId).ledger == ledger;
    hide Edit;
  }

  lemma {:induction false} EditPending(s: State, sid: string, v: Slot, ledger: map<nat, Place>, idle: nat, nextId: nat)
    requires Global(s) && Fits(s, sid, v, ledger, idle, nextId)
    ensures var t := Edit(s, sid, v, ledger, idle, nextId);
      PendingCount(t.pending) <= t.limits.maxPending && forall x :: x in t.pending ==> t.pending[x] != []
  {
    EditCount(s.pending, sid, v.queue);
    QueuesStayFull(s.pending, sid, v.queue);
    hide SlotOk, LedgerOk, Moves, PendingCount, PutQueue, PutActive;
  }

  lemma {:induction false} EditActive(s: State, sid: string, v: Slot, ledger: map<nat, Place>, idle: nat, nextId: nat)
    requires Global(s) && Fits(s, sid, v, ledger, idle, nextId)
    ensures var t := Edit(s, sid, v, ledger, idle, nextId);
      t.idle + |t.active| == t.limits.workers && t.nextId == nextId
  {
    EditSize(s.active, sid, v.active);
    hide SlotOk, LedgerOk, Moves, PendingCount, PutQueue, PutActive;
  }

  lemma {:induction false} ReadySame(s: State, t: State)
    requires ReadyOk(s) && t.ready == s.ready && t.readySet == s.readySet
    ensures ReadyOk(t)
  {
  }

  lemma {:induction false} QueuesStayFull(pending: map<string, seq<Entry>>, sid: string, q: seq<Entry>)
    requires forall x :: x in pending ==> pending[x] != []
    ensures forall x :: x in PutQueue(pending, sid, q) ==> PutQueue(pending, sid, q)[x] != []
  {
  }

  lemma {:induction false} EditLocal(s: State, sid: string, v: Slot, ledger: map<nat, Place>, idle: nat, nextId: nat)
    requires Moves(s.ledger, ledger, sid)
    ensures Local(s, Edit(s, sid, v, ledger, idle, nextId), sid)
    ensures SlotOf(Edit(s, sid, v, ledger, idle, nextId), sid) == v
  {
    EditIs(s, sid, v, ledger, idle, nextId);
  }

  /** An edit and a ready deque that agrees with it. */
  lemma {:induction false} EditKeeps(s: State, sid: string, v: Slot, ledger: map<nat, Place>, idle: nat, nextId: nat,
                  ready: seq<string>, readySet: set<string>)
    requires Inv(s) && Fits(s, sid, v, ledger, idle, nextId)
    requires Distinct(ready) && (forall x :: x in ready <==> x in readySet)
    requires forall x :: x != sid ==> (x in readySet <==> x in s.readySet)
    requires sid in readySet <==> v.queue != [] && v.active.None?
    ensures Inv(Edit(s, sid, v, ledger, idle, nextId).(ready := ready, readySet := readySet))
  {
    var t := Edit(s, sid, v, ledger, idle, nextId);
    var r := t.(ready := ready, readySet := readySet);
    EditGlobal(s, sid, v, ledger, idle, nextId);
    EditLocal(s, sid, v, ledger, idle, nextId);
    SameSlots(t, r);
    LocalStep(s, r, sid);
  }

  lemma {:induction false} SameSlots(t: State, r: State)
    requires r.pending == t.pending && r.active == t.active
    ensures forall sid :: SlotOf(r, sid) == SlotOf(t, sid)
  {
  }

  lemma {:induction false} EditMarkKeeps(s: State, sid: string, v: Slot, ledger: map<nat, Place>, idle: nat,
                                         nextId: nat)
    requires Inv(s) && Fits(s, sid, v, ledger, idle, nextId)
    requires sid in s.readySet ==> v.queue != [] && v.active.None?
    ensures Inv(MarkReady(Edit(s, sid, v, ledger, idle, nextId), sid))
  {
    var t := Edit(s, sid, v, ledger, idle, nextId);
    EditIs(s, sid, v, ledger, idle, nextId);
    var r := MarkReady(t, sid);
    assert r == t.(ready := r.ready, readySet := r.readySet);
    EditKeeps(s, sid, v, ledger, idle, nextId, r.ready, r.readySet);
  }

  lemma {:induction false} EditForgetKeeps(s: State, sid: string, v: Slot, ledger: map<nat, Place>, idle: nat,
                                           nextId: nat)
    requires Inv(s) && Fits(s, sid, v, ledger, idle, nextId) && v.queue == []
    ensures Inv(ForgetReady(Edit(s, sid, v, ledger, idle, nextId), sid))
  {
    WithoutDistinct(s.ready, sid);
    EditKeeps(s, sid, v, ledger, idle, nextId, Removing(s.ready, sid), s.readySet - {sid});
  }

  lemma {:induction false} WithoutDistinct(ready: seq<string>, sid: string)
    requires Distinct(ready)
    ensures Distinct(Removing(ready, sid))
  {
    if ready != [] {
      WithoutDistinct(ready[1..], sid);
      forall x | x in ready[1..]
        ensures x != ready[0]
      {
        var i :| 0 <= i < |ready[1..]| && ready[1..][i] == x;
        assert ready[i + 1] == x;
      }
      var rest := Removing(ready[1..], sid);
      assert forall j :: 0 <= j < |rest| ==> rest[j] in rest;
    }
  }

  // -------- Every step keeps the invariant

  /** The slot holds the same entry in the same phase, stale or not. */
  ghost predicate SameHolder(v: Slot, w: Slot) {
    && (w.active.Some? <==> v.active.Some?)
    && (v.active.Some? ==> w.active.value.entry == v.active.value.entry
                           && w.active.value.phase == v.active.value.phase)
  }

  /** Entries that leave the queue are settled; the others stay where they were. */
  lemma {:induction false} SettledLedger(ledger: map<nat, Place>, sid: string, v: Slot, w: Slot, place: Place)
    requires LedgerOk(ledger, sid, v) && place in {Coalesced, Discarded}
    requires forall e :: e in w.queue ==> e in v.queue
    requires SameHolder(v, w)
    ensures var after := Settle(ledger, Ids(v.queue) - Ids(w.queue), place);
      Moves(ledger, after, sid) && LedgerOk(after, sid, w)
  {
  }

  lemma {:induction false} QueuedLedger(ledger: map<nat, Place>, sid: string, v: Slot, w: Slot, entry: Entry)
    requires LedgerOk(ledger, sid, v) && entry.id !in ledger && w.active == v.active
    requires forall e :: e in w.queue <==> e in v.queue || e == entry
    ensures LedgerOk(ledger[entry.id := Queued(sid)], sid, w)
  {
    forall id | id in ledger[entry.id := Queued(sid)] && ledger[entry.id := Queued(sid)][id] == Queued(sid)
      ensures id in Ids(w.queue)
    {
      if id == entry.id { assert entry in w.queue; }
    }
  }

  function NotReplaced(q: seq<Entry>, job: Job): seq<Entry> {
    if q == [] then []
    else (if Replaceable(q[0], job) then [] else [q[0]]) + NotReplaced(q[1..], job)
  }

  lemma {:induction false} NotReplacedHolds(q: seq<Entry>, job: Job)
    ensures forall e :: e in NotReplaced(q, job) <==> e in q && !Replaceable(e, job)
  {
    if q != [] {
      NotReplacedHolds(q[1..], job);
      assert q == [q[0]] + q[1..];
    }
  }

  lemma {:induction false} AcceptedLedger(ledger: map<nat, Place>, id: nat, job: Job, sid: string, v: Slot, w: Slot)
    requires LedgerOk(ledger, sid, v) && id !in ledger && SameHolder(v, w)
    requires w.queue == Coalesce(v.queue, Entry(id, job), false)
    ensures var after := Settle(ledger, Ids(v.queue) - Ids(w.queue), Coalesced)[id := Queued(sid)];
      Moves(ledger, after, sid) && LedgerOk(after, sid, w)
  {
    var entry := Entry(id, job);
    CoalesceHolds(v.queue, entry, false);
    NotReplacedHolds(v.queue, job);
    var middle := Slot(NotReplaced(v.queue, job), w.active);
    assert Ids(w.queue) == Ids(middle.queue) + {id} by {
      assert entry in w.queue;
    }
    assert Ids(v.queue) - Ids(w.queue) == Ids(v.queue) - Ids(middle.queue);
    SettledLedger(ledger, sid, v, middle, Coalesced);
    QueuedLedger(Settle(ledger, Ids(v.queue) - Ids(middle.queue), Coalesced), sid, middle, w, entry);
  }

  lemma {:induction false} AdmittedKeeps(s: State, job: Job)
    requires Inv(s) && !s.closing && !Outrun(s, job) && !Overflows(s, job)
    ensures Inv(Admitted(s, job))
  {
    AdmittedIs(s, job);
    AdmittedFits(s, job, Accept(s, job), AcceptLedger(s, job));
    EditMarkKeeps(s, job.session, Accept(s, job), AcceptLedger(s, job), s.idle, s.nextId + 1);
  }

  lemma {:induction false} AdmittedIs(s: State, job: Job)
    ensures Admitted(s, job)
         == MarkReady(Edit(s, job.session, Accept(s, job), AcceptLedger(s, job), s.idle, s.nextId + 1), job.session)
  {
  }

  lemma {:induction false} AdmittedFits(s: State, job: Job, v: Slot, ledger: map<nat, Place>)
    requires Inv(s) && !s.closing && !Outrun(s, job) && !Overflows(s, job)
    requires v == Accept(s, job) && ledger == AcceptLedger(s, job)
    ensures Fits(s, job.session, v, ledger, s.idle, s.nextId + 1)
    ensures job.session in s.readySet ==> v.queue != [] && v.active.None?
  {
    assert SessionOk(s, job.session);
    AcceptedSlot(s, job);
    AdmittedLedger(s, job);
    AdmittedCounts(s, job);
    hide Inv, SlotOk, LedgerOk, Moves, PendingCount, Accept, AcceptLedger, Outrun, Overflows;
  }

  lemma {:induction false} AdmittedLedger(s: State, job: Job)
    requires Inv(s)
    requires SameHolder(SlotOf(s, job.session), Accept(s, job))
    ensures var ledger := AcceptLedger(s, job);
      && Moves(s.ledger, ledger, job.session) && LedgerOk(ledger, job.session, Accept(s, job))
      && forall id: nat :: id in ledger <==> id < s.nextId + 1
  {
    assert LedgerOk(s.ledger, job.session, SlotOf(s, job.session)) && s.nextId !in s.ledger by {
      assert SessionOk(s, job.session);
    }
    AcceptLedgerKeys(s, job);
    hide Inv, LedgerOk, Moves, SameHolder, AcceptLedger, Accept;
    AcceptLedgerMoves(s, job);
  }

  lemma {:induction false} AcceptLedgerKeys(s: State, job: Job)
    requires Inv(s)
    ensures forall id: nat :: id in AcceptLedger(s, job) <==> id < s.nextId + 1
  {
    LedgerKeys(s, job.session, Accept(s, job).queue, Coalesced);
    hide Settle, Ids, Accept;
    LedgerGrows(s.ledger, Settle(s.ledger, Ids(Queue(s, job.session)) - Ids(Accept(s, job).queue), Coalesced),
                AcceptLedger(s, job), s.nextId, job.session);
  }

  lemma {:induction false} LedgerGrows(before: map<nat, Place>, settled: map<nat, Place>, after: map<nat, Place>,
                                       next: nat, sid: string)
    requires (forall id: nat :: id in before <==> id < next) && settled.Keys == before.Keys
    requires after == settled[next := Queued(sid)]
    ensures forall id: nat :: id in after <==> id < next + 1
  {
    assert forall id :: id in settled <==> id in before;
  }

  lemma {:induction false} AcceptLedgerMoves(s: State, job: Job)
    requires LedgerOk(s.ledger, job.session, SlotOf(s, job.session)) && s.nextId !in s.ledger
    requires SameHolder(SlotOf(s, job.session), Accept(s, job))
    ensures Moves(s.ledger, AcceptLedger(s, job), job.session)
    ensures LedgerOk(AcceptLedger(s, job), job.session, Accept(s, job))
  {
    hide LedgerOk, Moves, SameHolder, Settle, Ids, Coalesce;
    AcceptedLedger(s.ledger, s.nextId, job, job.session, SlotOf(s, job.session), Accept(s, job));
  }

  lemma {:induction false} AdmittedCounts(s: State, job: Job)
    requires !Overflows(s, job)
    ensures PendingCount(s.pending) + |Accept(s, job).queue| - |Queue(s, job.session)| <= s.limits.maxPending
    ensures Held(Accept(s, job).active) == Held(SlotOf(s, job.session).active)
  {
    CoalesceHolds(Queue(s, job.session), Entry(s.nextId, job), false);
    hide PendingCount, Replaced, Coalesce;
  }

  /** A live request for the same segment, at a newer revision. */
  ghost predicate NewerIsLive(s: State, job: Job) {
    || (exists e :: e in Queue(s, job.session) && IsNewer(e.job, job))
    || (job.session in s.active && !s.active[job.session].stale && IsNewer(s.active[job.session].entry.job, job))
  }

  ghost predicate IsNewer(other: Job, job: Job) {
    (other.session, other.generation, other.segment) == (job.session, job.generation, job.segment)
    && job.revision < other.revision
  }

  /** A job is refused exactly when the scheduler is closing, a newer revision of its
      segment is live, or what it would leave queued, everything it replaces gone, would
      exceed a limit; for the first of these that holds. */
  lemma {:induction false} SubmittedIff(s: State, job: Job)
    ensures var room := PendingCount(Admitted(s, job).pending) <= s.limits.maxPending
                        && |Queue(Admitted(s, job), job.session)| <= s.limits.maxPerSession;
      match Submitted(s, job)
      case Err(Closed) => s.closing
      case Err(StaleRevision) => !s.closing && NewerIsLive(s, job)
      case Err(QueueFull) => !s.closing && !NewerIsLive(s, job) && !room
      case Ok(t) => !s.closing && !NewerIsLive(s, job) && room && t == Admitted(s, job)
  {
    OutrunIff(s, job);
    CoalesceHolds(Queue(s, job.session), Entry(s.nextId, job), false);
    AdmittedQueue(s, job);
    hide PendingCount, Replaced, Coalesce, Admitted, Outrun, NewerIsLive;
  }

  lemma {:induction false} OutrunIff(s: State, job: Job)
    ensures Outrun(s, job) <==> NewerIsLive(s, job)
  {
    if e :| e in Queue(s, job.session) && Outdated(e, job) { assert IsNewer(e.job, job); }
    if e :| e in Queue(s, job.session) && IsNewer(e.job, job) { assert Outdated(e, job); }
  }

  lemma {:induction false} AdmittedQueue(s: State, job: Job)
    ensures var q, t := Coalesce(Queue(s, job.session), Entry(s.nextId, job), false), Admitted(s, job);
      && Queue(t, job.session) == q
      && PendingCount(t.pending) == PendingCount(s.pending) + |q| - |Queue(s, job.session)|
  {
    EditCount(s.pending, job.session, Accept(s, job).queue);
    CoalesceHolds(Queue(s, job.session), Entry(s.nextId, job), false);
    hide PendingCount, Coalesce, AcceptLedger, Settle;
  }

  /** The new entry stands where the first one it replaces stood, or at the end; the others
      keep their order. */
  lemma {:induction false} CoalescePlace(q: seq<Entry>, entry: Entry, i: nat)
    requires i <= |q| && (forall k :: 0 <= k < i ==> !Replaceable(q[k], entry.job))
    requires i < |q| ==> Replaceable(q[i], entry.job)
    ensures Coalesce(q, entry, false)
         == q[..i] + [entry] + if i < |q| then NotReplaced(q[i + 1..], entry.job) else []
  {
    hide Replaceable, NotReplaced;
    if q == [] {
      assert q[..i] + [entry] + [] == [entry];
    } else if i == 0 {
      PlacedAlready(q[1..], entry);
      assert q[..0] + [entry] == [entry];
    } else {
      CoalescePlace(q[1..], entry, i - 1);
      var rest := if i < |q| then NotReplaced(q[i + 1..], entry.job) else [];
      if i < |q| { assert q[1..][i..] == q[i + 1..]; }
      assert [q[0]] + (q[1..][..i - 1] + [entry] + rest) == q[..i] + [entry] + rest;
    }
  }

  lemma {:induction false} PlacedAlready(q: seq<Entry>, entry: Entry)
    ensures Coalesce(q, entry, true) == NotReplaced(q, entry.job)
  {
    if q != [] {
      PlacedAlready(q[1..], entry);
    }
  }

  lemma {:induction false} AcceptedSlot(s: State, job: Job)
    requires Inv(s) && !s.closing && !Outrun(s, job) && !Overflows(s, job)
    ensures SlotOk(s.limits, job.session, Accept(s, job))
    ensures SameHolder(SlotOf(s, job.session), Accept(s, job)) && Accept(s, job).queue != []
  {
    var q, entry := Queue(s, job.session), Entry(s.nextId, job);
    assert SessionOk(s, job.session);
    CoalesceHolds(q, entry, false);
    CoalesceOk(q, entry, false);
    assert entry in Coalesce(q, entry, false);
  }

  lemma {:induction false} LedgerKeys(s: State, sid: string, rest: seq<Entry>, place: Place)
    requires Inv(s)
    ensures Settle(s.ledger, Ids(Queue(s, sid)) - Ids(rest), place).Keys == s.ledger.Keys
  {
    assert SessionOk(s, sid);
  }

  lemma {:induction false} DiscardFits(s: State, sid: string, v: Slot, ledger: map<nat, Place>)
    requires Inv(s) && SameHolder(SlotOf(s, sid), v)
    requires (forall e :: e in v.queue ==> e in Queue(s, sid)) && |v.queue| <= |Queue(s, sid)|
    requires Orderly(v.queue) && Unique(v.queue)
    requires v.active.Some? && SlotOf(s, sid).active.value.stale ==> v.active.value.stale
    requires ledger == Settle(s.ledger, Ids(Queue(s, sid)) - Ids(v.queue), Discarded)
    ensures Fits(s, sid, v, ledger, s.idle, s.nextId)
  {
    assert SessionOk(s, sid);
    SettledLedger(s.ledger, sid, SlotOf(s, sid), v, Discarded);
    LedgerKeys(s, sid, v.queue, Discarded);
  }

  lemma {:induction false} CancelKeeps(s: State, sid: string)
    requires Inv(s)
    ensures Inv(CancelSession(s, sid))
  {
    var v := Slot([], Stale(SlotOf(s, sid).active));
    var ledger := Settle(s.ledger, Ids(Queue(s, sid)) - Ids(v.queue), Discarded);
    CancelIs(s, sid, v, ledger);
    DiscardFits(s, sid, v, ledger);
    EditForgetKeeps(s, sid, v, ledger, s.idle, s.nextId);
  }

  lemma {:induction false} CancelIs(s: State, sid: string, v: Slot, ledger: map<nat, Place>)
    requires v == Slot([], Stale(SlotOf(s, sid).active))
    requires ledger == Settle(s.ledger, Ids(Queue(s, sid)) - Ids(v.queue), Discarded)
    ensures CancelSession(s, sid) == ForgetReady(Edit(s, sid, v, ledger, s.idle, s.nextId), sid)
  {
  }

  lemma {:induction false} OutsideHolds(q: seq<Entry>, segments: set<nat>)
    ensures forall e :: e in Outside(q, segments) <==> e in q && e.job.segment !in segments
    ensures |Outside(q, segments)| <= |q|
  {
    if q != [] {
      OutsideHolds(q[1..], segments);
      assert q == [q[0]] + q[1..];
    }
  }

  lemma {:induction false} OutsideOk(q: seq<Entry>, segments: set<nat>)
    requires Orderly(q) && Unique(q)
    ensures Orderly(Outside(q, segments)) && Unique(Outside(q, segments))
  {
    if q != [] {
      TailOk(q);
      OutsideOk(q[1..], segments);
      OutsideHolds(q[1..], segments);
      if q[0].job.segment !in segments {
        ConsOk(q[0], Outside(q[1..], segments));
      }
    }
  }

  lemma {:induction false} InvalidateKeeps(s: State, sid: string, segments: set<nat>)
    requires Inv(s)
    ensures Inv(Invalidate(s, sid, segments))
  {
    var v := Spare(SlotOf(s, sid), segments);
    var ledger := Settle(s.ledger, Ids(Queue(s, sid)) - Ids(v.queue), Discarded);
    InvalidateIs(s, sid, segments, v, ledger);
    assert SessionOk(s, sid);
    OutsideHolds(Queue(s, sid), segments);
    OutsideOk(Queue(s, sid), segments);
    DiscardFits(s, sid, v, ledger);
    if sid in s.pending && v.queue == [] {
      EditForgetKeeps(s, sid, v, ledger, s.idle, s.nextId);
    } else {
      EditSameKeeps(s, sid, v, ledger, s.idle, s.nextId);
    }
  }

  lemma {:induction false} InvalidateIs(s: State, sid: string, segments: set<nat>, v: Slot, ledger: map<nat, Place>)
    requires v == Spare(SlotOf(s, sid), segments)
    requires ledger == Settle(s.ledger, Ids(Queue(s, sid)) - Ids(v.queue), Discarded)
    ensures var t := Edit(s, sid, v, ledger, s.idle, s.nextId);
      Invalidate(s, sid, segments) == if sid in s.pending && v.queue == [] then ForgetReady(t, sid) else t
  {
  }

  lemma {:induction false} EditSameKeeps(s: State, sid: string, v: Slot, ledger: map<nat, Place>, idle: nat,
                                         nextId: nat)
    requires Inv(s) && Fits(s, sid, v, ledger, idle, nextId)
    requires sid in s.readySet <==> v.queue != [] && v.active.None?
    ensures Inv(Edit(s, sid, v, ledger, idle, nextId))
  {
    EditKeeps(s, sid, v, ledger, idle, nextId, s.ready, s.readySet);
  }

  /** With the invariant the first ready session always has work and a free slot, so
      the inner loop of the take never skips one. */
  lemma {:induction false} TakeIs(s: State)
    requires Inv(s) && !s.closing && s.idle > 0 && s.ready != []
    ensures Queue(s, s.ready[0]) != [] && s.ready[0] !in s.active
    ensures Take(s) == Occupy(s.(ready := s.ready[1..], readySet := s.readySet - {s.ready[0]}), s.ready[0])
  {
    assert s.ready[0] in s.ready;
    assert SessionOk(s, s.ready[0]);
  }

  lemma {:induction false} TakeKeeps(s: State)
    requires Inv(s)
    ensures Inv(Take(s))
  {
    if !s.closing && s.idle > 0 && s.ready != [] {
      var sid := s.ready[0];
      var q := Queue(s, sid);
      TakeIs(s);
      var v, ledger := Slot(q[1..], Some(Active(q[0], false, Taken))), s.ledger[q[0].id := Running(sid)];
      OccupyIs(s, sid, v, ledger);
      OccupyFits(s, sid, v, ledger);
      assert forall x :: x in s.ready[1..] <==> x in s.readySet - {sid} by {
        RestOfReady(s.ready);
      }
      EditKeeps(s, sid, v, ledger, s.idle - 1, s.nextId, s.ready[1..], s.readySet - {sid});
    }
  }

  lemma {:induction false} RestOfReady(ready: seq<string>)
    requires Distinct(ready) && ready != []
    ensures forall x :: x in ready[1..] <==> x in ready && x != ready[0]
  {
    forall x | x in ready[1..]
      ensures x in ready && x != ready[0]
    {
      var i :| 0 <= i < |ready[1..]| && ready[1..][i] == x;
      assert ready[i + 1] == x;
    }
    assert ready == [ready[0]] + ready[1..];
  }

  lemma {:induction false} OccupyIs(s: State, sid: string, v: Slot, ledger: map<nat, Place>)
    requires Queue(s, sid) != [] && s.idle > 0 && s.ready != []
    requires var q := Queue(s, sid);
      v == Slot(q[1..], Some(Active(q[0], false, Taken))) && ledger == s.ledger[q[0].id := Running(sid)]
    ensures Occupy(s.(ready := s.ready[1..], readySet := s.readySet - {sid}), sid)
         == Edit(s, sid, v, ledger, s.idle - 1, s.nextId).(ready := s.ready[1..], readySet := s.readySet - {sid})
  {
  }

  lemma {:induction false} StartedLedger(ledger: map<nat, Place>, sid: string, q: seq<Entry>)
    requires q != [] && Unique(q) && LedgerOk(ledger, sid, Slot(q, None))
    ensures var after := ledger[q[0].id := Running(sid)];
      Moves(ledger, after, sid) && LedgerOk(after, sid, Slot(q[1..], Some(Active(q[0], false, Taken))))
  {
    TailIds(q);
    assert q[0] in q;
    hide Unique, Ids;
  }

  lemma {:induction false} TailIds(q: seq<Entry>)
    requires q != [] && Unique(q)
    ensures q[0].id !in Ids(q[1..]) && Ids(q) == {q[0].id} + Ids(q[1..])
    ensures forall e :: e in q[1..] ==> e in q && e.id != q[0].id
  {
    assert q == [q[0]] + q[1..];
    forall e | e in q[1..]
      ensures e in q && e.id != q[0].id
    {
      var i :| 0 <= i < |q[1..]| && q[1..][i] == e;
      assert q[i + 1] == e;
    }
  }

  lemma {:induction false} OccupyFits(s: State, sid: string, v: Slot, ledger: map<nat, Place>)
    requires Inv(s) && !s.closing && s.idle > 0 && Queue(s, sid) != [] && sid !in s.active
    requires var q := Queue(s, sid);
      v == Slot(q[1..], Some(Active(q[0], false, Taken))) && ledger == s.ledger[q[0].id := Running(sid)]
    ensures Fits(s, sid, v, ledger, s.idle - 1, s.nextId)
  {
    var q := Queue(s, sid);
    assert SessionOk(s, sid);
    StartedLedger(s.ledger, sid, q);
    assert SlotOk(s.limits, sid, v) by {
      TailOk(q);
      assert q == [q[0]] + q[1..];
    }
    assert q[0] in q;
  }

  lemma {:induction false} HoldIs(s: State, sid: string, a: Option<Active>, ledger: map<nat, Place>, idle: nat)
    requires sid in s.pending ==> s.pending[sid] != []
    ensures Hold(s, sid, a, ledger, idle) == Edit(s, sid, Slot(Queue(s, sid), a), ledger, idle, s.nextId)
  {
  }

  lemma {:induction false} PhasedKeeps(s: State, sid: string, phase: Phase, ledger: map<nat, Place>)
    requires Inv(s) && sid in s.active && Moves(s.ledger, ledger, sid) && ledger.Keys == s.ledger.Keys
    requires LedgerOk(ledger, sid, Slot(Queue(s, sid), Some(s.active[sid].(phase := phase))))
    ensures Inv(Phased(s, sid, phase, ledger))
  {
    var v := Slot(Queue(s, sid), Some(s.active[sid].(phase := phase)));
    assert SessionOk(s, sid);
    assert Fits(s, sid, v, ledger, s.idle, s.nextId);
    HoldIs(s, sid, v.active, ledger, s.idle);
    EditSameKeeps(s, sid, v, ledger, s.idle, s.nextId);
  }

  lemma {:induction false} BeginKeeps(s: State, sid: string)
    requires Inv(s)
    ensures Inv(Begin(s, sid))
  {
    if sid in s.active && s.active[sid].phase == Taken {
      assert SessionOk(s, sid);
      if s.active[sid].stale {
        PhasedKeeps(s, sid, Done, s.ledger[s.active[sid].entry.id := Discarded]);
      } else {
        PhasedKeeps(s, sid, Requested, s.ledger);
      }
    }
  }

  lemma {:induction false} ReturnKeeps(s: State, sid: string)
    requires Inv(s)
    ensures Inv(Return(s, sid))
  {
    if sid in s.active && s.active[sid].phase == Requested {
      assert SessionOk(s, sid);
      if s.active[sid].stale || s.closing {
        PhasedKeeps(s, sid, Done, s.ledger[s.active[sid].entry.id := Discarded]);
      } else {
        PhasedKeeps(s, sid, Calling, s.ledger[s.active[sid].entry.id := Delivered]);
      }
    }
  }

  lemma {:induction false} CallbackKeeps(s: State, sid: string)
    requires Inv(s)
    ensures Inv(CallbackDone(s, sid))
  {
    if sid in s.active && s.active[sid].phase == Calling {
      assert SessionOk(s, sid);
      PhasedKeeps(s, sid, Done, s.ledger);
    }
  }

  lemma {:induction false} FinishKeeps(s: State, sid: string)
    requires Inv(s)
    ensures Inv(Finish(s, sid))
  {
    if sid in s.active && s.active[sid].phase == Done {
      FinishFits(s, sid);
      hide Fits, Global, SessionOk, Edit, Hold, MarkReady;
      HoldIs(s, sid, None, s.ledger, s.idle + 1);
      EditMarkKeeps(s, sid, Slot(Queue(s, sid), None), s.ledger, s.idle + 1, s.nextId);
    }
  }

  lemma {:induction false} FinishFits(s: State, sid: string)
    requires Inv(s) && sid in s.active && s.active[sid].phase == Done
    ensures Fits(s, sid, Slot(Queue(s, sid), None), s.ledger, s.idle + 1, s.nextId)
    ensures sid !in s.readySet
    ensures sid in s.pending ==> s.pending[sid] != []
  {
    assert SessionOk(s, sid);
  }

  lemma {:induction false} CloseLedger(s: State, sid: string)
    requires LedgerOk(s.ledger, sid, SlotOf(s, sid))
    ensures LedgerOk(Close(s).ledger, sid, SlotOf(Close(s), sid))
  {
  }

  lemma {:induction false} CloseKeeps(s: State)
    requires Inv(s)
    ensures Inv(Close(s))
  {
    var t := Close(s);
    assert t.active.Keys == s.active.Keys;
    assert t.ledger.Keys == s.ledger.Keys;
    forall sid
      ensures SessionOk(t, sid)
    {
      assert SessionOk(s, sid);
      CloseLedger(s, sid);
    }
  }

  lemma {:induction false} StepKeeps(s: State, step: Step)
    requires Inv(s)
    ensures Inv(Apply(s, step))
  {
    match step
    case DoSubmit(job) =>
      if Submitted(s, job).Ok? { AdmittedKeeps(s, job); }
    case DoCancel(sid) => CancelKeeps(s, sid);
    case DoInvalidate(sid, segments) => InvalidateKeeps(s, sid, segments);
    case DoTake => TakeKeeps(s);
    case DoBegin(sid) => BeginKeeps(s, sid);
    case DoReturn(sid) => ReturnKeeps(s, sid);
    case DoCallback(sid) => CallbackKeeps(s, sid);
    case DoFinish(sid) => FinishKeeps(s, sid);
    case DoClose => CloseKeeps(s);
  }

  // -------- Whole runs

  ghost function Run(s: State, steps: seq<Step>): State
    decreases |steps|
  {
    if steps == [] then s else Run(Apply(s, steps[0]), steps[1..])
  }

  lemma {:induction false} RunInv(s: State, steps: seq<Step>)
    requires Inv(s)
    ensures Inv(Run(s, steps))
    decreases |steps|
  {
    if steps != [] {
      StepKeeps(s, steps[0]);
      RunInv(Apply(s, steps[0]), steps[1..]);
    }
  }

  lemma {:induction false} InitialHolds(limits: Limits)
    ensures Inv(Initial(limits))
  {
    var s := Initial(limits);
    assert forall sid :: SlotOf(s, sid) == Slot([], None);
  }

  /** One session's queue is bounded and in order, and the session is ready exactly when it
      has work and no active job. */
  ghost predicate InTurn(s: State, sid: string) {
    && |Queue(s, sid)| <= s.limits.maxPerSession && Orderly(Queue(s, sid))
    && (sid in s.ready <==> Queue(s, sid) != [] && sid !in s.active)
    && (sid in s.active && !s.active[sid].stale ==>
          forall e :: e in Queue(s, sid) ==> Before(s.active[sid].entry.job, e.job))
  }

  /** In every run from the start: bounded, orderly queues; a ready deque without duplicates;
      at most one active job per session and `workers` in all. */
  lemma {:induction false} RunKeeps(limits: Limits, steps: seq<Step>)
    ensures var s := Run(Initial(limits), steps);
      && s.idle + |s.active| == s.limits.workers && PendingCount(s.pending) <= s.limits.maxPending
      && Distinct(s.ready) && forall sid :: InTurn(s, sid)
  {
    InitialHolds(limits);
    RunInv(Initial(limits), steps);
    var s := Run(Initial(limits), steps);
    hide Run, PendingCount, LedgerOk, Orderly, Before;
    forall sid
      ensures InTurn(s, sid)
    {
      assert SessionOk(s, sid);
    }
  }

  // -------- Finals survive queue pressure

  /** Admission removes no queued final and marks no final request stale. */
  lemma {:induction false} AdmissionSparesFinals(s: State, job: Job)
    ensures forall sid :: SparesFinals(s, Admitted(s, job), sid, job)
  {
    var t := Admitted(s, job);
    forall sid
      ensures SparesFinals(s, t, sid, job)
    {
      AdmittedSlot(s, job, sid);
      CoalesceHolds(Queue(s, job.session), Entry(s.nextId, job), false);
      assert SlotOf(t, sid).queue == Queue(t, sid) && SlotOf(s, sid).queue == Queue(s, sid);
      assert sid == job.session && sid in s.active && s.active[sid].entry.job.final ==> !Superseded(s, job);
    }
  }

  /** Final requests stay queued, or active and as they were; so does every request of
      another session. */
  ghost predicate SparesFinals(s: State, t: State, sid: string, job: Job) {
    && (forall e :: e in Queue(s, sid) && (sid != job.session || e.job.final) ==> e in Queue(t, sid))
    && (sid in s.active && (sid != job.session || s.active[sid].entry.job.final) ==>
          sid in t.active && t.active[sid] == s.active[sid])
  }

  /** Admission changes the slot of the job's session alone. */
  lemma {:induction false} AdmittedSlot(s: State, job: Job, sid: string)
    ensures SlotOf(Admitted(s, job), sid) == if sid == job.session then Accept(s, job) else SlotOf(s, sid)
  {
    AdmittedIs(s, job);
    var v, ledger := Accept(s, job), AcceptLedger(s, job);
    var t := Edit(s, job.session, v, ledger, s.idle, s.nextId + 1);
    hide Accept, AcceptLedger, Admitted;
    EditIs(s, job.session, v, ledger, s.idle, s.nextId + 1);
    SameSlots(t, MarkReady(t, job.session));
  }

  /** A final that is already active can be followed by a queued revision of its segment. */
  lemma {:induction false} FinalCanBeFollowed()
    ensures var first := Job("s", 0, 1, 1, true, "a");
            var second := Job("s", 0, 1, 2, true, "b");
            var s := Run(Initial(Limits(1, 2, 2)), [DoSubmit(first), DoTake, DoSubmit(second)]);
      && "s" in s.active && s.active["s"] == Active(Entry(0, first), false, Taken)
      && Queue(s, "s") == [Entry(1, second)]
  {
    var first, second := Job("s", 0, 1, 1, true, "a"), Job("s", 0, 1, 2, true, "b");
    var steps := [DoSubmit(first), DoTake, DoSubmit(second)];
    var s0 := Initial(Limits(1, 2, 2));
    FirstSubmitted(s0, first);
    var s1 := Admitted(s0, first);
    FirstTaken(s1, first);
    var s2 := Occupy(s1.(ready := [], readySet := {}), "s");
    SecondSubmitted(s2, first, second);
    assert Apply(s0, steps[0]) == s1 && Apply(s1, steps[1]) == s2 && Apply(s2, steps[2]) == Admitted(s2, second);
    hide Apply, Admitted, Occupy;
    assert steps[1..][1..] == [DoSubmit(second)] && steps[1..][1..][1..] == [];
    assert Run(s0, steps) == Run(s1, steps[1..]) == Run(s2, [DoSubmit(second)]) == Run(Admitted(s2, second), []);
  }

  lemma {:induction false} FirstSubmitted(s: State, job: Job)
    requires s == Initial(Limits(1, 2, 2)) && job == Job("s", 0, 1, 1, true, "a")
    ensures Submitted(s, job) == Ok(Admitted(s, job))
    ensures var t := Admitted(s, job);
      && t.pending == map["s" := [Entry(0, job)]] && t.active == map[] && t.ready == ["s"] && t.readySet == {"s"}
      && t.idle == 1 && !t.closing && t.nextId == 1 && t.limits == s.limits
  {
    assert Coalesce([], Entry(0, job), false) == [Entry(0, job)];
    assert Replaced([], job) == [] && PendingCount(map[]) == 0;
  }

  lemma {:induction false} FirstTaken(s: State, job: Job)
    requires s.pending == map["s" := [Entry(0, job)]] && s.active == map[] && s.ready == ["s"] && s.readySet == {"s"}
    requires s.idle == 1 && !s.closing && s.nextId == 1
    ensures Take(s) == Occupy(s.(ready := [], readySet := {}), "s")
    ensures var t := Take(s);
      && t.pending == map[] && t.active == map["s" := Active(Entry(0, job), false, Taken)] && !t.closing
      && t.nextId == 1 && t.limits == s.limits
  {
    assert s.ready[1..] == [] && s.readySet - {"s"} == {};
    assert [Entry(0, job)][1..] == [];
    assert map["s" := [Entry(0, job)]] - {"s"} == map[];
  }

  lemma {:induction false} SecondSubmitted(s: State, first: Job, second: Job)
    requires first == Job("s", 0, 1, 1, true, "a") && second == Job("s", 0, 1, 2, true, "b")
    requires s.pending == map[] && s.active == map["s" := Active(Entry(0, first), false, Taken)] && !s.closing
    requires s.nextId == 1 && s.limits == Limits(1, 2, 2)
    ensures Submitted(s, second) == Ok(Admitted(s, second))
    ensures var t := Admitted(s, second); t.active == s.active && Queue(t, "s") == [Entry(1, second)]
  {
    assert Coalesce([], Entry(1, second), false) == [Entry(1, second)];
    assert Replaced([], second) == [] && PendingCount(map[]) == 0;
    assert s.active["s" := s.active["s"]] == s.active;
  }

  // -------- Delivery

  /** The entry's request is out, not stale, and the scheduler is open. */
  ghost predicate LiveRequest(s: State, id: nat) {
    id in s.ledger && s.ledger[id].Running? && !s.closing
    && var sid := s.ledger[id].session;
      sid in s.active && s.active[sid].entry.id == id && s.active[sid].phase == Requested && !s.active[sid].stale
  }

  /** The entry has no callback and never will. */
  ghost predicate Doomed(s: State, id: nat) {
    id in s.ledger && match s.ledger[id]
      case Coalesced => true
      case Discarded => true
      case Running(sid) => sid in s.active && s.active[sid].stale
      case _ => false
  }

  /** From one state to the next, only live requests are delivered, what was delivered
      stays so, and the doomed stay doomed. */
  ghost predicate Fates(s: State, t: State) {
    forall id :: id in s.ledger ==> FateOf(s, t, id)
  }

  ghost predicate FateOf(s: State, t: State, id: nat)
    requires id in s.ledger
  {
    && id in t.ledger
    && (s.ledger[id] == Delivered ==> t.ledger[id] == Delivered)
    && (t.ledger[id] == Delivered ==> s.ledger[id] == Delivered || LiveRequest(s, id))
    && (Doomed(s, id) ==> Doomed(t, id))
  }

  lemma {:induction false} EditFates(s: State, sid: string, v: Slot, ledger: map<nat, Place>, idle: nat, nextId: nat)
    requires Moves(s.ledger, ledger, sid)
    requires forall id :: id in s.ledger && s.ledger[id] in {Queued(sid), Running(sid)} ==>
      && (ledger[id] == Delivered ==> LiveRequest(s, id))
      && (s.ledger[id] == Running(sid) && sid in s.active && s.active[sid].stale ==>
            ledger[id] == Discarded || (ledger[id] == Running(sid) && v.active.Some? && v.active.value.stale))
    ensures Fates(s, Edit(s, sid, v, ledger, idle, nextId))
  {
  }

  lemma {:induction false} ReadyFates(s: State, t: State, ready: seq<string>, readySet: set<string>)
    requires Fates(s, t)
    ensures Fates(s, t.(ready := ready, readySet := readySet))
  {
  }

  lemma {:induction false} SubmitFates(s: State, job: Job)
    requires Inv(s)
    ensures Fates(s, Admitted(s, job))
  {
    var t := Edit(s, job.session, Accept(s, job), AcceptLedger(s, job), s.idle, s.nextId + 1);
    AdmissionFates(s, job, Accept(s, job), AcceptLedger(s, job));
    AdmittedIs(s, job);
    MarkReadyIs(t, job.session);
    ReadyFates(s, t, MarkReady(t, job.session).ready, MarkReady(t, job.session).readySet);
  }

  lemma {:induction false} AdmissionFates(s: State, job: Job, v: Slot, ledger: map<nat, Place>)
    requires Inv(s) && v == Accept(s, job) && ledger == AcceptLedger(s, job)
    ensures Fates(s, Edit(s, job.session, v, ledger, s.idle, s.nextId + 1))
  {
    AdmissionMoves(s, job, v, ledger);
    EditFates(s, job.session, v, ledger, s.idle, s.nextId + 1);
  }

  /** Admission only coalesces queued entries. */
  lemma {:induction false} AdmissionMoves(s: State, job: Job, v: Slot, ledger: map<nat, Place>)
    requires Inv(s) && v == Accept(s, job) && ledger == AcceptLedger(s, job)
    ensures OnlySettles(s.ledger, ledger, job.session, Coalesced)
    ensures job.session in s.active && s.active[job.session].stale ==> v.active.Some? && v.active.value.stale
  {
    var gone := Ids(Queue(s, job.session)) - Ids(v.queue);
    assert forall id :: id in gone ==> id in s.ledger && s.ledger[id] == Queued(job.session) by {
      assert SessionOk(s, job.session);
    }
    SettleOnly(s.ledger, job.session, gone, Coalesced, s.nextId);
  }

  ghost predicate OnlySettles(before: map<nat, Place>, after: map<nat, Place>, sid: string, place: Place) {
    && (forall id :: id in before ==>
          id in after && (after[id] == before[id] || (before[id] == Queued(sid) && after[id] == place)))
    && (forall id :: id in after && id !in before ==> after[id] == Queued(sid))
  }

  lemma {:induction false} SettleOnly(ledger: map<nat, Place>, sid: string, gone: set<nat>, place: Place, next: nat)
    requires forall id :: id in gone ==> id in ledger && ledger[id] == Queued(sid)
    requires next !in ledger
    ensures OnlySettles(ledger, Settle(ledger, gone, place)[next := Queued(sid)], sid, place)
  {
  }

  lemma {:induction false} MarkReadyIs(s: State, sid: string)
    ensures MarkReady(s, sid) == s.(ready := MarkReady(s, sid).ready, readySet := MarkReady(s, sid).readySet)
  {
  }

  lemma {:induction false} DiscardFates(s: State, sid: string, v: Slot)
    requires Inv(s)
    requires sid in s.active && s.active[sid].stale ==> v.active.Some? && v.active.value.stale
    ensures Fates(s, Discard(s, sid, v))
  {
    assert SessionOk(s, sid);
    EditFates(s, sid, v, Settle(s.ledger, Ids(Queue(s, sid)) - Ids(v.queue), Discarded), s.idle, s.nextId);
  }

  lemma {:induction false} CancelFates(s: State, sid: string)
    requires Inv(s)
    ensures Fates(s, CancelSession(s, sid))
  {
    var v := Slot([], Stale(SlotOf(s, sid).active));
    DiscardFates(s, sid, v);
    ReadyFates(s, Discard(s, sid, v), Removing(s.ready, sid), s.readySet - {sid});
  }

  lemma {:induction false} InvalidateFates(s: State, sid: string, segments: set<nat>)
    requires Inv(s)
    ensures Fates(s, Invalidate(s, sid, segments))
  {
    var v := Spare(SlotOf(s, sid), segments);
    DiscardFates(s, sid, v);
    ReadyFates(s, Discard(s, sid, v), Removing(s.ready, sid), s.readySet - {sid});
  }

  lemma {:induction false} TakeFates(s: State)
    requires Inv(s)
    ensures Fates(s, Take(s))
  {
    if !s.closing && s.idle > 0 && s.ready != [] {
      TakeIs(s);
      var sid := s.ready[0];
      var q := Queue(s, sid);
      var v, ledger := Slot(q[1..], Some(Active(q[0], false, Taken))), s.ledger[q[0].id := Running(sid)];
      OccupyIs(s, sid, v, ledger);
      assert SessionOk(s, sid);
      StartedLedger(s.ledger, sid, q);
      EditFates(s, sid, v, ledger, s.idle - 1, s.nextId);
      ReadyFates(s, Edit(s, sid, v, ledger, s.idle - 1, s.nextId), s.ready[1..], s.readySet - {sid});
    }
  }

  lemma {:induction false} HoldFates(s: State, sid: string, a: Option<Active>, ledger: map<nat, Place>, idle: nat)
    requires Moves(s.ledger, ledger, sid)
    requires forall id :: id in s.ledger && s.ledger[id] in {Queued(sid), Running(sid)} ==>
      && (ledger[id] == Delivered ==> LiveRequest(s, id))
      && (s.ledger[id] == Running(sid) && sid in s.active && s.active[sid].stale ==>
            ledger[id] == Discarded || (ledger[id] == Running(sid) && a.Some? && a.value.stale))
    ensures Fates(s, Hold(s, sid, a, ledger, idle))
  {
  }

  lemma {:induction false} PhasedFates(s: State, sid: string, phase: Phase, ledger: map<nat, Place>)
    requires sid in s.active && Moves(s.ledger, ledger, sid)
    requires forall id :: id in s.ledger && s.ledger[id] in {Queued(sid), Running(sid)} ==>
      ledger[id] == s.ledger[id] || ledger[id] == Discarded || (ledger[id] == Delivered && LiveRequest(s, id))
    ensures Fates(s, Phased(s, sid, phase, ledger))
  {
    HoldFates(s, sid, Some(s.active[sid].(phase := phase)), ledger, s.idle);
  }

  lemma {:induction false} BeginFates(s: State, sid: string)
    requires Inv(s)
    ensures Fates(s, Begin(s, sid))
  {
    assert SessionOk(s, sid);
    if sid in s.active && s.active[sid].phase == Taken {
      PhasedFates(s, sid, Requested, s.ledger);
      PhasedFates(s, sid, Done, s.ledger[s.active[sid].entry.id := Discarded]);
    }
  }

  lemma {:induction false} CallbackFates(s: State, sid: string)
    ensures Fates(s, CallbackDone(s, sid))
  {
    if sid in s.active && s.active[sid].phase == Calling {
      PhasedFates(s, sid, Done, s.ledger);
    }
  }

  lemma {:induction false} FinishFates(s: State, sid: string)
    requires Inv(s)
    ensures Fates(s, Finish(s, sid))
  {
    if sid in s.active && s.active[sid].phase == Done {
      assert SessionOk(s, sid);
      var t := Hold(s, sid, None, s.ledger, s.idle + 1);
      HoldFates(s, sid, None, s.ledger, s.idle + 1);
      MarkReadyIs(t, sid);
      ReadyFates(s, t, MarkReady(t, sid).ready, MarkReady(t, sid).readySet);
    }
  }

  lemma {:induction false} CloseFates(s: State)
    requires Inv(s)
    ensures Fates(s, Close(s))
  {
  }

  lemma {:induction false} ReturnFates(s: State, sid: string)
    requires Inv(s)
    ensures Fates(s, Return(s, sid))
  {
    assert SessionOk(s, sid);
    if sid in s.active && s.active[sid].phase == Requested {
      var id := s.active[sid].entry.id;
      if s.active[sid].stale || s.closing {
        PhasedFates(s, sid, Done, s.ledger[id := Discarded]);
      } else {
        PhasedFates(s, sid, Calling, s.ledger[id := Delivered]);
      }
    }
  }

  /** A callback starts only for a live request of an open scheduler, and never again;
      a superseded, cancelled or invalidated entry never gets one. */
  lemma {:induction false} StepFates(s: State, step: Step)
    requires Inv(s)
    ensures Fates(s, Apply(s, step))
  {
    hide CancelSession, Invalidate, Take, Begin, Return, CallbackDone, Finish, Close, Admitted, Doomed, LiveRequest;
    match step
    case DoSubmit(job) => SubmitFates(s, job);
    case DoCancel(sid) => CancelFates(s, sid);
    case DoInvalidate(sid, segments) => InvalidateFates(s, sid, segments);
    case DoTake => TakeFates(s);
    case DoBegin(sid) => BeginFates(s, sid);
    case DoReturn(sid) => ReturnFates(s, sid);
    case DoCallback(sid) => CallbackFates(s, sid);
    case DoFinish(sid) => FinishFates(s, sid);
    case DoClose => CloseFates(s);
  }

  /** Over a whole run, delivered stays delivered and doomed stays doomed, so an entry
      that was stale once is never delivered later. */
  lemma {:induction false} RunFates(s: State, steps: seq<Step>, id: nat)
    requires Inv(s) && id in s.ledger
    ensures id in Run(s, steps).ledger
    ensures s.ledger[id] == Delivered ==> Run(s, steps).ledger[id] == Delivered
    ensures Doomed(s, id) ==> Run(s, steps).ledger[id] != Delivered
    decreases |steps|
  {
    if steps != [] {
      StepKeeps(s, steps[0]);
      StepFates(s, steps[0]);
      RunFates(Apply(s, steps[0]), steps[1..], id);
    }
  }

  /** Closing dooms everything not yet delivered. */
  lemma {:induction false} CloseDooms(s: State, id: nat)
    requires Inv(s) && id in s.ledger && s.ledger[id] != Delivered
    ensures Doomed(Close(s), id)
  {
    if s.ledger[id].Running? {
      assert SessionOk(s, s.ledger[id].session);
    }
  }

  // -------- Fairness

  function Position(ready: seq<string>, sid: string): (k: nat)
    requires sid in ready
    ensures k < |ready| && ready[k] == sid
  {
    if ready[0] == sid then 0 else 1 + Position(ready[1..], sid)
  }

  predicate Serves(s: State, step: Step) {
    step.DoTake? && !s.closing && s.idle > 0 && s.ready != []
  }

  lemma {:induction false} PositionWithout(ready: seq<string>, sid: string, gone: string)
    requires sid in ready && sid != gone
    ensures Position(Removing(ready, gone), sid) <= Position(ready, sid)
  {
    if ready[0] != sid {
      PositionWithout(ready[1..], sid, gone);
    }
  }

  lemma {:induction false} PositionAppend(ready: seq<string>, sid: string, more: string)
    requires sid in ready
    ensures Position(ready + [more], sid) == Position(ready, sid)
  {
    if ready[0] != sid {
      assert (ready + [more])[1..] == ready[1..] + [more];
      PositionAppend(ready[1..], sid, more);
    }
  }

  /** How a step treats the deque: nothing, an append, a removal, or one turn. */
  ghost predicate DequeStep(s: State, t: State, served: bool) {
    if served then s.ready != [] && t.ready == s.ready[1..]
    else t.ready == s.ready || t.ready == [] || (exists x :: t.ready == s.ready + [x])
         || (exists x :: t.ready == Removing(s.ready, x))
  }

  lemma {:induction false} StepDeque(s: State, step: Step)
    requires Inv(s)
    ensures DequeStep(s, Apply(s, step), Serves(s, step))
  {
    if Serves(s, step) {
      TakeIs(s);
    }
  }

  lemma {:induction false} TurnComesNearer(s: State, t: State, served: bool, sid: string)
    requires DequeStep(s, t, served) && sid in s.ready && sid in t.ready
    requires Distinct(s.ready)
    ensures Position(t.ready, sid) + (if served then 1 else 0) <= Position(s.ready, sid)
  {
    if served {
      if s.ready[0] == sid {
        RestOfReady(s.ready);
      }
    } else if t.ready != s.ready {
      if x :| t.ready == s.ready + [x] {
        PositionAppend(s.ready, sid, x);
      } else {
        var x :| t.ready == Removing(s.ready, x);
        PositionWithout(s.ready, sid, x);
      }
    }
  }

  ghost predicate Waits(s: State, steps: seq<Step>, sid: string)
    decreases |steps|
  {
    sid in s.ready && (steps != [] ==> Waits(Apply(s, steps[0]), steps[1..], sid))
  }

  ghost function Turns(s: State, steps: seq<Step>): nat
    decreases |steps|
  {
    if steps == [] then 0
    else (if Serves(s, steps[0]) then 1 else 0) + Turns(Apply(s, steps[0]), steps[1..])
  }

  lemma {:induction false} WaitsToEnd(s: State, steps: seq<Step>, sid: string)
    requires Waits(s, steps, sid)
    ensures sid in Run(s, steps).ready
    decreases |steps|
  {
    if steps != [] {
      WaitsToEnd(Apply(s, steps[0]), steps[1..], sid);
    }
  }

  /** A session that waits at position `k` is overtaken by at most `k` turns. */
  lemma {:induction false} OvertakenAtMost(s: State, steps: seq<Step>, sid: string)
    requires Inv(s) && Waits(s, steps, sid)
    ensures sid in Run(s, steps).ready
    ensures Position(Run(s, steps).ready, sid) + Turns(s, steps) <= Position(s.ready, sid)
    decreases |steps|
  {
    WaitsToEnd(s, steps, sid);
    if steps != [] {
      var t := Apply(s, steps[0]);
      StepKeeps(s, steps[0]);
      StepDeque(s, steps[0]);
      TurnComesNearer(s, t, Serves(s, steps[0]), sid);
      OvertakenAtMost(t, steps[1..], sid);
    }
  }
}
