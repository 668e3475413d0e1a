/** What disconnecting, resetting and closing mean for everything a session started before
    (app/session/state.py). */
module SessionLifetime {
  import opened Wrappers
  import opened Session
  import opened SessionInvariant
  import opened SessionRuns
  import opened SessionSteps

  // -------- Generations

  /** The actions that cut a session off from the timers and jobs it started. */
  predicate CutsOff(s: Session, a: Action) {
    s.pc == Idle && (a.Detach? || a.Reset? || a.Close?)
  }

  /** Every cut starts a new generation and nothing else does; a session connects unless it
      is closed, and a close is for good. */
  ghost predicate LivesOn(s: Session, a: Action, r: Session) {
    && r.generation == s.generation + (if CutsOff(s, a) then 1 else 0)
    && r.closed == (s.closed || (s.pc == Idle && a.Close?))
    && r.connected == if s.pc == Idle && a.Detach? then false
                      else s.connected || (s.pc == Idle && a.Attach? && !s.closed)
  }

  lemma {:induction false} PerformLives(w: World, s: Session, a: Action)
    requires Sound(w, s)
    ensures LivesOn(s, a, Perform(w, s, a))
  {
    hide Sound, IngestStart, IngestFinish, Evaluate, Retried, Stopped, Tracked, Selectable, FirstReady, Accepts, Fails,
         Unproposable, Find;
    AllTracked(w, s);
    match a
    case Ingest(e, clock) =>
      if s.pc == Idle { var index := IngestParts(w, s, e, clock); }
    case Resume(clock) =>
      if s.pc.RollingBack? { FinishParts(w, s, clock); }
    case Timer(x, uid, generation) =>
      if s.pc == Idle { EvaluateGrows(w, x, s, uid, generation); }
    case _ =>
  }

  /** How often a run cuts the session off. */
  ghost function Cutoffs(w: World, s: Session, actions: seq<Action>): nat
    requires Sound(w, s)
    decreases |actions|
  {
    if actions == [] then 0
    else
      PerformSound(w, s, actions[0]);
      (if CutsOff(s, actions[0]) then 1 else 0) + Cutoffs(w, Perform(w, s, actions[0]), actions[1..])
  }

  /** The generation counts the cuts. */
  lemma {:induction false} GenerationsCount(w: World, s: Session, actions: seq<Action>)
    requires Sound(w, s)
    ensures RunOf(w, s, actions).generation == s.generation + Cutoffs(w, s, actions)
    decreases |actions|
  {
    hide Sound, Perform;
    if actions != [] {
      PerformSound(w, s, actions[0]);
      PerformLives(w, s, actions[0]);
      GenerationsCount(w, Perform(w, s, actions[0]), actions[1..]);
    }
  }

  /** Whether the action is a timer or an answer started in `generation` or before. */
  predicate StartedBy(a: Action, generation: nat) {
    (a.Timer? || a.Result?) && a.generation <= generation
  }

  /** After a cut, however the run goes on, nothing started before it has any effect. */
  lemma {:induction false} LateChangesNothing(w: World, s: Session, actions: seq<Action>, a: Action)
    requires Sound(w, s) && Cutoffs(w, s, actions) > 0 && StartedBy(a, s.generation)
    ensures Sound(w, RunOf(w, s, actions)) && Perform(w, RunOf(w, s, actions), a) == RunOf(w, s, actions)
  {
    RunSound(w, s, actions);
    GenerationsCount(w, s, actions);
    hide Sound, RunOf, Cutoffs;
    LateIs(w, RunOf(w, s, actions), a);
  }

  lemma {:induction false} LateIs(w: World, s: Session, a: Action)
    requires Sound(w, s) && (a.Timer? || a.Result?) && a.generation < s.generation
    ensures Perform(w, s, a) == s
  {
    SoundIsSelectable(w, s);
    hide Sound, Sweep, Selectable, Fails, Unproposable, IngestStart, IngestFinish;
  }

  // -------- A connection lost and made again

  /** The first segment that waits for a translation or was being translated. */
  ghost predicate FirstOpen(s: Session, i: nat) {
    && i < |s.segments| && s.segments[i].status in {Ready, Running}
    && forall k :: 0 <= k < i ==> s.segments[k].status !in {Ready, Running}
  }

  /** The session once a disconnection is over. */
  ghost function Parted(w: World, s: Session): Session
    requires Sound(w, s)
  {
    PerformSound(w, s, Detach);
    Perform(w, Perform(w, s, Detach), Detached)
  }

  /** A disconnection interrupts what was being translated and loses nothing; the next
      connection starts again with the first segment that is not done. */
  lemma {:induction false} ReconnectionRetries(w: World, s: Session)
    requires Sound(w, s) && s.pc == Idle && !s.closed
    ensures var p := Parted(w, s);
      && Sound(w, p) && p.pc == Idle && !p.connected && p.active == None && p.utterances == s.utterances
      && |p.segments| == |s.segments| && (forall g :: g in p.segments ==> g.status != Running)
      && (forall i :: 0 <= i < |s.segments| ==>
            Kin(s.segments[i], p.segments[i])
            && (p.segments[i] == s.segments[i] || s.segments[i].status == Running))
    ensures var r := Perform(w, Parted(w, s), Attach);
      && r.pc == Dispatching && r.segments == Parted(w, s).segments
      && (NextReady(r) == None <==> forall i: nat :: !FirstOpen(s, i))
      && forall i: nat :: FirstOpen(s, i) ==> NextReady(r) == Some(i)
  {
    PartedSound(w, s);
    PartedIs(w, s);
    AttachIs(w, Parted(w, s));
    StoppedKin(s.segments);
    hide Sound, Perform, Parted, Stopped, Kin, NextReady, FirstOpen;
    NextOpen(s, Perform(w, Parted(w, s), Attach));
  }

  lemma {:induction false} PartedSound(w: World, s: Session)
    requires Sound(w, s)
    ensures Sound(w, Parted(w, s))
  {
    PerformSound(w, s, Detach);
    hide Sound, Perform;
    PerformSound(w, Perform(w, s, Detach), Detached);
  }

  lemma {:induction false} AttachIs(w: World, s: Session)
    requires Sound(w, s) && s.pc == Idle && !s.closed && !s.connected
    ensures Perform(w, s, Attach) == s.(connected := true, pc := Dispatching)
  {
    hide Sound, IngestStart, IngestFinish, Evaluate, Resulted, Dispatched, FirstReady;
  }

  lemma {:induction false} StoppedKin(segments: seq<Segment>)
    ensures var r := Stopped(segments);
      && (forall g :: g in r ==> g.status != Running)
      && forall i :: 0 <= i < |r| ==>
           Kin(segments[i], r[i]) && (r[i] == segments[i] || segments[i].status == Running)
  {
  }

  /** What is ready once everything running has stopped. */
  lemma {:induction false} NextOpen(s: Session, r: Session)
    requires r.segments == Stopped(s.segments) && !r.closed && r.connected && r.active == None
    ensures NextReady(r) == None <==> forall i: nat :: !FirstOpen(s, i)
    ensures forall i: nat :: FirstOpen(s, i) ==> NextReady(r) == Some(i)
  {
    hide FirstReady, FirstOpen, Stopped;
    forall i: nat | FirstOpen(s, i)
      ensures FirstReady(r.segments) == i < |r.segments|
    {
      OpenIsReady(s, r.segments, i);
    }
    if FirstReady(r.segments) < |r.segments| { ReadyIsOpen(s, r.segments); }
  }

  lemma {:induction false} PartedIs(w: World, s: Session)
    requires Sound(w, s) && s.pc == Idle
    ensures Parted(w, s)
         == s.(connected := false, generation := s.generation + 1, segments := Stopped(s.segments), active := None)
  {
    PerformSound(w, s, Detach);
    hide Sound, IngestStart, IngestFinish, Evaluate, Resulted, Dispatched, FirstReady, Stopped;
  }

  lemma {:induction false} OpenIsReady(s: Session, segments: seq<Segment>, i: nat)
    requires FirstOpen(s, i) && segments == Stopped(s.segments)
    ensures FirstReady(segments) == i < |segments|
  {
  }

  lemma {:induction false} ReadyIsOpen(s: Session, segments: seq<Segment>)
    requires segments == Stopped(s.segments) && FirstReady(segments) < |segments|
    ensures FirstOpen(s, FirstReady(segments))
  {
  }

  // -------- A closed session

  /** The segments of `r` are the first ones of `s`, with the same text and translation. */
  ghost predicate Remains(s: Session, r: Session) {
    |r.segments| <= |s.segments| && forall i :: 0 <= i < |r.segments| ==> Kin(s.segments[i], r.segments[i])
  }

  lemma {:induction false} RemainsTwice(a: Session, b: Session, c: Session)
    requires Remains(a, b) && Remains(b, c)
    ensures Remains(a, c)
  {
  }

  /** A closed session still hears events, but however it goes on it selects, submits and
      translates nothing. */
  lemma {:induction false} ClosedForGood(w: World, s: Session, actions: seq<Action>)
    requires Sound(w, s) && s.closed && s.pc != Dispatching
    ensures var r := RunOf(w, s, actions); r.closed && r.pc != Dispatching && NextReady(r) == None && Remains(s, r)
    decreases |actions|
  {
    hide Sound, Perform, Remains;
    if actions == [] {
      RemainsSelf(s);
    } else {
      var n := Perform(w, s, actions[0]);
      PerformSound(w, s, actions[0]);
      ClosedStep(w, s, actions[0]);
      ClosedForGood(w, n, actions[1..]);
      RemainsTwice(s, n, RunOf(w, n, actions[1..]));
    }
  }

  lemma {:induction false} RemainsSelf(s: Session)
    ensures Remains(s, s)
  {
  }

  lemma {:induction false} ClosedStep(w: World, s: Session, a: Action)
    requires Sound(w, s) && s.closed && s.pc != Dispatching
    ensures var r := Perform(w, s, a); r.closed && r.pc != Dispatching && Remains(s, r)
  {
    hide Sound, IngestStart, IngestFinish, Sweep, Retried, Stopped, Tracked, Selectable, FirstReady, Fails,
         Unproposable, Find;
    AllTracked(w, s);
    SoundIsSelectable(w, s);
    match a
    case Ingest(e, clock) =>
      if s.pc == Idle { var index := IngestParts(w, s, e, clock); }
    case Resume(clock) =>
      if s.pc.RollingBack? { FinishParts(w, s, clock); }
    case _ =>
  }
}
