/** Whose name a caption carries, told from the assignments observed alone: what a
    confirmation does to earlier intervals (speaker_captions.py). */
module SpeakerNames {
  import opened Wrappers
  import opened Common
  import opened SpeakerDecision
  import opened SpeakerCaptions

  // -------- What happened

  type Key = (string, string, string)

  /** One step of a run: the assignment it took in, if any, and the evidence then retained. */
  datatype Moment = Moment(taken: Option<Evidence>, kept: seq<Evidence>)

  /** An assignment is taken in unless it is refused, ignored, repeated or too old. */
  ghost predicate TakesIn(cfg: Config, s: World, e: Evidence)
    requires Intervals(s.reducer.captions)
  {
    && Observed(cfg, s, e).Ok? && e.a.reason !in {"duplicate_sample", "out_of_order"}
    && (forall x :: x in s.reducer.history ==> KeyOf(x) != KeyOf(e)) && s.reducer.floor < e.a.end
  }

  ghost function Happened(cfg: Config, s: World, step: Step): Moment
    requires Inv(cfg, s)
  {
    Moment(if step.Observe? && TakesIn(cfg, s, step.e) then Some(step.e) else None,
           Apply(cfg, s, step).reducer.history)
  }

  ghost function Trace(cfg: Config, s: World, steps: seq<Step>): seq<Moment>
    requires Inv(cfg, s)
    decreases |steps|
  {
    if steps == [] then []
    else
      ApplyKeeps(cfg, s, steps[0]);
      [Happened(cfg, s, steps[0])] + Trace(cfg, Apply(cfg, s, steps[0]), steps[1..])
  }

  // -------- Whose voice it is

  /** The assignment gives the candidate this name. */
  ghost predicate Confirms(m: Moment, key: Key, name: string) {
    m.taken.Some? && var a := m.taken.value.a;
    a.status == New && a.candidate.Some? && a.speaker == Some(name)
    && (a.track, m.taken.value.epoch, a.candidate.value) == key
  }

  ghost predicate Retains(kept: seq<Evidence>, key: Key) {
    exists e :: e in kept && e.a.candidate.Some? && (e.a.track, e.epoch, e.a.candidate.value) == key
  }

  /** Some assignment confirmed the candidate under this name, and evidence of the
      candidate has been retained ever since. */
  ghost predicate KnownAs(trace: seq<Moment>, key: Key, name: string) {
    exists i :: 0 <= i < |trace| && Confirms(trace[i], key, name) && RetainedSince(trace, i, key)
  }

  ghost predicate RetainedSince(trace: seq<Moment>, i: nat, key: Key) {
    forall j :: i <= j < |trace| ==> Retains(trace[j].kept, key)
  }

  /** A confirmed assignment speaks for itself, a provisional one for whoever its candidate
      is known as, any other for nobody. */
  ghost predicate SpeaksFor(trace: seq<Moment>, e: Evidence, name: string) {
    match e.a.status
    case New => e.a.speaker == Some(name)
    case Existing => e.a.speaker == Some(name)
    case Provisional => e.a.candidate.Some? && KnownAs(trace, (e.a.track, e.epoch, e.a.candidate.value), name)
    case Unknown => false
  }

  ghost function Voice(trace: seq<Moment>, e: Evidence): Option<string> {
    if name :| SpeaksFor(trace, e, name) then Some(name) else None
  }

  // -------- The reducer's table of confirmations is that knowledge

  ghost predicate Maps(r: Reducer, key: Key, name: string) {
    key in r.confirmed && r.confirmed[key] == name
  }

  ghost predicate Tied(trace: seq<Moment>, r: Reducer) {
    && (forall key: Key, name: string :: Maps(r, key, name) <==> KnownAs(trace, key, name))
    && Proper(r)
  }

  ghost predicate Proper(r: Reducer) {
    && (forall e :: e in r.history ==> WellFormed(e.a))
    && (forall key: Key :: key in r.confirmed ==> Retains(r.history, key))
  }

  lemma {:induction false} KnownAsLater(trace: seq<Moment>, m: Moment, key: Key, name: string)
    ensures KnownAs(trace + [m], key, name)
      <==> Retains(m.kept, key) && (KnownAs(trace, key, name) || Confirms(m, key, name))
  {
    var more, n := trace + [m], |trace|;
    hide Confirms, Retains;
    if i :| 0 <= i < |more| && Confirms(more[i], key, name) && RetainedSince(more, i, key) {
      assert Retains(more[n].kept, key);
      if i < n {
        forall j | i <= j < n
          ensures Retains(trace[j].kept, key)
        {
          assert Retains(more[j].kept, key);
        }
        assert Confirms(trace[i], key, name) && RetainedSince(trace, i, key);
      }
    }
    if Retains(m.kept, key) && KnownAs(trace, key, name) {
      var i :| 0 <= i < n && Confirms(trace[i], key, name) && RetainedSince(trace, i, key);
      forall j | i <= j < |more|
        ensures Retains(more[j].kept, key)
      {
        if j < n { assert Retains(trace[j].kept, key); }
      }
      assert Confirms(more[i], key, name) && RetainedSince(more, i, key);
    } else if Retains(m.kept, key) && Confirms(m, key, name) {
      assert Confirms(more[n], key, name) && RetainedSince(more, n, key);
    }
  }

  lemma {:induction false} PrunedMaps(cfg: Config, r: Reducer)
    requires forall e :: e in r.history ==> WellFormed(e.a)
    ensures var p := Pruned(cfg, r);
      && Proper(p)
      && forall key: Key, name: string :: Maps(p, key, name) <==> Maps(r, key, name) && Retains(p.history, key)
  {
    var p := Pruned(cfg, r);
    LiveHolds(r.history, Max(Max(r.floor, r.watermark - cfg.historyNs), 0));
    assert forall e :: e in p.history ==> e in r.history;
    forall key: Key
      ensures key in Candidates(p.history) <==> Retains(p.history, key)
    {
      if e :| e in p.history && e.a.candidate.Some? && CandidateKey(e) == key {
        assert CandidateKey(e) in Candidates(p.history);
      }
    }
  }

  /** How one step changes what is mapped. */
  ghost predicate Advances(r: Reducer, m: Moment, q: Reducer) {
    && m.kept == q.history && Proper(q)
    && forall key: Key, name: string ::
         Maps(q, key, name) <==> Retains(q.history, key) && (Maps(r, key, name) || Confirms(m, key, name))
  }

  lemma {:induction false} StandsStill(r: Reducer)
    requires Proper(r)
    ensures Advances(r, Moment(None, r.history), r)
  {
  }

  lemma {:induction false} ClockAdvances(cfg: Config, r: Reducer, now: int)
    requires Proper(r)
    ensures var p := Pruned(cfg, r.(watermark := now)); Advances(r, Moment(None, p.history), p)
  {
    PrunedMaps(cfg, r.(watermark := now));
    hide Pruned, Retains;
    assert forall key: Key, name: string :: Maps(r.(watermark := now), key, name) <==> Maps(r, key, name);
  }

  lemma {:induction false} EvidenceAdvances(cfg: Config, r: Reducer, e: Evidence)
    requires Proper(r) && WellFormed(e.a)
    requires e.a.status == New && CandidateKey(e) in r.confirmed ==>
      r.confirmed[CandidateKey(e)] == e.a.speaker.value
    ensures var p := Pruned(cfg, Added(r, e)); Advances(r, Moment(Some(e), p.history), p)
  {
    PrunedMaps(cfg, Added(r, e));
    var p := Pruned(cfg, Added(r, e));
    hide Pruned, Retains;
    forall key: Key, name: string
      ensures Maps(Added(r, e), key, name)
        <==> Maps(r, key, name) || Confirms(Moment(Some(e), p.history), key, name)
    {
    }
  }

  /** Rechecking captions touches no evidence. */
  lemma {:induction false} PatchedEvidence(cfg: Config, s: World, refs: seq<Ref>)
    requires Intervals(refs)
    ensures var r := Patched(cfg, s, refs).reducer;
      r.history == s.reducer.history && r.confirmed == s.reducer.confirmed
    decreases |refs|
  {
    hide DecisionFor, Matches;
    if refs != [] {
      assert refs[0] in refs;
      assert Intervals(refs[1..]) by { assert forall c :: c in refs[1..] ==> c in refs; }
      PatchedEvidence(cfg, Rechecked(cfg, s, refs[0]), refs[1..]);
    }
  }

  lemma {:induction false} SameEvidence(r: Reducer, m: Moment, q: Reducer, p: Reducer)
    requires Advances(r, m, q) && p.history == q.history && p.confirmed == q.confirmed
    ensures Advances(r, m, p)
  {
    hide Retains, Confirms;
    assert forall key: Key, name: string :: Maps(p, key, name) <==> Maps(q, key, name);
  }

  lemma {:induction false} RegisterAdvances(cfg: Config, s: World, c: Ref)
    requires Inv(cfg, s) && Proper(s.reducer) && c.start < c.end
    ensures var t := Registered(cfg, s, c).GetOr(s).reducer; Advances(s.reducer, Moment(None, t.history), t)
  {
    StandsStill(s.reducer);
    if Registered(cfg, s, c).Ok? {
      var now := Max(s.reducer.watermark, c.end);
      ClockAdvances(cfg, s.reducer, now);
      var p := Pruned(cfg, s.reducer.(watermark := now));
      hide Pruned, Advances, Placed, Matches, Patched, Proper;
      if p.floor <= c.start {
        var q := p.(captions := Placed(p.captions, c, cfg.maxCaptions));
        PatchedEvidence(cfg, s.(reducer := q), [c]);
        SameEvidence(s.reducer, Moment(None, p.history), p, Patched(cfg, s.(reducer := q), [c]).reducer);
      }
    }
  }

  lemma {:induction false} ObserveAdvances(cfg: Config, s: World, e: Evidence)
    requires Inv(cfg, s) && Proper(s.reducer)
    ensures Advances(s.reducer, Happened(cfg, s, Observe(e)), Observed(cfg, s, e).GetOr(s).reducer)
  {
    var r := s.reducer;
    StandsStill(r);
    if TakesIn(cfg, s, e) {
      EvidenceAdvances(cfg, r, e);
      var p := Pruned(cfg, Added(r, e));
      FromHolds(r.captions, p.floor);
      TouchedHolds(p.history, e, p.captions);
      hide Pruned, Advances, Patched, Proper, Touched, TouchedOf, Matches, Added;
      var refs := TouchedOf(p.history, e, p.captions);
      assert Intervals(refs);
      PatchedEvidence(cfg, s.(reducer := p), refs);
      SameEvidence(r, Moment(Some(e), p.history), p, Patched(cfg, s.(reducer := p), refs).reducer);
    } else {
      NotTaken(cfg, s, e);
      hide Advances, Observed, TakesIn, Proper;
    }
  }

  lemma {:induction false} NotTaken(cfg: Config, s: World, e: Evidence)
    requires Inv(cfg, s) && !TakesIn(cfg, s, e)
    ensures Observed(cfg, s, e).GetOr(s) == s
  {
    hide Pruned, Patched, Touched;
  }

  lemma {:induction false} StepAdvances(cfg: Config, s: World, step: Step)
    requires Inv(cfg, s) && Proper(s.reducer)
    ensures Advances(s.reducer, Happened(cfg, s, step), Apply(cfg, s, step).reducer)
  {
    StandsStill(s.reducer);
    hide Advances, Proper;
    match step
    case Register(c) => if c.start < c.end { RegisterAdvances(cfg, s, c); }
    case Observe(e) => ObserveAdvances(cfg, s, e);
    case Expire(now) => ClockAdvances(cfg, s.reducer, now);
    case Upsert(id, c) =>
    case Override(id, speaker, revision) =>
    case Supersede(id) =>
  }

  lemma {:induction false} StepTied(trace: seq<Moment>, r: Reducer, m: Moment, q: Reducer)
    requires Tied(trace, r) && Advances(r, m, q)
    ensures Tied(trace + [m], q)
  {
    hide KnownAs, Maps, Retains, Confirms;
    forall key: Key, name: string
      ensures Maps(q, key, name) <==> KnownAs(trace + [m], key, name)
    {
      KnownAsLater(trace, m, key, name);
    }
  }

  lemma {:induction false} RunTied(cfg: Config, s: World, steps: seq<Step>, before: seq<Moment>)
    requires Inv(cfg, s) && Tied(before, s.reducer)
    ensures Tied(before + Trace(cfg, s, steps), Run(cfg, s, steps).reducer)
    decreases |steps|
  {
    if steps != [] { assert Intervals(s.reducer.captions); }
    hide Inv, Tied, Advances, Happened, Apply;
    if steps == [] {
      assert before + [] == before;
    } else {
      var m, t := Happened(cfg, s, steps[0]), Apply(cfg, s, steps[0]);
      ApplyKeeps(cfg, s, steps[0]);
      TiedProper(before, s.reducer);
      StepAdvances(cfg, s, steps[0]);
      StepTied(before, s.reducer, m, t.reducer);
      RunTied(cfg, t, steps[1..], before + [m]);
      assert before + [m] + Trace(cfg, t, steps[1..]) == before + Trace(cfg, s, steps);
    }
  }

  lemma {:induction false} TiedProper(trace: seq<Moment>, r: Reducer)
    requires Tied(trace, r)
    ensures Proper(r)
  {
  }

  lemma {:induction false} FreshTied()
    ensures Tied([], Fresh)
  {
  }

  /** Over any run, the table maps a candidate to a name exactly when an assignment
      confirmed it under that name and evidence of it has been retained ever since. */
  lemma {:induction false} ConfirmedIff(cfg: Config, store: Store, steps: seq<Step>, key: Key, name: string)
    requires cfg.Valid()
    ensures Inv(cfg, World(Fresh, store))
    ensures var r := Run(cfg, World(Fresh, store), steps).reducer;
      key in r.confirmed && r.confirmed[key] == name
      <==> KnownAs(Trace(cfg, World(Fresh, store), steps), key, name)
  {
    FreshHolds(cfg, store);
    RunTiedFresh(cfg, store, steps);
    hide KnownAs, Run, Trace;
    assert Maps(Run(cfg, World(Fresh, store), steps).reducer, key, name)
      <==> KnownAs(Trace(cfg, World(Fresh, store), steps), key, name);
  }

  lemma {:induction false} RunTiedFresh(cfg: Config, store: Store, steps: seq<Step>)
    requires cfg.Valid()
    ensures Inv(cfg, World(Fresh, store))
    ensures Tied(Trace(cfg, World(Fresh, store), steps), Run(cfg, World(Fresh, store), steps).reducer)
  {
    FreshHolds(cfg, store);
    FreshTied();
    RunTied(cfg, World(Fresh, store), steps, []);
    var trace := Trace(cfg, World(Fresh, store), steps);
    assert [] + trace == trace;
  }

  // -------- What is retained

  /** Evidence that was there or is taken in stays unless it ends before the floor, and the
      floor rises only with the clock, or when there is too much evidence. */
  ghost predicate Stays(cfg: Config, r: Reducer, taken: Option<Evidence>, t: Reducer) {
    && (forall x :: x in t.history ==> x in r.history || taken == Some(x))
    && (forall x :: x in r.history || taken == Some(x) ==> x in t.history || x.a.end <= t.floor)
    && r.floor <= t.floor && r.watermark <= t.watermark
    && (|r.history| < cfg.maxHistory ==> t.floor <= Max(Max(r.floor, t.watermark - cfg.historyNs), 0))
  }

  lemma {:induction false} PrunedStays(cfg: Config, r: Reducer, more: Reducer, taken: Option<Evidence>)
    requires more.history == (if taken.Some? then r.history + [taken.value] else r.history) && cfg.Valid()
    requires more.floor == r.floor && r.watermark <= more.watermark
    ensures Stays(cfg, r, taken, Pruned(cfg, more))
  {
    PruneForgetsLittle(cfg, more);
    var base := Max(Max(more.floor, more.watermark - cfg.historyNs), 0);
    KeptOrOld(cfg, more, base);
    hide Pruned, Live, From;
  }

  lemma {:induction false} KeptOrOld(cfg: Config, r: Reducer, base: int)
    requires base == Max(Max(r.floor, r.watermark - cfg.historyNs), 0)
    ensures var p := Pruned(cfg, r);
      && base <= p.floor && p.watermark == r.watermark && |Live(r.history, base)| <= |r.history|
      && forall x :: x in r.history ==> x in p.history || x.a.end <= p.floor
  {
    LiveHolds(r.history, base);
    hide Live, From, Candidates;
  }

  lemma {:induction false} SameStays(cfg: Config, r: Reducer, taken: Option<Evidence>, q: Reducer, p: Reducer)
    requires Stays(cfg, r, taken, q) && p.history == q.history && p.floor == q.floor && p.watermark == q.watermark
    ensures Stays(cfg, r, taken, p)
  {
  }

  lemma {:induction false} StandingStays(cfg: Config, r: Reducer)
    ensures Stays(cfg, r, None, r)
  {
  }

  lemma {:induction false} PatchedFloor(cfg: Config, s: World, refs: seq<Ref>)
    requires Intervals(refs)
    ensures var r := Patched(cfg, s, refs).reducer;
      r.history == s.reducer.history && r.floor == s.reducer.floor && r.watermark == s.reducer.watermark
    decreases |refs|
  {
    hide DecisionFor, Matches;
    if refs != [] {
      assert refs[0] in refs;
      assert Intervals(refs[1..]) by { assert forall c :: c in refs[1..] ==> c in refs; }
      PatchedFloor(cfg, Rechecked(cfg, s, refs[0]), refs[1..]);
    }
  }

  lemma {:induction false} ObserveStays(cfg: Config, s: World, e: Evidence)
    requires Inv(cfg, s)
    ensures Stays(cfg, s.reducer, Happened(cfg, s, Observe(e)).taken, Observed(cfg, s, e).GetOr(s).reducer)
  {
    var r := s.reducer;
    StandingStays(cfg, r);
    if TakesIn(cfg, s, e) {
      PrunedStays(cfg, r, Added(r, e), Some(e));
      var p := Pruned(cfg, Added(r, e));
      FromHolds(r.captions, p.floor);
      TouchedHolds(p.history, e, p.captions);
      hide Pruned, Stays, Patched, Touched, TouchedOf, Matches, Added;
      var refs := TouchedOf(p.history, e, p.captions);
      assert Intervals(refs);
      PatchedFloor(cfg, s.(reducer := p), refs);
      SameStays(cfg, r, Some(e), p, Patched(cfg, s.(reducer := p), refs).reducer);
    } else {
      NotTaken(cfg, s, e);
      hide Stays, Observed, TakesIn;
    }
  }

  lemma {:induction false} RegisterStays(cfg: Config, s: World, c: Ref)
    requires Inv(cfg, s) && c.start < c.end
    ensures Stays(cfg, s.reducer, None, Registered(cfg, s, c).GetOr(s).reducer)
  {
    StandingStays(cfg, s.reducer);
    if Registered(cfg, s, c).Ok? {
      var r := s.reducer.(watermark := Max(s.reducer.watermark, c.end));
      PrunedStays(cfg, s.reducer, r, None);
      var p := Pruned(cfg, r);
      hide Pruned, Stays, Placed, Matches, Patched;
      if p.floor <= c.start {
        var q := p.(captions := Placed(p.captions, c, cfg.maxCaptions));
        PatchedFloor(cfg, s.(reducer := q), [c]);
        SameStays(cfg, s.reducer, None, p, Patched(cfg, s.(reducer := q), [c]).reducer);
      }
    }
  }

  /** No step of a run forgets evidence it need not forget. */
  lemma {:induction false} EvidenceStays(cfg: Config, store: Store, steps: seq<Step>, step: Step)
    requires cfg.Valid()
    ensures Inv(cfg, World(Fresh, store)) && Inv(cfg, Run(cfg, World(Fresh, store), steps))
    ensures var s := Run(cfg, World(Fresh, store), steps);
      Intervals(s.reducer.captions)
      && Stays(cfg, s.reducer, Happened(cfg, s, step).taken, Apply(cfg, s, step).reducer)
  {
    FreshHolds(cfg, store);
    RunInv(cfg, World(Fresh, store), steps);
    var s := Run(cfg, World(Fresh, store), steps);
    assert Intervals(s.reducer.captions);
    StandingStays(cfg, s.reducer);
    hide Stays, Run;
    match step
    case Register(c) => if c.start < c.end { RegisterStays(cfg, s, c); }
    case Observe(e) => ObserveStays(cfg, s, e);
    case Expire(now) =>
      if now >= s.reducer.watermark { PrunedStays(cfg, s.reducer, s.reducer.(watermark := now), None); }
    case Upsert(id, c) =>
    case Override(id, speaker, revision) =>
    case Supersede(id) =>
  }

  /** Rechecking drops only captions that are out of date. */
  lemma {:induction false} PatchedCaptions(cfg: Config, s: World, refs: seq<Ref>)
    requires Intervals(refs) && forall r, d :: r in refs && d in s.reducer.captions && r.id == d.id ==> r == d
    ensures forall d :: d in s.reducer.captions ==>
      d in Patched(cfg, s, refs).reducer.captions || !Matches(s.store, d)
    decreases |refs|
  {
    hide DecisionFor, Matches;
    if refs != [] {
      var c := refs[0];
      assert c in refs;
      assert forall r :: r in refs[1..] ==> r in refs;
      var m := Rechecked(cfg, s, c);
      RecheckedNames(cfg, s, c);
      assert forall d :: d in m.reducer.captions ==> d in s.reducer.captions;
      assert forall d :: d in s.reducer.captions ==> d in m.reducer.captions || !Matches(s.store, d);
      PatchedCaptions(cfg, m, refs[1..]);
    }
  }

  /** The caption makes way for one that is registered: it is the same one, or there is no
      room and none that stays ends earlier. */
  ghost predicate MakesWay(cfg: Config, d: Ref, c: Ref, t: Reducer) {
    d.id == c.id || (|t.captions| == cfg.maxCaptions && forall k :: k in t.captions && k != c ==> d.end <= k.end)
  }

  lemma {:induction false} PlacedKeeps(captions: seq<Ref>, c: Ref, limit: nat)
    requires Distinct(captions) && |captions| <= limit && limit >= 1
    ensures var r := Placed(captions, c, limit);
      && c in r
      && forall d :: d in captions ==>
           (d in r || d.id == c.id || (|r| == limit && forall k :: k in r && k != c ==> d.end <= k.end))
  {
    PlacedIn(captions, c, limit);
    var i := Find(captions, c.id);
    if i < |captions| {
      var r := captions[i := c];
      forall d | d in captions
        ensures d in r || d.id == c.id
      {
        var k :| 0 <= k < |captions| && captions[k] == d;
        if k != i { assert r[k] == d; }
      }
    } else if |captions| >= limit {
      hide Find;
      var f := FirstEnding(captions);
      OneOut(captions, f);
      assert forall d :: d in captions ==> d in Without(captions, f) || d == captions[f];
    }
  }

  /** A registered caption is retained unless it starts before the floor, and no other one
      goes but for its age, for being out of date, or to make way. */
  lemma {:induction false} RegistrationStays(cfg: Config, s: World, c: Ref)
    requires Inv(cfg, s) && c.start < c.end && Registered(cfg, s, c).Ok?
    ensures var t := Registered(cfg, s, c).value.reducer;
      && (t.floor <= c.start ==> c in t.captions)
      && forall d :: d in s.reducer.captions ==> d in t.captions || d.start < t.floor || MakesWay(cfg, d, c, t)
  {
    var r := s.reducer.(watermark := Max(s.reducer.watermark, c.end));
    var p := Pruned(cfg, r);
    PrunedBounded(cfg, r);
    FromHolds(r.captions, p.floor);
    assert Matches(s.store, c);
    hide Pruned, Matches, Placed;
    if p.floor <= c.start {
      var q := p.(captions := Placed(p.captions, c, cfg.maxCaptions));
      PlacedKeeps(p.captions, c, cfg.maxCaptions);
      RecheckStands(cfg, s.(reducer := q), c);
    }
  }

  lemma {:induction false} RecheckStands(cfg: Config, s: World, c: Ref)
    requires c.start < c.end && Matches(s.store, c)
    ensures Intervals([c]) && Patched(cfg, s, [c]).reducer == s.reducer
  {
    hide DecisionFor;
    assert [c][1..] == [];
  }

  /** Evidence makes no caption go but those too old and those out of date. */
  lemma {:induction false} CaptionsStay(cfg: Config, s: World, e: Evidence)
    requires Inv(cfg, s)
    ensures var t := Observed(cfg, s, e).GetOr(s).reducer;
      forall d :: d in s.reducer.captions ==> d in t.captions || d.start < t.floor || !Matches(s.store, d)
  {
    var r := s.reducer;
    if TakesIn(cfg, s, e) {
      var p := Pruned(cfg, Added(r, e));
      FromHolds(r.captions, p.floor);
      AddedBounded(cfg, r, e);
      TouchedHolds(p.history, e, p.captions);
      hide Pruned, Patched, Touched, TouchedOf, Matches, Added;
      var refs := TouchedOf(p.history, e, p.captions);
      assert Intervals(refs);
      forall a, d | a in refs && d in p.captions && a.id == d.id
        ensures a == d
      {
        SameRef(p.captions, a, d);
      }
      PatchedCaptions(cfg, s.(reducer := p), refs);
      PatchedFloor(cfg, s.(reducer := p), refs);
    } else {
      NotTaken(cfg, s, e);
      hide Observed, TakesIn;
    }
  }

  lemma {:induction false} SameRef(captions: seq<Ref>, a: Ref, d: Ref)
    requires Distinct(captions) && a in captions && d in captions && a.id == d.id
    ensures a == d
  {
    var i :| 0 <= i < |captions| && captions[i] == a;
    var j :| 0 <= j < |captions| && captions[j] == d;
  }

  // -------- The names captions carry

  ghost predicate HeardBy(c: Ref, e: Evidence) {
    e.a.track == c.track && e.epoch == c.epoch && e.a.start < c.end && c.start < e.a.end && e.a.start < e.a.end
    && c.start < c.end
  }

  /** What a caption hears: each overlap with retained evidence, under the voice the
      assignments so far give it. */
  ghost function HeardSpans(trace: seq<Moment>, history: seq<Evidence>, c: Ref): set<Span> {
    set e | e in history && HeardBy(c, e) :: Span(Voice(trace, e), Max(e.a.start, c.start), Min(e.a.end, c.end))
  }

  lemma {:induction false} VoiceIs(trace: seq<Moment>, r: Reducer, e: Evidence)
    requires Tied(trace, r) && e in r.history
    ensures Voice(trace, e) == VoiceOf(e, r.confirmed)
  {
    assert WellFormed(e.a);
    if e.a.status == Provisional {
      var key := CandidateKey(e);
      forall name: string
        ensures KnownAs(trace, key, name) <==> key in r.confirmed && r.confirmed[key] == name
      {
        assert Maps(r, key, name) <==> KnownAs(trace, key, name);
      }
      hide KnownAs, Tied;
      if key in r.confirmed { assert SpeaksFor(trace, e, r.confirmed[key]); }
    } else if e.a.speaker.Some? {
      assert SpeaksFor(trace, e, e.a.speaker.value);
    }
  }

  lemma {:induction false} HeardIsRelevant(trace: seq<Moment>, r: Reducer, c: Ref)
    requires Tied(trace, r) && c.start < c.end
    ensures HeardSpans(trace, r.history, c) == Relevant(r.history, r.confirmed, c)
  {
    forall e | e in r.history
      ensures HeardBy(c, e) <==> Hears(c, e)
      ensures Voice(trace, e) == VoiceOf(e, r.confirmed)
    {
      assert WellFormed(e.a);
      VoiceIs(trace, r, e);
    }
    hide Voice, VoiceOf, Tied, HeardBy, Hears;
    forall s
      ensures s in HeardSpans(trace, r.history, c) <==> s in Relevant(r.history, r.confirmed, c)
    {
      if s in HeardSpans(trace, r.history, c) {
        var e :| e in r.history && HeardBy(c, e)
                 && s == Span(Voice(trace, e), Max(e.a.start, c.start), Min(e.a.end, c.end));
        assert s == Clipped(e, r.confirmed, c);
      }
      if s in Relevant(r.history, r.confirmed, c) {
        var e :| e in r.history && Hears(c, e) && s == Clipped(e, r.confirmed, c);
        assert s == Span(Voice(trace, e), Max(e.a.start, c.start), Min(e.a.end, c.end));
      }
    }
  }

  ghost predicate Automatic(s: World, c: Ref) {
    c in s.reducer.captions && Matches(s.store, c) && !s.store[c.id].manual
  }

  /** Over any run, the name of every retained current caption that no person named is
      decided by the assignments observed: by the evidence still retained, each under the
      voice its status and the confirmations so far give it. */
  lemma {:induction false} NamedFromAssignments(cfg: Config, store: Store, steps: seq<Step>, c: Ref)
    requires cfg.Valid()
    ensures Inv(cfg, World(Fresh, store))
    ensures var s, trace := Run(cfg, World(Fresh, store), steps), Trace(cfg, World(Fresh, store), steps);
      Automatic(s, c) ==>
        c.start < c.end
        && s.store[c.id].speaker
           == Decided(cfg.policy, HeardSpans(trace, s.reducer.history, c), c.start, c.end).speaker
  {
    RunKeeps(cfg, store, steps);
    RunTiedFresh(cfg, store, steps);
    var s := Run(cfg, World(Fresh, store), steps);
    if Automatic(s, c) {
      hide Run, Trace, Relevant, Decided, HeardSpans, Matches, Tied;
      assert Recomputed(cfg, s, c);
      HeardIsRelevant(Trace(cfg, World(Fresh, store), steps), s.reducer, c);
    }
  }

  /** How many instants of `[lo, hi)` the caption hears any evidence at. */
  ghost function HeardTime(history: seq<Evidence>, c: Ref, lo: int, hi: int): (n: nat)
    decreases hi - lo
  {
    if hi <= lo then 0 else HeardTime(history, c, lo, hi - 1) + if HeardAt(history, c, hi - 1) then 1 else 0
  }

  ghost predicate HeardAt(history: seq<Evidence>, c: Ref, t: int) {
    exists e :: e in history && HeardBy(c, e) && e.a.start <= t < e.a.end
  }

  lemma {:induction false} HeardTimeIs(trace: seq<Moment>, history: seq<Evidence>, c: Ref, lo: int, hi: int)
    requires c.start <= lo && hi <= c.end
    ensures HeardTime(history, c, lo, hi) == Covered(HeardSpans(trace, history, c), lo, hi)
    decreases hi - lo
  {
    if lo < hi {
      HeardTimeIs(trace, history, c, lo, hi - 1);
      HeardAtIs(trace, history, c, hi - 1);
    }
  }

  lemma {:induction false} HeardAtIs(trace: seq<Moment>, history: seq<Evidence>, c: Ref, t: int)
    requires c.start <= t < c.end
    ensures HeardAt(history, c, t) <==> exists s :: s in HeardSpans(trace, history, c) && Covers(s, t)
  {
    hide Voice;
    if e :| e in history && HeardBy(c, e) && e.a.start <= t < e.a.end {
      var s := Span(Voice(trace, e), Max(e.a.start, c.start), Min(e.a.end, c.end));
      assert s in HeardSpans(trace, history, c) && Covers(s, t);
    }
  }

  /** All that the caption hears speaks for this name: confirmed assignments of the
      speaker, or provisional ones of a candidate that is known under it. */
  ghost predicate OnlyVoice(trace: seq<Moment>, history: seq<Evidence>, c: Ref, name: string) {
    forall e :: e in history && HeardBy(c, e) ==> SpeaksFor(trace, e, name)
  }

  lemma {:induction false} SpeaksIsVoice(trace: seq<Moment>, r: Reducer, e: Evidence, name: string)
    requires Tied(trace, r) && e in r.history && SpeaksFor(trace, e, name)
    ensures Voice(trace, e) == Some(name)
  {
    VoiceIs(trace, r, e);
    if e.a.status == Provisional {
      assert Maps(r, CandidateKey(e), name);
    }
  }

  /** A caption that hears a single voice is named after it exactly if it hears it for
      long enough. */
  lemma {:induction false} OneVoiceNames(cfg: Config, store: Store, steps: seq<Step>, c: Ref, name: string)
    requires cfg.Valid()
    ensures Inv(cfg, World(Fresh, store))
    ensures var s, trace := Run(cfg, World(Fresh, store), steps), Trace(cfg, World(Fresh, store), steps);
      Automatic(s, c) && OnlyVoice(trace, s.reducer.history, c, name) ==>
        c.start < c.end
        && var n := HeardTime(s.reducer.history, c, c.start, c.end);
           s.store[c.id].speaker
           == if n > 0 && Fraction(n, c.end - c.start) >= cfg.policy.minCoverage then Some(name) else None
  {
    NamedFromAssignments(cfg, store, steps, c);
    RunTiedFresh(cfg, store, steps);
    var s, trace := Run(cfg, World(Fresh, store), steps), Trace(cfg, World(Fresh, store), steps);
    if Automatic(s, c) && OnlyVoice(trace, s.reducer.history, c, name) {
      hide *;
      OnlyVoiceDecides(cfg, trace, s.reducer, c, name);
    }
  }

  lemma {:induction false} OnlyVoiceDecides(cfg: Config, trace: seq<Moment>, r: Reducer, c: Ref, name: string)
    requires cfg.Valid() && Tied(trace, r) && OnlyVoice(trace, r.history, c, name) && c.start < c.end
    ensures var n := HeardTime(r.history, c, c.start, c.end);
      Decided(cfg.policy, HeardSpans(trace, r.history, c), c.start, c.end).speaker
      == if n > 0 && Fraction(n, c.end - c.start) >= cfg.policy.minCoverage then Some(name) else None
  {
    var spans := HeardSpans(trace, r.history, c);
    forall s | s in spans
      ensures s.voice == Some(name)
    {
      var e :| e in r.history && HeardBy(c, e)
               && s == Span(Voice(trace, e), Max(e.a.start, c.start), Min(e.a.end, c.end));
      SpeaksIsVoice(trace, r, e, name);
    }
    HeardTimeIs(trace, r.history, c, c.start, c.end);
    OneVoiceDecided(cfg.policy, spans, c.start, c.end, name);
    hide *;
  }

  lemma {:induction false} OneVoiceDecided(p: Policy, spans: set<Span>, start: int, end: int, name: string)
    requires p.Valid() && start < end && forall s :: s in spans ==> s.voice == Some(name)
    ensures var n := Covered(spans, start, end);
      Decided(p, spans, start, end).speaker
      == if n > 0 && Fraction(n, end - start) >= p.minCoverage then Some(name) else None
  {
    OneVoice(spans, name, start, end);
    NamedIff(p, spans, start, end, name);
    assert Fraction(0, end - start) == 0.0;
    var d := Decided(p, spans, start, end);
    if d.speaker.Some? {
      NamedIff(p, spans, start, end, d.speaker.value);
      assert d.speaker.value in Known(spans);
    }
    if Covered(spans, start, end) > 0 {
      CoveredKnown(spans, start, end, name);
    }
  }

  lemma {:induction false} CoveredKnown(spans: set<Span>, lo: int, hi: int, name: string)
    requires Covered(spans, lo, hi) > 0 && forall s :: s in spans ==> s.voice == Some(name)
    ensures Known(spans) == {name}
    decreases hi - lo
  {
    if s :| s in spans && Covers(s, hi - 1) {
      assert s.voice.value in Known(spans);
    } else {
      CoveredKnown(spans, lo, hi - 1, name);
    }
  }

  /** A caption that hears only evidence that speaks for nobody carries no name. */
  lemma {:induction false} NoVoiceNoName(cfg: Config, store: Store, steps: seq<Step>, c: Ref)
    requires cfg.Valid()
    ensures Inv(cfg, World(Fresh, store))
    ensures var s, trace := Run(cfg, World(Fresh, store), steps), Trace(cfg, World(Fresh, store), steps);
      Automatic(s, c)
      && (forall e, name :: e in s.reducer.history && HeardBy(c, e) ==> !SpeaksFor(trace, e, name))
      ==> s.store[c.id].speaker == None
  {
    NamedFromAssignments(cfg, store, steps, c);
    var s, trace := Run(cfg, World(Fresh, store), steps), Trace(cfg, World(Fresh, store), steps);
    var spans := HeardSpans(trace, s.reducer.history, c);
    if Automatic(s, c) && (forall e, name :: e in s.reducer.history && HeardBy(c, e) ==> !SpeaksFor(trace, e, name)) {
      hide Run, Trace, Decided, SpeaksFor, Matches;
      assert Known(spans) == {};
      var d := Decided(cfg.policy, spans, c.start, c.end);
      if d.speaker.Some? {
        NamedIff(cfg.policy, spans, c.start, c.end, d.speaker.value);
      }
    }
  }

  lemma {:induction false} RunAppend(cfg: Config, s: World, steps: seq<Step>, step: Step)
    requires Inv(cfg, s)
    ensures Inv(cfg, Run(cfg, s, steps))
    ensures Run(cfg, s, steps + [step]) == Apply(cfg, Run(cfg, s, steps), step)
    ensures Trace(cfg, s, steps + [step]) == Trace(cfg, s, steps) + [Happened(cfg, Run(cfg, s, steps), step)]
    decreases |steps|
  {
    RunInv(cfg, s, steps);
    ApplyKeeps(cfg, s, (steps + [step])[0]);
    var more := steps + [step];
    if steps != [] {
      assert Intervals(s.reducer.captions);
      hide Inv, Apply, Happened;
      assert more[1..] == steps[1..] + [step];
      RunAppend(cfg, Apply(cfg, s, steps[0]), steps[1..], step);
    } else {
      hide Inv, Apply, Happened;
      assert more[1..] == [];
    }
  }

  /** All that the caption hears is of the new assignment's speaker or its candidate. */
  ghost predicate OnlyThat(history: seq<Evidence>, e: Evidence, c: Ref) {
    && c.track == e.a.track && c.epoch == e.epoch
    && forall x :: x in history && HeardBy(c, x) ==>
         || (x.a.status in {New, Existing} && x.a.speaker == e.a.speaker)
         || (x.a.status == Provisional && x.a.candidate == e.a.candidate)
  }

  lemma {:induction false} TakenFormed(cfg: Config, s: World, e: Evidence)
    requires Intervals(s.reducer.captions) && TakesIn(cfg, s, e)
    ensures WellFormed(e.a)
  {
    hide Pruned, Patched, Touched;
  }

  lemma {:induction false} TakenSpeaks(before: seq<Moment>, m: Moment, e: Evidence, c: Ref)
    requires m.taken == Some(e) && e in m.kept && WellFormed(e.a) && e.a.status == New && OnlyThat(m.kept, e, c)
    ensures OnlyVoice(before + [m], m.kept, c, e.a.speaker.value)
  {
    var key, name := CandidateKey(e), e.a.speaker.value;
    KnownAsLater(before, m, key, name);
    assert Confirms(m, key, name) && Retains(m.kept, key);
    hide KnownAs, Confirms, Retains;
  }

  lemma {:induction false} AlwaysHeard(history: seq<Evidence>, c: Ref, lo: int, hi: int)
    requires c.start <= lo <= hi <= c.end && forall x :: c.start <= x < c.end ==> HeardAt(history, c, x)
    ensures HeardTime(history, c, lo, hi) == hi - lo
    decreases hi - lo
  {
    hide HeardAt;
    if lo < hi { AlwaysHeard(history, c, lo, hi - 1); }
  }

  lemma {:induction false} FullFraction(n: nat)
    requires n > 0
    ensures Fraction(n, n) == 1.0
  {
  }

  /** A confirmation reaches back: once it is taken in and kept, every retained current
      caption that no person named and that hears, at every instant, only its speaker or
      the candidate it confirms carries its speaker's name. */
  lemma {:induction false} ConfirmationReachesBack(cfg: Config, store: Store, steps: seq<Step>, e: Evidence, c: Ref)
    requires cfg.Valid() && e.a.status == New
    ensures Inv(cfg, World(Fresh, store))
    ensures var s := Run(cfg, World(Fresh, store), steps);
            var t := Run(cfg, World(Fresh, store), steps + [Observe(e)]);
      Intervals(s.reducer.captions)
      && (TakesIn(cfg, s, e) && e in t.reducer.history && Automatic(t, c) && OnlyThat(t.reducer.history, e, c)
          && (forall x :: c.start <= x < c.end ==> HeardAt(t.reducer.history, c, x))
          ==> t.store[c.id].speaker == e.a.speaker)
  {
    FreshHolds(cfg, store);
    var w := World(Fresh, store);
    RunInv(cfg, w, steps);
    var s, t := Run(cfg, w, steps), Run(cfg, w, steps + [Observe(e)]);
    assert Intervals(s.reducer.captions);
    hide *;
    if TakesIn(cfg, s, e) && e in t.reducer.history && Automatic(t, c) && OnlyThat(t.reducer.history, e, c)
       && (forall x :: c.start <= x < c.end ==> HeardAt(t.reducer.history, c, x)) {
      LatestSpeaks(cfg, w, steps, e, c);
      OneVoiceNames(cfg, store, steps + [Observe(e)], c, e.a.speaker.value);
      FullyHeard(cfg, t.reducer.history, c);
    }
  }

  lemma {:induction false} LatestSpeaks(cfg: Config, w: World, steps: seq<Step>, e: Evidence, c: Ref)
    requires Inv(cfg, w) && e.a.status == New
    requires Intervals(Run(cfg, w, steps).reducer.captions) && TakesIn(cfg, Run(cfg, w, steps), e)
    requires var history := Run(cfg, w, steps + [Observe(e)]).reducer.history; e in history && OnlyThat(history, e, c)
    ensures var more := steps + [Observe(e)];
      e.a.speaker.Some? && OnlyVoice(Trace(cfg, w, more), Run(cfg, w, more).reducer.history, c, e.a.speaker.value)
  {
    RunAppend(cfg, w, steps, Observe(e));
    var s := Run(cfg, w, steps);
    var m := Happened(cfg, s, Observe(e));
    assert m.taken == Some(e) && m.kept == Apply(cfg, s, Observe(e)).reducer.history;
    TakenFormed(cfg, s, e);
    assert e.a.speaker.Some?;
    hide *;
    TakenSpeaks(Trace(cfg, w, steps), m, e, c);
  }

  lemma {:induction false} FullyHeard(cfg: Config, history: seq<Evidence>, c: Ref)
    requires cfg.Valid() && c.start < c.end && forall x :: c.start <= x < c.end ==> HeardAt(history, c, x)
    ensures var n := HeardTime(history, c, c.start, c.end);
      n > 0 && Fraction(n, c.end - c.start) >= cfg.policy.minCoverage
  {
    AlwaysHeard(history, c, c.start, c.end);
    FullFraction(c.end - c.start);
    hide HeardTime, Fraction;
  }
}
