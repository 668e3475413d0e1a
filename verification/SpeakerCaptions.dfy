/** The incremental speaker reducer (speaker_captions.py) over the caption store it patches
    (captions.py): it rechecks only the captions new evidence can touch. */
module SpeakerCaptions {
  import opened Wrappers
  import opened Common
  import opened SpeakerDecision

  datatype Status = Unknown | Provisional | Existing | New

  datatype Assignment = Assignment(
    sample: string, track: string, start: int, end: int, status: Status,
    speaker: Option<string>, candidate: Option<string>, similarity: Option<real>, reason: string)

  datatype Evidence = Evidence(a: Assignment, epoch: string)

  /** A registered caption. */
  datatype Ref = Ref(id: string, track: string, epoch: string, start: int, end: int, revision: int)

  /** One stored caption; texts and translations play no part here. */
  datatype Caption = Caption(
    track: string, start: int, end: int, revision: int, speaker: Option<string>,
    speakerRevision: nat, manual: bool, superseded: bool)

  type Store = map<string, Caption>

  type Confirmed = map<(string, string, string), string>

  datatype Config = Config(policy: Policy, historyNs: nat, maxHistory: nat, maxCaptions: nat)
  {
    predicate Valid() {
      policy.Valid() && historyNs >= 1 && maxHistory >= 1 && maxCaptions >= 1
    }
  }

  /** `history` and `captions` are in insertion order, as the ordered dictionaries are. */
  datatype Reducer = Reducer(
    history: seq<Evidence>, captions: seq<Ref>, confirmed: Confirmed, watermark: int, floor: int)

  const Fresh := Reducer([], [], map[], 0, 0)

  datatype Error =
    | NotCurrent | EpochMoved | InvalidAssignment | SampleReused | CandidateConflict | ClockMovedBack

  // -------- Labels and what a caption hears

  function KeyOf(e: Evidence): (string, string, string) {
    (e.a.track, e.epoch, e.a.sample)
  }

  function CandidateKey(e: Evidence): (string, string, string)
    requires e.a.candidate.Some?
  {
    (e.a.track, e.epoch, e.a.candidate.value)
  }

  function VoiceOf(e: Evidence, confirmed: Confirmed): Option<string> {
    match e.a.status
    case New => e.a.speaker
    case Existing => e.a.speaker
    case Provisional =>
      if e.a.candidate.Some? && CandidateKey(e) in confirmed then Some(confirmed[CandidateKey(e)]) else None
    case Unknown => None
  }

  predicate Hears(c: Ref, e: Evidence) {
    e.a.track == c.track && e.epoch == c.epoch && Max(e.a.start, c.start) < Min(e.a.end, c.end)
  }

  function Clipped(e: Evidence, confirmed: Confirmed, c: Ref): Span {
    Span(VoiceOf(e, confirmed), Max(e.a.start, c.start), Min(e.a.end, c.end))
  }

  /** What the caption hears, as a set of labelled intervals. */
  function Relevant(history: seq<Evidence>, confirmed: Confirmed, c: Ref): set<Span> {
    set e | e in history && Hears(c, e) :: Clipped(e, confirmed, c)
  }

  /** The caption's decision recomputed from the whole history. */
  ghost function DecisionFor(cfg: Config, history: seq<Evidence>, confirmed: Confirmed, c: Ref): Decision
    requires c.start < c.end
  {
    Decided(cfg.policy, Relevant(history, confirmed, c), c.start, c.end)
  }

  predicate Matches(store: Store, c: Ref) {
    c.id in store && !store[c.id].superseded && store[c.id].revision == c.revision
    && store[c.id].track == c.track && store[c.id].start == c.start && store[c.id].end == c.end
  }

  // -------- Pruning

  function Live(history: seq<Evidence>, floor: int): (r: seq<Evidence>)
    ensures |r| <= |history|
  {
    if history == [] then []
    else if history[0].a.end <= floor then Live(history[1..], floor)
    else [history[0]] + Live(history[1..], floor)
  }

  lemma {:induction false} LiveHolds(history: seq<Evidence>, floor: int)
    ensures forall e :: e in Live(history, floor) <==> e in history && e.a.end > floor
  {
    if history != [] { LiveHolds(history[1..], floor); }
  }

  /** Index of the first entry that ends earliest. */
  function Oldest(history: seq<Evidence>): (i: nat)
    requires history != []
    ensures i < |history|
    ensures forall k :: 0 <= k < |history| ==> history[i].a.end <= history[k].a.end
    ensures forall k :: 0 <= k < i ==> history[i].a.end < history[k].a.end
  {
    if |history| == 1 then 0
    else
      var j := 1 + Oldest(history[1..]);
      if history[0].a.end <= history[j].a.end then 0 else j
  }

  /** Evicts the earliest endings until the history fits; each one raises the floor. */
  function Evict(history: seq<Evidence>, floor: int, limit: nat): (r: (seq<Evidence>, int))
    ensures |r.0| <= limit || |r.0| <= |history|
    ensures |r.0| <= limit && floor <= r.1
    ensures forall e :: e in r.0 ==> e in history
    ensures forall e :: e in history ==> e in r.0 || e.a.end <= r.1
    decreases |history|
  {
    if |history| <= limit then (history, floor)
    else
      var i := Oldest(history);
      var rest := Without(history, i);
      assert forall e :: e in history ==> e in rest || e == history[i];
      Evict(rest, Max(floor, history[i].a.end), limit)
  }

  function From(captions: seq<Ref>, floor: int): (r: seq<Ref>)
    ensures |r| <= |captions|
  {
    if captions == [] then []
    else if captions[0].start < floor then From(captions[1..], floor)
    else [captions[0]] + From(captions[1..], floor)
  }

  lemma {:induction false} FromHolds(captions: seq<Ref>, floor: int)
    ensures forall c :: c in From(captions, floor) <==> c in captions && floor <= c.start
  {
    if captions != [] { FromHolds(captions[1..], floor); }
  }

  function Candidates(history: seq<Evidence>): set<(string, string, string)> {
    set e | e in history && e.a.candidate.Some? :: CandidateKey(e)
  }

  function Pruned(cfg: Config, r: Reducer): Reducer {
    var floor := Max(Max(r.floor, r.watermark - cfg.historyNs), 0);
    var kept := Evict(Live(r.history, floor), floor, cfg.maxHistory);
    var candidates := Candidates(kept.0);
    r.(history := kept.0, floor := kept.1, captions := From(r.captions, kept.1),
       confirmed := r.confirmed - (r.confirmed.Keys - candidates))
  }

  // -------- Patching

  datatype Patch = Patch(id: string, speaker: Option<string>, speakerRevision: nat, revision: int)

  function Drop(captions: seq<Ref>, id: string): (r: seq<Ref>)
    ensures forall c :: c in r <==> c in captions && c.id != id
    ensures |r| <= |captions|
  {
    if captions == [] then []
    else if captions[0].id == id then Drop(captions[1..], id)
    else [captions[0]] + Drop(captions[1..], id)
  }

  datatype World = World(reducer: Reducer, store: Store)

  /** One caption rechecked: stale references go, manual names stay, others follow the evidence. */
  ghost function Rechecked(cfg: Config, s: World, c: Ref): World
    requires c.start < c.end
  {
    if !Matches(s.store, c) then s.(reducer := s.reducer.(captions := Drop(s.reducer.captions, c.id)))
    else if s.store[c.id].manual then s
    else
      var speaker := DecisionFor(cfg, s.reducer.history, s.reducer.confirmed, c).speaker;
      if s.store[c.id].speaker == speaker then s
      else s.(store := s.store[c.id :=
                s.store[c.id].(speaker := speaker, speakerRevision := s.store[c.id].speakerRevision + 1)])
  }

  ghost predicate Intervals(refs: seq<Ref>) {
    forall c :: c in refs ==> c.start < c.end
  }

  ghost function Patched(cfg: Config, s: World, refs: seq<Ref>): World
    requires Intervals(refs)
    decreases |refs|
  {
    if refs == [] then s
    else
      assert Intervals(refs[1..]) by { assert forall c :: c in refs[1..] ==> c in refs; }
      assert refs[0] in refs;
      Patched(cfg, Rechecked(cfg, s, refs[0]), refs[1..])
  }

  // -------- Steps

  function Find(captions: seq<Ref>, id: string): (i: nat)
    ensures i <= |captions|
    ensures i < |captions| ==> captions[i].id == id
    ensures i == |captions| ==> forall c :: c in captions ==> c.id != id
  {
    if captions == [] || captions[0].id == id then 0 else 1 + Find(captions[1..], id)
  }

  function FirstEnding(captions: seq<Ref>): (i: nat)
    requires captions != []
    ensures i < |captions|
    ensures forall k :: 0 <= k < |captions| ==> captions[i].end <= captions[k].end
  {
    if |captions| == 1 then 0
    else
      var j := 1 + FirstEnding(captions[1..]);
      if captions[0].end <= captions[j].end then 0 else j
  }

  /** A reference takes its old place, or the end after making room. */
  function Placed(captions: seq<Ref>, c: Ref, limit: nat): seq<Ref> {
    var i := Find(captions, c.id);
    if i < |captions| then captions[i := c]
    else if |captions| >= limit && captions != [] then Without(captions, FirstEnding(captions)) + [c]
    else captions + [c]
  }

  ghost function Registered(cfg: Config, s: World, c: Ref): Result<World, Error>
    requires c.start < c.end
  {
    var r := s.reducer;
    if !Matches(s.store, c) then Err(NotCurrent)
    else if Find(r.captions, c.id) < |r.captions| && r.captions[Find(r.captions, c.id)].epoch != c.epoch then
      Err(EpochMoved)
    else
      var p := Pruned(cfg, r.(watermark := Max(r.watermark, c.end)));
      if c.start < p.floor then Ok(s.(reducer := p))
      else Ok(Patched(cfg, s.(reducer := p.(captions := Placed(p.captions, c, cfg.maxCaptions))), [c]))
  }

  /** What the reducer demands of an assignment. */
  predicate WellFormed(a: Assignment) {
    && 0 <= a.start < a.end
    && (a.status in {Existing, New} <==> a.speaker.Some?)
    && (a.status in {Provisional, New} ==> a.candidate.Some?)
    && (a.status == Unknown ==> a.candidate.None?)
    && (a.similarity.Some? ==> -1.0 <= a.similarity.value <= 1.0) && |a.reason| <= 1024
  }

  function Seek(history: seq<Evidence>, key: (string, string, string)): (i: nat)
    ensures i <= |history|
    ensures i < |history| ==> KeyOf(history[i]) == key
    ensures i == |history| ==> forall e :: e in history ==> KeyOf(e) != key
  {
    if history == [] || KeyOf(history[0]) == key then 0 else 1 + Seek(history[1..], key)
  }

  /** The reducer with one more piece of evidence, before pruning. */
  function Added(r: Reducer, e: Evidence): Reducer {
    r.(watermark := Max(r.watermark, e.a.end), history := r.history + [e],
       confirmed := if e.a.status == New && e.a.candidate.Some? && e.a.speaker.Some?
                    then r.confirmed[CandidateKey(e) := e.a.speaker.value] else r.confirmed)
  }

  /** Earlier intervals that a confirmation names too. */
  predicate Renamed(e: Evidence, other: Evidence) {
    e.a.status == New && other.a.track == e.a.track && other.epoch == e.epoch
    && other.a.status == Provisional && other.a.candidate == e.a.candidate
  }

  predicate Meets(c: Ref, a: Assignment) {
    a.start < c.end && c.start < a.end
  }

  /** The captions the evidence may change. */
  predicate Touched(history: seq<Evidence>, e: Evidence, c: Ref) {
    c.track == e.a.track && c.epoch == e.epoch
    && (Meets(c, e.a) || exists other :: other in history && Renamed(e, other) && Meets(c, other.a))
  }

  function TouchedOf(history: seq<Evidence>, e: Evidence, captions: seq<Ref>): seq<Ref> {
    if captions == [] then []
    else (if Touched(history, e, captions[0]) then [captions[0]] else []) + TouchedOf(history, e, captions[1..])
  }

  lemma {:induction false} TouchedHolds(history: seq<Evidence>, e: Evidence, captions: seq<Ref>)
    ensures forall c :: c in TouchedOf(history, e, captions) <==> c in captions && Touched(history, e, c)
  {
    hide Touched;
    if captions != [] { TouchedHolds(history, e, captions[1..]); }
  }

  ghost function Observed(cfg: Config, s: World, e: Evidence): Result<World, Error>
    requires Intervals(s.reducer.captions)
  {
    var r := s.reducer;
    var i := Seek(r.history, KeyOf(e));
    if !WellFormed(e.a) then Err(InvalidAssignment)
    else if e.a.reason in {"duplicate_sample", "out_of_order"} then Ok(s)
    else if i < |r.history| then (if r.history[i].a != e.a then Err(SampleReused) else Ok(s))
    else if e.a.end <= r.floor then Ok(s)
    else if e.a.status == New && CandidateKey(e) in r.confirmed
            && r.confirmed[CandidateKey(e)] != e.a.speaker.value then
      Err(CandidateConflict)
    else
      var p := Pruned(cfg, Added(r, e));
      FromHolds(r.captions, p.floor);
      TouchedHolds(p.history, e, p.captions);
      Ok(Patched(cfg, s.(reducer := p), TouchedOf(p.history, e, p.captions)))
  }

  function Expired(cfg: Config, s: World, now: int): Result<World, Error> {
    if now < s.reducer.watermark then Err(ClockMovedBack)
    else Ok(s.(reducer := Pruned(cfg, s.reducer.(watermark := now))))
  }

  // -------- What others may do to the store

  datatype StoreError = NotASource | TrackMoved

  /** A newer source revision keeps the speaker; a first one may bring its own, but never a
      revision or an override of it. The flag says whether anything was stored. */
  function Upserted(store: Store, id: string, c: Caption): Result<(Store, bool), StoreError> {
    if c.superseded || c.speakerRevision != 0 || c.manual then Err(NotASource)
    else if id !in store then Ok((store[id := c], true))
    else
      var was := store[id];
      if was.track != c.track then Err(TrackMoved)
      else if was.superseded || c.revision <= was.revision then Ok((store, false))
      else
        Ok((store[id := c.(speaker := was.speaker, speakerRevision := was.speakerRevision, manual := was.manual)],
            true))
  }

  /** A person names the speaker; from then on only people do. */
  function Overridden(store: Store, id: string, speaker: Option<string>, speakerRevision: nat): Store {
    if id !in store || store[id].superseded || speakerRevision <= store[id].speakerRevision then store
    else store[id := store[id].(speaker := speaker, speakerRevision := speakerRevision, manual := true)]
  }

  function Superseded(store: Store, id: string): Store {
    if id !in store then store else store[id := store[id].(superseded := true)]
  }

  datatype Step =
    | Register(c: Ref) | Observe(e: Evidence) | Expire(now: int)
    | Upsert(id: string, caption: Caption) | Override(id: string, speaker: Option<string>, speakerRevision: nat)
    | Supersede(id: string)

  ghost function Apply(cfg: Config, s: World, step: Step): World
    requires Intervals(s.reducer.captions)
  {
    match step
    case Register(c) => if c.start < c.end then Registered(cfg, s, c).GetOr(s) else s
    case Observe(e) => Observed(cfg, s, e).GetOr(s)
    case Expire(now) => Expired(cfg, s, now).GetOr(s)
    case Upsert(id, c) => s.(store := Upserted(s.store, id, c).GetOr((s.store, false)).0)
    case Override(id, speaker, revision) => s.(store := Overridden(s.store, id, speaker, revision))
    case Supersede(id) => s.(store := Superseded(s.store, id))
  }

  // -------- The invariant

  /** The stored speaker is the one recomputed from all retained evidence. */
  ghost predicate Named(cfg: Config, s: World, c: Ref)
    requires c.start < c.end
  {
    Matches(s.store, c) && !s.store[c.id].manual ==>
      s.store[c.id].speaker == DecisionFor(cfg, s.reducer.history, s.reducer.confirmed, c).speaker
  }

  ghost predicate Distinct(captions: seq<Ref>) {
    forall i, j :: 0 <= i < j < |captions| ==> captions[i].id != captions[j].id
  }

  ghost predicate Bounded(cfg: Config, r: Reducer) {
    && |r.history| <= cfg.maxHistory && |r.captions| <= cfg.maxCaptions && Distinct(r.captions) && Intervals(r.captions)
    && forall c :: c in r.captions ==> r.floor <= c.start
  }

  /** Source revisions only grow, so a stale reference never matches again. */
  predicate Anchored(store: Store, c: Ref) {
    c.id in store && c.revision <= store[c.id].revision
  }

  /** Every retained caption that is current and not named by a person carries exactly
      the decision of a full recomputation. */
  ghost predicate Inv(cfg: Config, s: World) {
    && cfg.Valid() && Bounded(cfg, s.reducer)
    && forall c :: c in s.reducer.captions ==> Anchored(s.store, c) && Named(cfg, s, c)
  }

  // -------- Pruning forgets nothing a retained caption hears

  lemma {:induction false} HeardIsKept(cfg: Config, r: Reducer, c: Ref, e: Evidence)
    requires e in r.history && Hears(c, e) && Pruned(cfg, r).floor <= c.start
    ensures e in Pruned(cfg, r).history
  {
    LiveHolds(r.history, Max(Max(r.floor, r.watermark - cfg.historyNs), 0));
  }

  lemma {:induction false} EvictEarliest(history: seq<Evidence>, floor: int, limit: nat)
    ensures var r := Evict(history, floor, limit);
      && |r.0| == Min(|history|, limit)
      && (forall d, k :: d in history && d !in r.0 && k in r.0 ==> d.a.end <= k.a.end)
      && (r.1 == floor || (|history| > limit && exists d :: d in history && r.1 == d.a.end))
    decreases |history|
  {
    if |history| > limit {
      var i := Oldest(history);
      var rest := Without(history, i);
      EvictEarliest(rest, Max(floor, history[i].a.end), limit);
      assert forall e :: e in history ==> e in rest || e == history[i];
      assert forall e :: e in rest ==> e in history;
    }
  }

  /** Pruning forgets no more than it must: evidence older than the history, then the
      earliest endings beyond the capacity; and captions that start before what is left. */
  lemma {:induction false} PruneForgetsLittle(cfg: Config, r: Reducer)
    ensures var p, base := Pruned(cfg, r), Max(Max(r.floor, r.watermark - cfg.historyNs), 0);
            var live := Live(r.history, base);
      && (forall e :: e in live <==> e in r.history && base < e.a.end)
      && (forall e :: e in p.history ==> e in live) && |p.history| == Min(|live|, cfg.maxHistory)
      && (|live| <= cfg.maxHistory ==> p.history == live && p.floor == base)
      && (forall d, k :: d in live && d !in p.history && k in p.history ==> d.a.end <= k.a.end)
      && (p.floor == base || exists d :: d in live && p.floor == d.a.end)
      && (forall c :: c in p.captions <==> c in r.captions && p.floor <= c.start)
  {
    var base := Max(Max(r.floor, r.watermark - cfg.historyNs), 0);
    LiveHolds(r.history, base);
    EvictEarliest(Live(r.history, base), base, cfg.maxHistory);
    FromHolds(r.captions, Pruned(cfg, r).floor);
    hide Live, From, Oldest;
  }

  lemma {:induction false} PrunedVoice(cfg: Config, r: Reducer, e: Evidence)
    requires e in Pruned(cfg, r).history
    ensures e in r.history && VoiceOf(e, Pruned(cfg, r).confirmed) == VoiceOf(e, r.confirmed)
  {
    var p := Pruned(cfg, r);
    LiveHolds(r.history, Max(Max(r.floor, r.watermark - cfg.historyNs), 0));
    if e.a.candidate.Some? {
      assert CandidateKey(e) in Candidates(p.history);
    }
  }

  lemma {:induction false} SameClips(h: seq<Evidence>, conf: Confirmed, h': seq<Evidence>, conf': Confirmed, c: Ref)
    requires forall e :: Hears(c, e) ==> (e in h <==> e in h')
    requires forall e :: e in h && Hears(c, e) ==> VoiceOf(e, conf) == VoiceOf(e, conf')
    ensures Relevant(h, conf, c) == Relevant(h', conf', c)
  {
    forall s | s in Relevant(h, conf, c)
      ensures s in Relevant(h', conf', c)
    {
      var e :| e in h && Hears(c, e) && s == Clipped(e, conf, c);
      assert e in h' && s == Clipped(e, conf', c);
    }
    forall s | s in Relevant(h', conf', c)
      ensures s in Relevant(h, conf, c)
    {
      var e :| e in h' && Hears(c, e) && s == Clipped(e, conf', c);
      assert e in h && s == Clipped(e, conf, c);
    }
  }

  lemma {:induction false} PruneKeepsRelevant(cfg: Config, r: Reducer, c: Ref)
    requires Pruned(cfg, r).floor <= c.start
    ensures var p := Pruned(cfg, r);
      Relevant(p.history, p.confirmed, c) == Relevant(r.history, r.confirmed, c)
  {
    hide Pruned, VoiceOf;
    var p := Pruned(cfg, r);
    forall e | Hears(c, e)
      ensures e in p.history <==> e in r.history
      ensures e in r.history ==> VoiceOf(e, p.confirmed) == VoiceOf(e, r.confirmed)
    {
      if e in r.history { HeardIsKept(cfg, r, c, e); }
      if e in p.history { PrunedVoice(cfg, r, e); }
    }
    SameClips(r.history, r.confirmed, p.history, p.confirmed, c);
  }

  /** Evidence that does not touch a caption changes nothing it hears, though a
      confirmation may rename many earlier intervals. */
  lemma {:induction false} UntouchedRelevant(cfg: Config, r: Reducer, e: Evidence, c: Ref)
    requires WellFormed(e.a)
    requires Pruned(cfg, Added(r, e)).floor <= c.start
    requires !Touched(Pruned(cfg, Added(r, e)).history, e, c)
    ensures var p := Pruned(cfg, Added(r, e));
      Relevant(p.history, p.confirmed, c) == Relevant(r.history, r.confirmed, c)
  {
    hide Pruned;
    var a := Added(r, e);
    var p := Pruned(cfg, a);
    PruneKeepsRelevant(cfg, a, c);
    forall x | Hears(c, x)
      ensures x in a.history <==> x in r.history
      ensures x in r.history ==> VoiceOf(x, a.confirmed) == VoiceOf(x, r.confirmed)
    {
      assert x != e;
      if x in r.history {
        HeardIsKept(cfg, a, c, x);
        assert x in p.history && !Renamed(e, x);
      }
    }
    SameClips(r.history, r.confirmed, a.history, a.confirmed, c);
  }

  // -------- Patching

  /** Nothing but captions and speaker fields differs. */
  ghost predicate OnlyNames(s: World, t: World) {
    && t.reducer == s.reducer.(captions := t.reducer.captions)
    && (forall c :: c in t.reducer.captions ==> c in s.reducer.captions) && |t.reducer.captions| <= |s.reducer.captions|
    && (forall c :: Matches(t.store, c) <==> Matches(s.store, c))
    && (forall c :: Anchored(t.store, c) <==> Anchored(s.store, c))
  }

  lemma {:induction false} RecheckedNames(cfg: Config, s: World, c: Ref)
    requires c.start < c.end
    ensures var t := Rechecked(cfg, s, c);
      && OnlyNames(s, t) && Named(cfg, t, c)
      && forall d: Ref :: d.start < d.end && d.id != c.id ==> (Named(cfg, t, d) <==> Named(cfg, s, d))
  {
    hide DecisionFor;
  }

  lemma {:induction false} OnlyNamesTwice(a: World, b: World, c: World)
    requires OnlyNames(a, b) && OnlyNames(b, c)
    ensures OnlyNames(a, c)
  {
    hide Matches, Anchored;
  }

  lemma {:induction false} DropKeeps(captions: seq<Ref>, id: string)
    requires Distinct(captions)
    ensures Distinct(Drop(captions, id))
  {
    if captions != [] {
      DropKeeps(captions[1..], id);
      var rest := Drop(captions[1..], id);
      forall c | c in rest
        ensures c.id != captions[0].id
      {
        var k :| 0 <= k < |captions[1..]| && captions[1..][k] == c;
        assert captions[k + 1] == c;
      }
    }
  }

  /** Rechecking a list of different captions names each, and no other. */
  lemma {:induction false} PatchedNames(cfg: Config, s: World, refs: seq<Ref>)
    requires Intervals(refs) && Distinct(refs)
    ensures var t := Patched(cfg, s, refs);
      && OnlyNames(s, t) && (Distinct(s.reducer.captions) ==> Distinct(t.reducer.captions))
      && (forall c :: c in refs ==> Named(cfg, t, c))
      && (forall c: Ref :: c.start < c.end && Apart(refs, c) && Named(cfg, s, c) ==> Named(cfg, t, c))
    decreases |refs|
  {
    if refs != [] {
      var c := refs[0];
      assert c in refs;
      assert Intervals(refs[1..]) by { assert forall d :: d in refs[1..] ==> d in refs; }
      var m := Rechecked(cfg, s, c);
      RecheckedNames(cfg, s, c);
      if Distinct(s.reducer.captions) { DropKeeps(s.reducer.captions, c.id); }
      PatchedNames(cfg, m, refs[1..]);
      hide Named, Rechecked, OnlyNames;
      OnlyNamesTwice(s, m, Patched(cfg, m, refs[1..]));
      assert Apart(refs[1..], c) by {
        forall d | d in refs[1..]
          ensures d.id != c.id
        {
          var k :| 0 <= k < |refs[1..]| && refs[1..][k] == d;
          assert refs[k + 1] == d;
        }
      }
      forall d: Ref | d.start < d.end && Apart(refs, d) && Named(cfg, s, d)
        ensures Named(cfg, Patched(cfg, m, refs[1..]), d)
      {
        assert Apart(refs[1..], d) by { assert forall x :: x in refs[1..] ==> x in refs; }
        assert d.id != c.id;
      }
      forall d | d in refs
        ensures Named(cfg, Patched(cfg, m, refs[1..]), d)
      {
        if d != c { assert d in refs[1..]; }
      }
    } else {
      OnlyNamesSelf(s);
    }
  }

  lemma {:induction false} OnlyNamesSelf(s: World)
    ensures OnlyNames(s, s)
  {
  }

  ghost predicate Apart(refs: seq<Ref>, c: Ref) {
    forall d :: d in refs ==> d.id != c.id
  }

  // -------- Every step keeps it

  lemma {:induction false} FromDistinct(captions: seq<Ref>, floor: int)
    requires Distinct(captions)
    ensures Distinct(From(captions, floor))
  {
    if captions != [] {
      FromHolds(captions[1..], floor);
      FromDistinct(captions[1..], floor);
      forall c | c in From(captions[1..], floor)
        ensures c.id != captions[0].id
      {
        var k :| 0 <= k < |captions[1..]| && captions[1..][k] == c;
        assert captions[k + 1] == c;
      }
    }
  }

  lemma {:induction false} TouchedDistinct(history: seq<Evidence>, e: Evidence, captions: seq<Ref>)
    requires Distinct(captions)
    ensures Distinct(TouchedOf(history, e, captions))
  {
    hide Touched;
    if captions != [] {
      TouchedHolds(history, e, captions[1..]);
      TouchedDistinct(history, e, captions[1..]);
      forall c | c in TouchedOf(history, e, captions[1..])
        ensures c.id != captions[0].id
      {
        var k :| 0 <= k < |captions[1..]| && captions[1..][k] == c;
        assert captions[k + 1] == c;
      }
    }
  }

  lemma {:induction false} PrunedBounded(cfg: Config, r: Reducer)
    requires Bounded(cfg, r.(history := [])) || Bounded(cfg, r)
    ensures Bounded(cfg, Pruned(cfg, r))
  {
    FromHolds(r.captions, Pruned(cfg, r).floor);
    FromDistinct(r.captions, Pruned(cfg, r).floor);
  }

  /** Watching the clock alone renames nothing. */
  lemma {:induction false} PrunedNamed(cfg: Config, s: World, r: Reducer, c: Ref)
    requires r.history == s.reducer.history && r.confirmed == s.reducer.confirmed
    requires c in Pruned(cfg, r).captions && c.start < c.end && Named(cfg, s, c)
    ensures Named(cfg, s.(reducer := Pruned(cfg, r)), c)
  {
    hide Matches, Relevant, Decided, Pruned;
    PrunedCaptions(cfg, r);
    PruneKeepsRelevant(cfg, r, c);
  }

  lemma {:induction false} ExpireKeeps(cfg: Config, s: World, now: int)
    requires Inv(cfg, s)
    ensures Inv(cfg, Expired(cfg, s, now).GetOr(s))
  {
    hide Named, Anchored;
    if now >= s.reducer.watermark {
      var r := s.reducer.(watermark := now);
      PrunedBounded(cfg, r);
      PrunedCaptions(cfg, r);
      forall c | c in Pruned(cfg, r).captions
        ensures Named(cfg, s.(reducer := Pruned(cfg, r)), c)
      {
        PrunedNamed(cfg, s, r, c);
      }
    }
  }

  lemma {:induction false} PlacedHolds(captions: seq<Ref>, c: Ref, limit: nat)
    requires Distinct(captions) && |captions| <= limit && limit >= 1
    ensures var r := Placed(captions, c, limit);
      && Distinct(r) && |r| <= limit && forall d :: d in r ==> d == c || (d in captions && d.id != c.id)
  {
    var i := Find(captions, c.id);
    if i < |captions| {
      var r := captions[i := c];
      forall d | d in r
        ensures d == c || (d in captions && d.id != c.id)
      {
        var k :| 0 <= k < |r| && r[k] == d;
        if k != i { assert captions[k] == d; }
      }
    } else if |captions| >= limit {
      hide Find;
      OneOut(captions, FirstEnding(captions));
    }
  }

  lemma {:induction false} OneOut(captions: seq<Ref>, f: nat)
    requires Distinct(captions) && f < |captions|
    ensures Distinct(Without(captions, f)) && forall d :: d in Without(captions, f) ==> d in captions
  {
    var r := Without(captions, f);
    forall k | 0 <= k < |r|
      ensures r[k] == if k < f then captions[k] else captions[k + 1]
    {
    }
  }

  /** A reducer whose captions are all named but for the ones about to be rechecked. */
  lemma {:induction false} RecheckKeeps(cfg: Config, s: World, refs: seq<Ref>)
    requires cfg.Valid() && Bounded(cfg, s.reducer) && Intervals(refs) && Distinct(refs)
    requires forall c :: c in refs ==> c in s.reducer.captions
    requires forall c :: c in s.reducer.captions ==> Anchored(s.store, c)
    requires forall c :: c in s.reducer.captions && c !in refs ==> Named(cfg, s, c)
    ensures Inv(cfg, Patched(cfg, s, refs))
  {
    hide Named, Anchored, Patched;
    PatchedNames(cfg, s, refs);
    var t := Patched(cfg, s, refs);
    assert Intervals(t.reducer.captions) by { assert forall c :: c in t.reducer.captions ==> c in s.reducer.captions; }
    forall c | c in t.reducer.captions
      ensures Anchored(t.store, c) && Named(cfg, t, c)
    {
      assert c in s.reducer.captions;
      if c !in refs { ApartFrom(s.reducer.captions, refs, c); }
    }
  }

  lemma {:induction false} ApartFrom(captions: seq<Ref>, refs: seq<Ref>, c: Ref)
    requires Distinct(captions) && c in captions && c !in refs && forall d :: d in refs ==> d in captions
    ensures Apart(refs, c)
  {
    forall d | d in refs
      ensures d.id != c.id
    {
      var i :| 0 <= i < |captions| && captions[i] == c;
      var j :| 0 <= j < |captions| && captions[j] == d;
      assert i != j;
    }
  }

  lemma {:induction false} RegisterKeeps(cfg: Config, s: World, c: Ref)
    requires Inv(cfg, s) && c.start < c.end
    ensures Inv(cfg, Registered(cfg, s, c).GetOr(s))
  {
    if Registered(cfg, s, c).Ok? {
      var r := s.reducer.(watermark := Max(s.reducer.watermark, c.end));
      var p := Pruned(cfg, r);
      assert Anchored(s.store, c);
      hide Named, Anchored, Pruned, Matches, Placed;
      PrunedBounded(cfg, r);
      PrunedCaptions(cfg, r);
      forall d | d in p.captions
        ensures Named(cfg, s.(reducer := p), d)
      {
        PrunedNamed(cfg, s, r, d);
      }
      if p.floor <= c.start {
        PlacedHolds(p.captions, c, cfg.maxCaptions);
        var q := p.(captions := Placed(p.captions, c, cfg.maxCaptions));
        PlacedIn(p.captions, c, cfg.maxCaptions);
        forall d | d in q.captions && d !in [c]
          ensures Named(cfg, s.(reducer := q), d)
        {
          SameNames(cfg, s.(reducer := p), s.(reducer := q), d);
        }
        RecheckKeeps(cfg, s.(reducer := q), [c]);
      }
    }
  }

  lemma {:induction false} PlacedIn(captions: seq<Ref>, c: Ref, limit: nat)
    ensures c in Placed(captions, c, limit)
  {
    var i := Find(captions, c.id);
    if i < |captions| { assert captions[i := c][i] == c; }
  }

  lemma {:induction false} PrunedCaptions(cfg: Config, r: Reducer)
    ensures forall c :: c in Pruned(cfg, r).captions ==> c in r.captions && Pruned(cfg, r).floor <= c.start
  {
    FromHolds(r.captions, Pruned(cfg, r).floor);
  }

  lemma {:induction false} SameNames(cfg: Config, s: World, t: World, c: Ref)
    requires c.start < c.end && t.store == s.store
    requires t.reducer.history == s.reducer.history && t.reducer.confirmed == s.reducer.confirmed
    ensures Named(cfg, s, c) <==> Named(cfg, t, c)
  {
  }

  lemma {:induction false} ObserveKeeps(cfg: Config, s: World, e: Evidence)
    requires Inv(cfg, s)
    ensures Inv(cfg, Observed(cfg, s, e).GetOr(s))
  {
    var r := s.reducer;
    if Observed(cfg, s, e).Ok? && Observed(cfg, s, e).value != s {
      var p := Pruned(cfg, Added(r, e));
      hide Named, Anchored, Pruned, Matches, Touched, Patched;
      AddedBounded(cfg, r, e);
      PrunedCaptions(cfg, Added(r, e));
      TouchedHolds(p.history, e, p.captions);
      TouchedDistinct(p.history, e, p.captions);
      var refs := TouchedOf(p.history, e, p.captions);
      assert Intervals(refs) by { assert forall c :: c in refs ==> c in p.captions; }
      forall c | c in p.captions && c !in refs
        ensures Named(cfg, s.(reducer := p), c)
      {
        UntouchedNamed(cfg, s, e, c);
      }
      RecheckKeeps(cfg, s.(reducer := p), refs);
    }
  }

  lemma {:induction false} AddedBounded(cfg: Config, r: Reducer, e: Evidence)
    requires Bounded(cfg, r)
    ensures Bounded(cfg, Pruned(cfg, Added(r, e)))
  {
    hide Pruned;
    PrunedBounded(cfg, Added(r, e));
  }

  lemma {:induction false} UntouchedNamed(cfg: Config, s: World, e: Evidence, c: Ref)
    requires WellFormed(e.a) && c.start < c.end && Named(cfg, s, c)
    requires c in Pruned(cfg, Added(s.reducer, e)).captions
    requires !Touched(Pruned(cfg, Added(s.reducer, e)).history, e, c)
    ensures Named(cfg, s.(reducer := Pruned(cfg, Added(s.reducer, e))), c)
  {
    hide Matches, Relevant, Decided, Touched, Pruned;
    PrunedCaptions(cfg, Added(s.reducer, e));
    UntouchedRelevant(cfg, s.reducer, e, c);
  }

  lemma {:induction false} StoreKeeps(cfg: Config, s: World, store: Store)
    requires Inv(cfg, s)
    requires forall c :: c in s.reducer.captions ==>
      && Anchored(store, c)
      && (Matches(store, c) && !store[c.id].manual ==>
            Matches(s.store, c) && !s.store[c.id].manual && store[c.id].speaker == s.store[c.id].speaker)
    ensures Inv(cfg, s.(store := store))
  {
    hide Relevant, Decided, Bounded;
    assert Intervals(s.reducer.captions) by { BoundedIntervals(cfg, s.reducer); }
    forall c | c in s.reducer.captions
      ensures Named(cfg, s.(store := store), c)
    {
      assert Named(cfg, s, c);
    }
  }

  lemma {:induction false} BoundedIntervals(cfg: Config, r: Reducer)
    requires Bounded(cfg, r)
    ensures Intervals(r.captions)
  {
  }

  /** Captions, evidence, the clock, newer sources, people and supersession all keep the
      agreement with recomputation. */
  lemma {:induction false} ApplyKeeps(cfg: Config, s: World, step: Step)
    requires Inv(cfg, s)
    ensures Inv(cfg, Apply(cfg, s, step))
  {
    match step
    case Register(c) => if c.start < c.end { RegisterKeeps(cfg, s, c); }
    case Observe(e) => ObserveKeeps(cfg, s, e);
    case Expire(now) => ExpireKeeps(cfg, s, now);
    case Upsert(id, c) => StoreKeeps(cfg, s, Upserted(s.store, id, c).GetOr((s.store, false)).0);
    case Override(id, speaker, revision) => StoreKeeps(cfg, s, Overridden(s.store, id, speaker, revision));
    case Supersede(id) => StoreKeeps(cfg, s, Superseded(s.store, id));
  }

  ghost function Run(cfg: Config, s: World, steps: seq<Step>): World
    requires Inv(cfg, s)
    decreases |steps|
  {
    if steps == [] then s else ApplyKeeps(cfg, s, steps[0]); Run(cfg, Apply(cfg, s, steps[0]), steps[1..])
  }

  lemma {:induction false} RunInv(cfg: Config, s: World, steps: seq<Step>)
    requires Inv(cfg, s)
    ensures Inv(cfg, Run(cfg, s, steps))
    decreases |steps|
  {
    hide Named, Anchored, Apply;
    if steps != [] {
      ApplyKeeps(cfg, s, steps[0]);
      RunInv(cfg, Apply(cfg, s, steps[0]), steps[1..]);
    }
  }

  lemma {:induction false} FreshHolds(cfg: Config, store: Store)
    requires cfg.Valid()
    ensures Inv(cfg, World(Fresh, store))
  {
  }

  /** The caption carries what a sweep over all retained evidence decides, unless it is out
      of date or a person named it. */
  ghost predicate Recomputed(cfg: Config, s: World, c: Ref)
    requires c.start < c.end
  {
    Matches(s.store, c) && !s.store[c.id].manual ==>
      s.store[c.id].speaker
      == Decided(cfg.policy, Relevant(s.reducer.history, s.reducer.confirmed, c), c.start, c.end).speaker
  }

  /** Incremental equals recomputed: over any history of captions, evidence, clocks, edits
      and overrides, and however much has been evicted, every retained current caption
      that no person named carries the decision of a sweep over all retained evidence. */
  lemma {:induction false} RunKeeps(cfg: Config, store: Store, steps: seq<Step>)
    requires cfg.Valid()
    ensures Inv(cfg, World(Fresh, store))
    ensures var s := Run(cfg, World(Fresh, store), steps);
      && (forall c :: c in s.reducer.captions ==>
            c.start < c.end && s.reducer.floor <= c.start && Recomputed(cfg, s, c))
      && |s.reducer.history| <= cfg.maxHistory && |s.reducer.captions| <= cfg.maxCaptions
  {
    FreshHolds(cfg, store);
    RunInv(cfg, World(Fresh, store), steps);
    var s := Run(cfg, World(Fresh, store), steps);
    hide Run, Relevant, Decided, Matches;
    forall c | c in s.reducer.captions
      ensures c.start < c.end && s.reducer.floor <= c.start && Recomputed(cfg, s, c)
    {
      assert Named(cfg, s, c);
    }
  }
}
