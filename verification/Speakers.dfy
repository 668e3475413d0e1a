/** Open-set speaker tracking (speakers.py): when an identity may be minted. Embeddings are
    compared and blended by oracles; the evidence rules hold for any. */
module Speakers {
  import opened Wrappers
  import opened Common

  type Voice = seq<real>

  datatype Model = Model(similarity: (Voice, Voice) -> real, blend: (Voice, Voice, real) -> Voice)

  datatype Config = Config(
    matchSimilarity: real, newSimilarity: real, candidateSimilarity: real, updateSimilarity: real, minMargin: real,
    minQuality: real, minSpeech: nat, confirmationSpeech: nat, minConfirmations: nat, candidateIdle: nat,
    maxCandidates: nat, maxSpeakers: nat, maxRecent: nat, updateRate: real)
  {
    predicate Valid() {
      && -1.0 <= newSimilarity < matchSimilarity <= updateSimilarity <= 1.0
      && newSimilarity < candidateSimilarity <= 1.0
      && 0.0 <= minMargin <= 2.0 && 0.0 <= minQuality <= 1.0 && 0.0 < updateRate <= 1.0
      && minSpeech >= 1 && confirmationSpeech >= 1 && minConfirmations >= 2 && candidateIdle >= 1
      && maxCandidates >= 1 && maxSpeakers >= 1 && maxRecent >= 1
    }
  }

  datatype Observation = Observation(
    sample: string, track: string, start: int, end: int, voice: Voice, speech: int, overlap: bool, quality: real)

  datatype Profile = Profile(id: nat, prototype: Voice, support: nat, lastSeen: int, lastSupport: int)

  datatype Candidate = Candidate(id: nat, prototype: Voice, support: nat, speech: int, lastEnd: int)

  /** Speakers and candidates in insertion order; identifiers are the counters behind their names. */
  datatype Tracker = Tracker(
    speakers: seq<Profile>, candidates: seq<Candidate>, recent: seq<(string, string)>, dimension: Option<nat>,
    watermark: int, speakerSeq: nat, candidateSeq: nat)

  datatype Reason =
    | Duplicate | OutOfOrder | Overlap | LowQuality | LittleSpeech | AmbiguousExisting | MatchedExisting
    | AmbiguousCandidate | OverlappingEvidence | CollectingEvidence | SpeakerCapacity | ConfirmedNew

  datatype Status = Unknown | Provisional | Existing | New

  datatype Assignment = Assignment(
    status: Status, speaker: Option<nat>, candidate: Option<nat>, reason: Reason, similarity: Option<real>)

  datatype Error = InvalidObservation | DimensionChanged | ClockMovedBack

  // -------- Ranking

  /** The index of the highest score, the higher identifier first among equals. */
  function Best(scores: seq<real>, ids: seq<nat>): (i: nat)
    requires |scores| == |ids| && scores != []
    ensures i < |scores| && forall k :: 0 <= k < |scores| ==> scores[k] <= scores[i]
    ensures forall k :: 0 <= k < |scores| && scores[k] == scores[i] ==> ids[k] <= ids[i]
  {
    if |scores| == 1 then 0
    else
      var j := 1 + Best(scores[1..], ids[1..]);
      if scores[0] > scores[j] || (scores[0] == scores[j] && ids[0] > ids[j]) then 0 else j
  }

  function Clip(x: real): real {
    if x < -1.0 then -1.0 else if x > 1.0 then 1.0 else x
  }

  /** The highest score from `from` on but for index `i`; scores are at least -1. */
  function Rival(scores: seq<real>, i: nat, from: nat): (r: real)
    requires from <= |scores|
    ensures forall k :: from <= k < |scores| && k != i ==> scores[k] <= r
    ensures -1.0 <= r && (-1.0 < r ==> exists k :: from <= k < |scores| && k != i && scores[k] == r)
    decreases |scores| - from
  {
    if from == |scores| then -1.0
    else
      var rest := Rival(scores, i, from + 1);
      if from != i && scores[from] > rest then scores[from] else rest
  }

  function Scores(m: Model, voice: Voice, prototypes: seq<Voice>): (r: seq<real>)
    ensures |r| == |prototypes|
  {
    seq(|prototypes|, i requires 0 <= i < |prototypes| => Clip(m.similarity(voice, prototypes[i])))
  }

  function SpeakerScores(m: Model, t: Tracker, voice: Voice): (r: seq<real>)
    ensures |r| == |t.speakers|
  {
    Scores(m, voice, seq(|t.speakers|, i requires 0 <= i < |t.speakers| => t.speakers[i].prototype))
  }

  function CandidateScores(m: Model, t: Tracker, voice: Voice): (r: seq<real>)
    ensures |r| == |t.candidates|
  {
    Scores(m, voice, seq(|t.candidates|, i requires 0 <= i < |t.candidates| => t.candidates[i].prototype))
  }

  function SpeakerIds(t: Tracker): (r: seq<nat>)
    ensures |r| == |t.speakers|
  {
    seq(|t.speakers|, i requires 0 <= i < |t.speakers| => t.speakers[i].id)
  }

  function CandidateIds(t: Tracker): (r: seq<nat>)
    ensures |r| == |t.candidates|
  {
    seq(|t.candidates|, i requires 0 <= i < |t.candidates| => t.candidates[i].id)
  }

  // -------- Steps

  function Kept(candidates: seq<Candidate>, now: int, idle: nat): (r: seq<Candidate>)
    ensures |r| <= |candidates|
  {
    if candidates == [] then []
    else if now - candidates[0].lastEnd > idle then Kept(candidates[1..], now, idle)
    else [candidates[0]] + Kept(candidates[1..], now, idle)
  }

  function Expired(c: Config, t: Tracker, now: int): Tracker {
    t.(watermark := now, candidates := Kept(t.candidates, now, c.candidateIdle))
  }

  function Cleared(t: Tracker): Tracker {
    t.(candidates := [])
  }

  function Remembered(c: Config, t: Tracker, key: (string, string)): Tracker {
    var all := t.recent + [key];
    t.(recent := if |all| > c.maxRecent then all[1..] else all)
  }

  /** The candidate whose evidence ended first. */
  function Oldest(candidates: seq<Candidate>): (i: nat)
    requires candidates != []
    ensures i < |candidates|
    ensures forall k :: 0 <= k < |candidates| ==> candidates[i].lastEnd <= candidates[k].lastEnd
    ensures forall k :: 0 <= k < i ==> candidates[i].lastEnd < candidates[k].lastEnd
  {
    if |candidates| == 1 then 0
    else
      var j := 1 + Oldest(candidates[1..]);
      if candidates[0].lastEnd <= candidates[j].lastEnd then 0 else j
  }

  predicate Sensible(o: Observation) {
    0 <= o.start < o.end && 0 <= o.speech <= o.end - o.start && 0.0 <= o.quality <= 1.0 && Audible(o.voice)
  }

  /** An embedding that can be normalised: not empty, and not zero throughout. */
  predicate Audible(voice: Voice) {
    exists i :: 0 <= i < |voice| && voice[i] != 0.0
  }

  predicate Clean(c: Config, o: Observation) {
    !o.overlap && o.quality >= c.minQuality && o.speech >= c.minSpeech
  }

  /** No identity; `similarity` is to the voice that stood in the way, if one did. */
  function Unsure(reason: Reason, similarity: Option<real>): Assignment {
    Assignment(Unknown, None, None, reason, similarity)
  }

  /** A known voice: its profile moves only on strong, fresh evidence. */
  function Matched(c: Config, m: Model, t: Tracker, o: Observation, i: nat, score: real): Tracker
    requires i < |t.speakers|
  {
    var p := t.speakers[i];
    var stronger := score >= c.updateSimilarity && o.start >= p.lastSupport;
    t.(speakers := t.speakers[i := if stronger
         then Profile(p.id, m.blend(p.prototype, o.voice, c.updateRate), p.support + 1, o.end, o.end)
         else Profile(p.id, p.prototype, p.support, o.end, p.lastSupport)])
  }

  function Ratio(a: int, b: int): real
    requires b != 0
  {
    a as real / b as real
  }

  /** One more observation credited to a candidate. */
  function Credited(m: Model, k: Candidate, o: Observation): Candidate {
    var total := k.speech + o.speech;
    Candidate(k.id, m.blend(k.prototype, o.voice, if total != 0 then Ratio(o.speech, total) else 0.0),
              k.support + 1, total, o.end)
  }

  /** The candidates once there is room for one more. */
  function Room(c: Config, t: Tracker): seq<Candidate> {
    if |t.candidates| >= c.maxCandidates && t.candidates != []
    then Without(t.candidates, Oldest(t.candidates)) else t.candidates
  }

  function Started(c: Config, t: Tracker, o: Observation): Tracker {
    t.(candidateSeq := t.candidateSeq + 1,
       candidates := Room(c, t) + [Candidate(t.candidateSeq + 1, o.voice, 1, o.speech, o.end)])
  }

  /** What the evidence for the candidate at `i` is worth now. */
  function Weighed(c: Config, t: Tracker, o: Observation, i: nat, near: Option<real>): (Tracker, Assignment)
    requires i < |t.candidates|
  {
    var k := t.candidates[i];
    if k.support < c.minConfirmations || k.speech < c.confirmationSpeech then
      (t, Assignment(Provisional, None, Some(k.id), CollectingEvidence, near))
    else if |t.speakers| >= c.maxSpeakers then
      (t.(candidates := Without(t.candidates, i)), Unsure(SpeakerCapacity, None))
    else
      var id := t.speakerSeq + 1;
      (t.(speakerSeq := id, speakers := t.speakers + [Profile(id, k.prototype, k.support, o.end, k.lastEnd)],
          candidates := Without(t.candidates, i)),
       Assignment(New, Some(id), Some(k.id), ConfirmedNew, near))
  }

  /** A voice unlike every confirmed speaker. */
  function Novel(c: Config, m: Model, t: Tracker, o: Observation, near: Option<real>): (Tracker, Assignment) {
    var scores := CandidateScores(m, t, o.voice);
    if scores == [] then
      var s := Started(c, t, o);
      Weighed(c, s, o, |s.candidates| - 1, near)
    else
      var i := Best(scores, CandidateIds(t));
      if scores[i] >= c.candidateSimilarity then
        if |scores| > 1 && scores[i] - Rival(scores, i, 0) < c.minMargin then
          (t, Unsure(AmbiguousCandidate, Some(scores[i])))
        else if o.start < t.candidates[i].lastEnd then
          (t, Assignment(Provisional, None, Some(t.candidates[i].id), OverlappingEvidence, Some(scores[i])))
        else Weighed(c, t.(candidates := t.candidates[i := Credited(m, t.candidates[i], o)]), o, i, near)
      else if scores[i] > c.newSimilarity then (t, Unsure(AmbiguousCandidate, Some(scores[i])))
      else
        var s := Started(c, t, o);
        Weighed(c, s, o, |s.candidates| - 1, near)
  }

  function Identified(c: Config, m: Model, t: Tracker, o: Observation): (Tracker, Assignment) {
    var scores := SpeakerScores(m, t, o.voice);
    if scores == [] then Novel(c, m, t, o, None)
    else
      var i := Best(scores, SpeakerIds(t));
      var rival := Rival(scores, i, 0);
      if scores[i] >= c.matchSimilarity then
        if scores[i] - rival < c.minMargin then (t, Unsure(AmbiguousExisting, Some(scores[i])))
        else (Matched(c, m, t, o, i, scores[i]),
              Assignment(Existing, Some(t.speakers[i].id), None, MatchedExisting, Some(scores[i])))
      else if scores[i] > c.newSimilarity then (t, Unsure(AmbiguousExisting, Some(scores[i])))
      else Novel(c, m, t, o, Some(scores[i]))
  }

  function Observed(c: Config, m: Model, t: Tracker, o: Observation): Result<(Tracker, Assignment), Error> {
    if !Sensible(o) then Err(InvalidObservation)
    else if t.dimension.Some? && |o.voice| != t.dimension.value then Err(DimensionChanged)
    else if (o.track, o.sample) in t.recent then Ok((t, Unsure(Duplicate, None)))
    else if o.end < t.watermark then Ok((t, Unsure(OutOfOrder, None)))
    else
      var heard := Remembered(c, Expired(c, t, o.end), (o.track, o.sample));
      if o.overlap then Ok((heard, Unsure(Overlap, None)))
      else if o.quality < c.minQuality then Ok((heard, Unsure(LowQuality, None)))
      else if o.speech < c.minSpeech then Ok((heard, Unsure(LittleSpeech, None)))
      else Ok(Identified(c, m, heard.(dimension := Some(|o.voice|)), o))
  }

  // -------- The evidence behind identities

  function Speech(evidence: seq<Observation>): int {
    if evidence == [] then 0 else Speech(evidence[..|evidence| - 1]) + evidence[|evidence| - 1].speech
  }

  /** Clean observations, one after the other in time. */
  ghost predicate Disjoint(c: Config, evidence: seq<Observation>) {
    && (forall i :: 0 <= i < |evidence| ==> Clean(c, evidence[i]) && evidence[i].start < evidence[i].end)
    && (forall i, j :: 0 <= i < j < |evidence| ==> evidence[i].end <= evidence[j].start)
  }

  ghost predicate Backs(c: Config, evidence: seq<Observation>, k: Candidate) {
    evidence != [] && Disjoint(c, evidence) && |evidence| == k.support && Speech(evidence) == k.speech
    && evidence[|evidence| - 1].end == k.lastEnd
  }

  /** What it takes to mint a speaker. */
  ghost predicate Warrants(c: Config, evidence: seq<Observation>) {
    Disjoint(c, evidence) && |evidence| >= c.minConfirmations && Speech(evidence) >= c.confirmationSpeech
  }

  /** The tracker, the evidence credited to each candidate so far, and that behind each
      speaker minted in this run; `restored` is the counter it started from. */
  datatype World = World(t: Tracker, evidence: map<nat, seq<Observation>>, minted: map<nat, seq<Observation>>,
                         restored: nat)

  ghost predicate DistinctSpeakers(q: seq<Profile>) {
    forall i, j :: 0 <= i < j < |q| ==> q[i].id != q[j].id
  }

  ghost predicate DistinctCandidates(q: seq<Candidate>) {
    forall i, j :: 0 <= i < j < |q| ==> q[i].id != q[j].id
  }

  ghost predicate Bounded(c: Config, t: Tracker) {
    && |t.speakers| <= c.maxSpeakers && |t.candidates| <= c.maxCandidates && |t.recent| <= c.maxRecent
    && DistinctSpeakers(t.speakers) && DistinctCandidates(t.candidates)
    && (forall p :: p in t.speakers ==> p.id <= t.speakerSeq)
    && (forall k :: k in t.candidates ==> k.id <= t.candidateSeq)
  }

  ghost predicate Inv(c: Config, x: World) {
    && c.Valid() && Bounded(c, x.t) && x.restored <= x.t.speakerSeq
    && (forall k :: k in x.t.candidates ==> k.id in x.evidence && Backs(c, x.evidence[k.id], k))
    && (forall id :: id in x.evidence ==> id <= x.t.candidateSeq)
    && (forall id :: id in x.minted ==> x.restored < id <= x.t.speakerSeq && Warrants(c, x.minted[id]))
    && (forall p :: p in x.t.speakers ==> p.id <= x.restored || p.id in x.minted)
  }

  /** The candidate the observation was credited to, if it still stands or was minted. */
  function CreditedTo(r: Assignment): Option<nat> {
    if r.reason in {CollectingEvidence, ConfirmedNew} then r.candidate else None
  }

  function With(evidence: map<nat, seq<Observation>>, credited: Option<nat>, o: Observation)
      : map<nat, seq<Observation>> {
    if credited.None? then evidence
    else evidence[credited.value := (if credited.value in evidence then evidence[credited.value] else []) + [o]]
  }

  function MintedBy(minted: map<nat, seq<Observation>>, evidence: map<nat, seq<Observation>>, a: Assignment)
      : map<nat, seq<Observation>> {
    if a.status == New && a.speaker.Some? && a.candidate.Some? && a.candidate.value in evidence
    then minted[a.speaker.value := evidence[a.candidate.value]] else minted
  }

  /** The histories brought up to date with one outcome. */
  function Noted(x: World, t: Tracker, a: Assignment, o: Observation): World {
    var evidence := With(x.evidence, CreditedTo(a), o);
    World(t, evidence, MintedBy(x.minted, evidence, a), x.restored)
  }

  function After(c: Config, m: Model, x: World, o: Observation): World {
    match Observed(c, m, x.t, o)
    case Err(_) => x
    case Ok(r) => Noted(x, r.0, r.1, o)
  }

  // -------- Lemmas

  lemma {:induction false} KeptHolds(candidates: seq<Candidate>, now: int, idle: nat)
    ensures forall k :: k in Kept(candidates, now, idle) ==> k in candidates
    ensures DistinctCandidates(candidates) ==> DistinctCandidates(Kept(candidates, now, idle))
  {
    if candidates != [] {
      KeptHolds(candidates[1..], now, idle);
      if DistinctCandidates(candidates) {
        forall k | k in Kept(candidates[1..], now, idle)
          ensures k.id != candidates[0].id
        {
          var i :| 0 <= i < |candidates[1..]| && candidates[1..][i] == k;
          assert candidates[i + 1] == k;
        }
      }
    }
  }

  /** Exactly the candidates whose evidence is too old are forgotten. */
  lemma {:induction false} KeptIff(candidates: seq<Candidate>, now: int, idle: nat)
    ensures forall k :: k in Kept(candidates, now, idle) <==> k in candidates && now - k.lastEnd <= idle
  {
    if candidates != [] {
      KeptIff(candidates[1..], now, idle);
      assert candidates == [candidates[0]] + candidates[1..];
    }
  }

  /** Everything but the candidates the observation may change. */
  lemma {:induction false} HeardKeeps(c: Config, x: World, o: Observation)
    requires Inv(c, x)
    ensures Inv(c, x.(t := Remembered(c, Expired(c, x.t, o.end), (o.track, o.sample))))
    ensures Inv(c, x.(t := Remembered(c, Expired(c, x.t, o.end), (o.track, o.sample)).(dimension := Some(|o.voice|))))
    ensures Remembered(c, Expired(c, x.t, o.end), (o.track, o.sample)).candidateSeq == x.t.candidateSeq
  {
    hide Backs, Warrants;
    KeptHolds(x.t.candidates, o.end, c.candidateIdle);
  }

  lemma {:induction false} ClearKeeps(c: Config, x: World)
    requires Inv(c, x)
    ensures Inv(c, x.(t := Cleared(x.t)))
  {
    hide Backs, Warrants;
  }

  lemma {:induction false} ExpireKeeps(c: Config, x: World, now: int)
    requires Inv(c, x)
    ensures Inv(c, x.(t := Expired(c, x.t, now)))
  {
    hide Backs, Warrants;
    KeptHolds(x.t.candidates, now, c.candidateIdle);
  }

  lemma {:induction false} CreditBacks(c: Config, m: Model, evidence: seq<Observation>, k: Candidate, o: Observation)
    requires Backs(c, evidence, k) && Clean(c, o) && k.lastEnd <= o.start < o.end
    ensures Backs(c, evidence + [o], Credited(m, k, o))
  {
    var more := evidence + [o];
    assert more[..|more| - 1] == evidence;
    var n := |evidence|;
    forall i, j | 0 <= i < j < |more|
      ensures more[i].end <= more[j].start
    {
      if j == n && i < n - 1 { assert evidence[i].end <= evidence[n - 1].start; }
    }
  }

  lemma {:induction false} FirstBacks(c: Config, id: nat, o: Observation)
    requires Clean(c, o) && o.start < o.end
    ensures Backs(c, [o], Candidate(id, o.voice, 1, o.speech, o.end))
  {
    assert [o][..0] == [];
  }

  lemma {:induction false} WithoutHolds(q: seq<Candidate>, i: nat)
    requires i < |q| && DistinctCandidates(q)
    ensures DistinctCandidates(Without(q, i))
    ensures forall k :: k in Without(q, i) ==> k in q && k.id != q[i].id
  {
    var r := Without(q, i);
    assert forall j :: 0 <= j < |r| ==> r[j] == if j < i then q[j] else q[j + 1];
  }

  /** The evidence of candidates that are gone does not matter. */
  lemma {:induction false} OnlyStanding(c: Config, x: World, evidence: map<nat, seq<Observation>>)
    requires Inv(c, x) && (forall id :: id in evidence ==> id <= x.t.candidateSeq)
    requires forall k :: k in x.t.candidates ==> k.id in evidence && evidence[k.id] == x.evidence[k.id]
    ensures Inv(c, x.(evidence := evidence))
  {
    hide Backs, Warrants;
  }

  lemma {:induction false} WeighedKeeps(c: Config, x: World, o: Observation, i: nat, near: Option<real>)
    requires Inv(c, x) && i < |x.t.candidates|
    ensures var r := Weighed(c, x.t, o, i, near);
      && Inv(c, World(r.0, x.evidence, MintedBy(x.minted, x.evidence, r.1), x.restored))
      && (r.1.reason in {CollectingEvidence, ConfirmedNew} ==> r.1.candidate == Some(x.t.candidates[i].id))
      && (r.1.reason in {CollectingEvidence, ConfirmedNew, SpeakerCapacity})
      && (r.1.reason == SpeakerCapacity ==> r.0 == x.t.(candidates := Without(x.t.candidates, i)))
  {
    var k := x.t.candidates[i];
    assert k in x.t.candidates && Backs(c, x.evidence[k.id], k);
    WithoutHolds(x.t.candidates, i);
    var r := Weighed(c, x.t, o, i, near);
    if r.1.status == New {
      assert Warrants(c, x.evidence[k.id]);
      hide Backs, Warrants;
      MintKeeps(c, x, r.0, k, Profile(r.0.speakerSeq, k.prototype, k.support, o.end, k.lastEnd));
    }
  }

  lemma {:induction false} MintKeeps(c: Config, x: World, t: Tracker, k: Candidate, p: Profile)
    requires Inv(c, x) && k.id in x.evidence && Warrants(c, x.evidence[k.id]) && |x.t.speakers| < c.maxSpeakers
    requires t.speakerSeq == x.t.speakerSeq + 1 == p.id && t.speakers == x.t.speakers + [p]
    requires DistinctCandidates(t.candidates) && (forall q :: q in t.candidates ==> q in x.t.candidates)
    requires |t.candidates| <= |x.t.candidates| && t.recent == x.t.recent && t.candidateSeq == x.t.candidateSeq
    ensures Inv(c, World(t, x.evidence, x.minted[p.id := x.evidence[k.id]], x.restored))
  {
    hide Backs, Warrants;
    forall i, j | 0 <= i < j < |t.speakers|
      ensures t.speakers[i].id != t.speakers[j].id
    {
      assert x.t.speakers[i] in x.t.speakers;
    }
  }

  lemma {:induction false} RoomHolds(c: Config, t: Tracker)
    requires c.Valid() && Bounded(c, t)
    ensures |Room(c, t)| < c.maxCandidates && DistinctCandidates(Room(c, t))
    ensures forall k :: k in Room(c, t) ==> k in t.candidates
  {
    if |t.candidates| >= c.maxCandidates { WithoutHolds(t.candidates, Oldest(t.candidates)); }
  }

  lemma {:induction false} OneMore(room: seq<Candidate>, k: Candidate)
    requires DistinctCandidates(room) && forall q :: q in room ==> q.id < k.id
    ensures DistinctCandidates(room + [k])
    ensures forall q :: q in room + [k] <==> q in room || q == k
  {
    forall j | 0 <= j < |room|
      ensures room[j].id != k.id
    {
      assert room[j] in room;
    }
  }

  lemma {:induction false} StartedKeeps(c: Config, x: World, o: Observation)
    requires Inv(c, x) && Clean(c, o) && o.start < o.end
    ensures var t := Started(c, x.t, o); var id := x.t.candidateSeq + 1;
      && Inv(c, World(t, With(x.evidence, Some(id), o), x.minted, x.restored))
      && t.candidates != [] && t.candidates[|t.candidates| - 1] == Candidate(id, o.voice, 1, o.speech, o.end)
  {
    var t, k := Started(c, x.t, o), Candidate(x.t.candidateSeq + 1, o.voice, 1, o.speech, o.end);
    var evidence := x.evidence[k.id := [o]];
    FirstBacks(c, k.id, o);
    assert k.id !in x.evidence && [] + [o] == [o];
    assert With(x.evidence, Some(k.id), o) == evidence;
    RoomHolds(c, x.t);
    OneMore(Room(c, x.t), k);
    hide Backs, Warrants, Room, DistinctCandidates, DistinctSpeakers, With, Clean;
    forall q | q in t.candidates
      ensures q.id in evidence && Backs(c, evidence[q.id], q) && q.id <= k.id
    {
      if q != k { assert q in x.t.candidates; }
    }
    assert Bounded(c, t);
  }

  lemma {:induction false} CreditedKeeps(c: Config, m: Model, x: World, o: Observation, i: nat)
    requires Inv(c, x) && i < |x.t.candidates| && Clean(c, o) && x.t.candidates[i].lastEnd <= o.start < o.end
    ensures var k := x.t.candidates[i];
            var t := x.t.(candidates := x.t.candidates[i := Credited(m, k, o)]);
      Inv(c, World(t, With(x.evidence, Some(k.id), o), x.minted, x.restored))
  {
    var k := x.t.candidates[i];
    var t := x.t.(candidates := x.t.candidates[i := Credited(m, k, o)]);
    assert k in x.t.candidates;
    CreditBacks(c, m, x.evidence[k.id], k, o);
    hide Backs, Warrants;
    forall q | q in t.candidates
      ensures q == Credited(m, k, o) || (q in x.t.candidates && q.id != k.id)
    {
      var j :| 0 <= j < |t.candidates| && t.candidates[j] == q;
      if j != i { assert x.t.candidates[j] == q; }
    }
  }

  /** After a credit, whatever the candidate is worth. */
  lemma {:induction false} WeighedAfter(c: Config, x: World, t: Tracker, o: Observation, i: nat, near: Option<real>)
    requires i < |t.candidates| && t.candidateSeq >= x.t.candidateSeq
    requires Inv(c, World(t, With(x.evidence, Some(t.candidates[i].id), o), x.minted, x.restored))
    requires forall id :: id in x.evidence ==> id <= x.t.candidateSeq
    requires forall k :: k in t.candidates && k.id != t.candidates[i].id ==> k.id in x.evidence
    ensures var r := Weighed(c, t, o, i, near); Inv(c, Noted(x, r.0, r.1, o))
  {
    hide Backs, Warrants;
    var id := t.candidates[i].id;
    var y := World(t, With(x.evidence, Some(id), o), x.minted, x.restored);
    WeighedKeeps(c, y, o, i, near);
    var r := Weighed(c, t, o, i, near);
    if r.1.reason == SpeakerCapacity {
      assert DistinctCandidates(t.candidates);
      WithoutHolds(t.candidates, i);
      OnlyStanding(c, World(r.0, y.evidence, x.minted, x.restored), x.evidence);
    }
  }

  lemma {:induction false} NovelKeeps(c: Config, m: Model, x: World, o: Observation, near: Option<real>)
    requires Inv(c, x) && Clean(c, o) && o.start < o.end
    ensures var r := Novel(c, m, x.t, o, near); Inv(c, Noted(x, r.0, r.1, o))
  {
    hide Inv, Clean, Weighed, Started, Credited, Best, Rival, CandidateScores;
    var scores := CandidateScores(m, x.t, o.voice);
    var i := if scores == [] then 0 else Best(scores, CandidateIds(x.t));
    if scores != [] && scores[i] >= c.candidateSimilarity && o.start >= x.t.candidates[i].lastEnd {
      CreditWeighed(c, m, x, o, i, near);
    }
    StartWeighed(c, x, o, near);
  }

  lemma {:induction false} CreditWeighed(c: Config, m: Model, x: World, o: Observation, i: nat, near: Option<real>)
    requires Inv(c, x) && Clean(c, o) && i < |x.t.candidates| && x.t.candidates[i].lastEnd <= o.start < o.end
    ensures var t := x.t.(candidates := x.t.candidates[i := Credited(m, x.t.candidates[i], o)]);
            var r := Weighed(c, t, o, i, near);
      Inv(c, Noted(x, r.0, r.1, o))
  {
    hide Backs, Warrants, Weighed, Credited;
    CreditedKeeps(c, m, x, o, i);
    CreditedId(m, x.t.candidates[i], o);
    WeighedAfter(c, x, x.t.(candidates := x.t.candidates[i := Credited(m, x.t.candidates[i], o)]), o, i, near);
  }

  lemma {:induction false} StartWeighed(c: Config, x: World, o: Observation, near: Option<real>)
    requires Inv(c, x) && Clean(c, o) && o.start < o.end
    ensures var s := Started(c, x.t, o);
      s.candidates != [] && var r := Weighed(c, s, o, |s.candidates| - 1, near); Inv(c, Noted(x, r.0, r.1, o))
  {
    hide Backs, Warrants, Weighed, Started;
    StartedKeeps(c, x, o);
    StartedOthers(c, x, o);
    var s := Started(c, x.t, o);
    WeighedAfter(c, x, s, o, |s.candidates| - 1, near);
  }

  lemma {:induction false} CreditedId(m: Model, k: Candidate, o: Observation)
    ensures Credited(m, k, o).id == k.id
  {
  }

  lemma {:induction false} StartedOthers(c: Config, x: World, o: Observation)
    requires Inv(c, x)
    ensures var t := Started(c, x.t, o);
      && t.candidateSeq == x.t.candidateSeq + 1
      && forall k :: k in t.candidates && k.id != t.candidateSeq ==> k.id in x.evidence
  {
    RoomHolds(c, x.t);
    hide Backs, Warrants, Room;
  }

  lemma {:induction false} MatchedKeeps(c: Config, m: Model, x: World, o: Observation, i: nat, score: real)
    requires Inv(c, x) && i < |x.t.speakers|
    ensures Inv(c, x.(t := Matched(c, m, x.t, o, i, score)))
  {
    hide Backs, Warrants;
    var t := Matched(c, m, x.t, o, i, score);
    assert x.t.speakers[i] in x.t.speakers;
    forall p | p in t.speakers
      ensures exists q :: q in x.t.speakers && q.id == p.id
    {
      var j :| 0 <= j < |t.speakers| && t.speakers[j] == p;
      assert x.t.speakers[j] in x.t.speakers && x.t.speakers[j].id == p.id;
    }
  }

  lemma {:induction false} IdentifiedKeeps(c: Config, m: Model, x: World, o: Observation)
    requires Inv(c, x) && Clean(c, o) && o.start < o.end
    ensures var r := Identified(c, m, x.t, o); Inv(c, Noted(x, r.0, r.1, o))
  {
    hide Inv, Novel, Matched, Best, Rival, SpeakerScores;
    var scores := SpeakerScores(m, x.t, o.voice);
    NovelKeeps(c, m, x, o, if scores == [] then None else Some(scores[Best(scores, SpeakerIds(x.t))]));
    if scores != [] {
      var i := Best(scores, SpeakerIds(x.t));
      MatchedKeeps(c, m, x, o, i, scores[i]);
    }
  }

  lemma {:induction false} ObserveKeeps(c: Config, m: Model, x: World, o: Observation)
    requires Inv(c, x)
    ensures Inv(c, After(c, m, x, o))
  {
    hide Inv, Identified;
    if Observed(c, m, x.t, o).Ok? {
      HeardKeeps(c, x, o);
      var heard := Remembered(c, Expired(c, x.t, o.end), (o.track, o.sample)).(dimension := Some(|o.voice|));
      if Clean(c, o) { IdentifiedKeeps(c, m, x.(t := heard), o); }
    }
  }

  // -------- Whom an observation is given to

  /** How alike an observation and a stored voice are. */
  ghost function Alike(m: Model, o: Observation, stored: Voice): real {
    Clip(m.similarity(o.voice, stored))
  }

  /** Every check that an observation must pass before voices are compared. */
  ghost predicate Heard(c: Config, t: Tracker, o: Observation) {
    && Sensible(o) && (t.dimension.Some? ==> |o.voice| == t.dimension.value)
    && (o.track, o.sample) !in t.recent && t.watermark <= o.end && Clean(c, o)
  }

  /** The speaker at `p` stands out: alike enough and ahead of every other by the margin,
      and of the least likeness there is. Between equals, which only a margin of zero
      allows, the later number wins. */
  ghost predicate StandsOut(c: Config, m: Model, t: Tracker, o: Observation, p: nat) {
    && p < |t.speakers| && Alike(m, o, t.speakers[p].prototype) >= c.matchSimilarity
    && Alike(m, o, t.speakers[p].prototype) + 1.0 >= c.minMargin
    && forall q :: 0 <= q < |t.speakers| && q != p ==> Leads(c, m, o, t.speakers[p], t.speakers[q])
  }

  ghost predicate Leads(c: Config, m: Model, o: Observation, p: Profile, q: Profile) {
    && Alike(m, o, p.prototype) - Alike(m, o, q.prototype) >= c.minMargin
    && (Alike(m, o, q.prototype) == Alike(m, o, p.prototype) ==> q.id < p.id)
  }

  ghost predicate NoneAlike(c: Config, m: Model, t: Tracker, o: Observation) {
    forall q :: 0 <= q < |t.speakers| ==> Alike(m, o, t.speakers[q].prototype) <= c.newSimilarity
  }

  lemma {:induction false} BestIs(scores: seq<real>, ids: seq<nat>, p: nat)
    requires |scores| == |ids| && p < |scores|
    requires forall q :: 0 <= q < |scores| && q != p ==>
      scores[q] <= scores[p] && ids[q] != ids[p] && (scores[q] == scores[p] ==> ids[q] < ids[p])
    ensures Best(scores, ids) == p
  {
    var i := Best(scores, ids);
    assert scores[p] <= scores[i];
  }

  lemma {:induction false} RivalIff(scores: seq<real>, p: nat, margin: real)
    requires p < |scores| && forall q :: 0 <= q < |scores| ==> -1.0 <= scores[q]
    ensures scores[p] - Rival(scores, p, 0) >= margin
      <==> scores[p] + 1.0 >= margin && forall q :: 0 <= q < |scores| && q != p ==> scores[p] - scores[q] >= margin
  {
  }

  /** The tracker once an observation has passed its checks. */
  ghost function Listening(c: Config, t: Tracker, o: Observation): (u: Tracker)
    ensures u.speakers == t.speakers && u.speakerSeq == t.speakerSeq && OnlyTimePasses(c, t, u, o)
  {
    Remembered(c, Expired(c, t, o.end), (o.track, o.sample)).(dimension := Some(|o.voice|))
  }

  lemma {:induction false} HeardGoesOn(c: Config, m: Model, t: Tracker, o: Observation)
    requires Heard(c, t, o)
    ensures Observed(c, m, t, o) == Ok(Identified(c, m, Listening(c, t, o), o))
  {
    hide Identified;
  }

  lemma {:induction false} SpeakerScored(m: Model, t: Tracker, o: Observation)
    ensures |SpeakerScores(m, t, o.voice)| == |SpeakerIds(t)| == |t.speakers|
    ensures forall q :: 0 <= q < |t.speakers| ==>
      && SpeakerScores(m, t, o.voice)[q] == Alike(m, o, t.speakers[q].prototype) >= -1.0
      && SpeakerIds(t)[q] == t.speakers[q].id
  {
  }

  /** The best speaker is the one that stands out, if one does. */
  lemma {:induction false} BestStandsOut(c: Config, m: Model, t: Tracker, o: Observation, p: nat)
    requires c.Valid() && DistinctSpeakers(t.speakers) && p < |t.speakers|
    ensures var scores := SpeakerScores(m, t, o.voice); var i := Best(scores, SpeakerIds(t));
      StandsOut(c, m, t, o, p)
      <==> p == i && scores[i] >= c.matchSimilarity && scores[i] - Rival(scores, i, 0) >= c.minMargin
  {
    var scores, ids := SpeakerScores(m, t, o.voice), SpeakerIds(t);
    SpeakerScored(m, t, o);
    var i := Best(scores, ids);
    RivalIff(scores, i, c.minMargin);
    hide Best, Rival, SpeakerScores, SpeakerIds, Alike;
    if StandsOut(c, m, t, o, p) {
      assert forall q :: 0 <= q < |scores| && q != p ==> Leads(c, m, o, t.speakers[p], t.speakers[q]);
      BestIs(scores, ids, p);
    } else if p == i && scores[i] >= c.matchSimilarity && scores[i] - Rival(scores, i, 0) >= c.minMargin {
      LeaderStandsOut(c, m, t, o);
    }
  }

  lemma {:induction false} LeaderStandsOut(c: Config, m: Model, t: Tracker, o: Observation)
    requires c.Valid() && DistinctSpeakers(t.speakers) && t.speakers != []
    requires var scores := SpeakerScores(m, t, o.voice); var i := Best(scores, SpeakerIds(t));
      scores[i] >= c.matchSimilarity && scores[i] - Rival(scores, i, 0) >= c.minMargin
    ensures StandsOut(c, m, t, o, Best(SpeakerScores(m, t, o.voice), SpeakerIds(t)))
  {
    var scores, ids := SpeakerScores(m, t, o.voice), SpeakerIds(t);
    SpeakerScored(m, t, o);
    var i := Best(scores, ids);
    RivalIff(scores, i, c.minMargin);
    hide Best, Rival, SpeakerScores, SpeakerIds, Alike;
    forall q | 0 <= q < |scores| && q != i
      ensures Leads(c, m, o, t.speakers[i], t.speakers[q])
    {
      assert t.speakers[q].id != t.speakers[i].id;
    }
  }

  /** A clean observation is given to a known speaker if and only if that speaker
      stands out. */
  lemma {:induction false} MatchIff(c: Config, m: Model, t: Tracker, o: Observation, p: nat)
    requires c.Valid() && DistinctSpeakers(t.speakers) && Heard(c, t, o) && p < |t.speakers|
    ensures var r := Observed(c, m, t, o);
      r.Ok? && (r.value.1.status == Existing && r.value.1.speaker == Some(t.speakers[p].id)
                <==> StandsOut(c, m, t, o, p))
  {
    var u := Listening(c, t, o);
    HeardGoesOn(c, m, t, o);
    BestStandsOut(c, m, u, o, p);
    StrangerNotExisting(c, m, u, o);
    hide Observed, Listening, StandsOut, Best, Rival, SpeakerScores, SpeakerIds, Matched, Novel;
    assert StandsOut(c, m, u, o, p) == StandsOut(c, m, t, o, p) by { SameStanding(c, m, t, u, o, p); }
  }

  lemma {:induction false} SameStanding(c: Config, m: Model, t: Tracker, u: Tracker, o: Observation, p: nat)
    requires t.speakers == u.speakers
    ensures StandsOut(c, m, t, o, p) == StandsOut(c, m, u, o, p)
  {
  }

  lemma {:induction false} StrangerNotExisting(c: Config, m: Model, t: Tracker, o: Observation)
    ensures forall near :: Novel(c, m, t, o, near).1.status != Existing
  {
    hide CandidateScores, Best, Rival, Started, Credited;
  }

  /** Only time has passed for the candidates; nobody is new. */
  ghost predicate OnlyTimePasses(c: Config, t: Tracker, u: Tracker, o: Observation) {
    && u.candidates == Kept(t.candidates, o.end, c.candidateIdle)
    && u.candidateSeq == t.candidateSeq && u.speakerSeq == t.speakerSeq
  }

  /** Profile `q` is `p` after an observation given to it. */
  ghost predicate Moved(c: Config, m: Model, o: Observation, p: Profile, q: Profile) {
    && q.id == p.id && q.lastSeen == o.end
    && if Alike(m, o, p.prototype) >= c.updateSimilarity && p.lastSupport <= o.start
       then q.prototype == m.blend(p.prototype, o.voice, c.updateRate) && q.support == p.support + 1
            && q.lastSupport == o.end
       else q.prototype == p.prototype && q.support == p.support && q.lastSupport == p.lastSupport
  }

  /** A match changes the profile it names and no other, and its prototype moves only on
      strong evidence later than what it already rests on. */
  lemma {:induction false} MatchMoves(c: Config, m: Model, t: Tracker, o: Observation, p: nat)
    requires c.Valid() && DistinctSpeakers(t.speakers) && Heard(c, t, o) && StandsOut(c, m, t, o, p)
    ensures var r := Observed(c, m, t, o);
      && r.Ok? && OnlyTimePasses(c, t, r.value.0, o) && |r.value.0.speakers| == |t.speakers|
      && Moved(c, m, o, t.speakers[p], r.value.0.speakers[p])
      && forall q :: 0 <= q < |t.speakers| && q != p ==> r.value.0.speakers[q] == t.speakers[q]
  {
    var u := Listening(c, t, o);
    HeardGoesOn(c, m, t, o);
    SameStanding(c, m, t, u, o, p);
    BestStandsOut(c, m, u, o, p);
    SpeakerScored(m, u, o);
    hide Observed, Listening, StandsOut, Best, Rival, SpeakerScores, SpeakerIds, Novel, Alike;
  }

  /** A voice too close to a known speaker to be new, without one that stands out, is given
      to nobody, and nothing but time passes. */
  lemma {:induction false} NobodyStandsOut(c: Config, m: Model, t: Tracker, o: Observation)
    requires c.Valid() && DistinctSpeakers(t.speakers) && Heard(c, t, o) && !NoneAlike(c, m, t, o)
    requires forall p :: 0 <= p < |t.speakers| ==> !StandsOut(c, m, t, o, p)
    ensures var r := Observed(c, m, t, o);
      && r.Ok? && OnlyTimePasses(c, t, r.value.0, o) && r.value.0.speakers == t.speakers
      && r.value.1.status == Unknown && r.value.1.speaker == None && r.value.1.candidate == None
      && r.value.1.reason == AmbiguousExisting
  {
    var u := Listening(c, t, o);
    HeardGoesOn(c, m, t, o);
    SpeakerScored(m, u, o);
    var i := Best(SpeakerScores(m, u, o.voice), SpeakerIds(u));
    SameStanding(c, m, t, u, o, i);
    BestStandsOut(c, m, u, o, i);
    assert SpeakerScores(m, u, o.voice)[i] > c.newSimilarity;
    hide Observed, Listening, StandsOut, Best, Rival, SpeakerScores, SpeakerIds, Novel, Alike, Matched;
  }

  // -------- Which candidate a new voice is given to

  ghost predicate LeadsCandidate(c: Config, m: Model, o: Observation, k: Candidate, j: Candidate) {
    && Alike(m, o, k.prototype) - Alike(m, o, j.prototype) >= c.minMargin
    && (Alike(m, o, j.prototype) == Alike(m, o, k.prototype) ==> j.id < k.id)
  }

  /** The candidate at `k` stands out among `q`; a lone one has nobody to be ahead of. */
  ghost predicate CandidateStandsOut(c: Config, m: Model, q: seq<Candidate>, o: Observation, k: nat) {
    && k < |q| && Alike(m, o, q[k].prototype) >= c.candidateSimilarity
    && forall j :: 0 <= j < |q| && j != k ==> LeadsCandidate(c, m, o, q[k], q[j])
  }

  ghost predicate CandidatesUnlike(c: Config, m: Model, q: seq<Candidate>, o: Observation) {
    forall j :: 0 <= j < |q| ==> Alike(m, o, q[j].prototype) <= c.newSimilarity
  }

  lemma {:induction false} CandidateScored(m: Model, t: Tracker, o: Observation)
    ensures |CandidateScores(m, t, o.voice)| == |CandidateIds(t)| == |t.candidates|
    ensures forall q :: 0 <= q < |t.candidates| ==>
      && CandidateScores(m, t, o.voice)[q] == Alike(m, o, t.candidates[q].prototype) >= -1.0
      && CandidateIds(t)[q] == t.candidates[q].id
  {
  }

  /** What the source looks at before it credits the best candidate. */
  ghost predicate Credits(c: Config, m: Model, t: Tracker, o: Observation, i: nat)
    requires i < |t.candidates|
  {
    var scores := CandidateScores(m, t, o.voice);
    scores[i] >= c.candidateSimilarity && !(|scores| > 1 && scores[i] - Rival(scores, i, 0) < c.minMargin)
  }

  lemma {:induction false} BestCandidate(c: Config, m: Model, t: Tracker, o: Observation, k: nat)
    requires c.Valid() && DistinctCandidates(t.candidates) && k < |t.candidates|
    ensures var i := Best(CandidateScores(m, t, o.voice), CandidateIds(t));
      CandidateStandsOut(c, m, t.candidates, o, k) <==> k == i && Credits(c, m, t, o, i)
  {
    var scores, ids := CandidateScores(m, t, o.voice), CandidateIds(t);
    CandidateScored(m, t, o);
    var i := Best(scores, ids);
    RivalIff(scores, i, c.minMargin);
    hide Best, Rival, CandidateScores, CandidateIds, Alike;
    if CandidateStandsOut(c, m, t.candidates, o, k) {
      assert forall j :: 0 <= j < |scores| && j != k ==> LeadsCandidate(c, m, o, t.candidates[k], t.candidates[j]);
      BestIs(scores, ids, k);
      if |scores| > 1 { assert scores[if k == 0 then 1 else 0] >= -1.0; }
    } else if k == i && Credits(c, m, t, o, i) {
      LeadingCandidate(c, m, t, o);
    }
  }

  lemma {:induction false} LeadingCandidate(c: Config, m: Model, t: Tracker, o: Observation)
    requires c.Valid() && DistinctCandidates(t.candidates) && t.candidates != []
    requires Credits(c, m, t, o, Best(CandidateScores(m, t, o.voice), CandidateIds(t)))
    ensures CandidateStandsOut(c, m, t.candidates, o, Best(CandidateScores(m, t, o.voice), CandidateIds(t)))
  {
    var scores, ids := CandidateScores(m, t, o.voice), CandidateIds(t);
    CandidateScored(m, t, o);
    var i := Best(scores, ids);
    RivalIff(scores, i, c.minMargin);
    hide Best, Rival, CandidateScores, CandidateIds, Alike;
    forall j | 0 <= j < |scores| && j != i
      ensures LeadsCandidate(c, m, o, t.candidates[i], t.candidates[j])
    {
      assert t.candidates[j].id != t.candidates[i].id;
    }
  }

  /** The likeness of the closest known speaker. */
  ghost function Nearest(m: Model, t: Tracker, o: Observation): Option<real> {
    var scores := SpeakerScores(m, t, o.voice);
    if scores == [] then None else Some(scores[Best(scores, SpeakerIds(t))])
  }

  /** A voice unlike every known speaker is heard as a new one. */
  lemma {:induction false} StrangerGoesOn(c: Config, m: Model, t: Tracker, o: Observation)
    requires c.Valid() && Heard(c, t, o) && NoneAlike(c, m, t, o)
    ensures Observed(c, m, t, o) == Ok(Novel(c, m, Listening(c, t, o), o, Nearest(m, t, o)))
  {
    var u := Listening(c, t, o);
    HeardGoesOn(c, m, t, o);
    SpeakerScored(m, u, o);
    hide Observed, Listening, Best, Rival, SpeakerScores, SpeakerIds, Novel, Alike, Matched;
    var scores := SpeakerScores(m, u, o.voice);
    assert scores == SpeakerScores(m, t, o.voice) && SpeakerIds(u) == SpeakerIds(t) by { SameScores(m, t, u, o); }
    if scores != [] {
      var i := Best(scores, SpeakerIds(u));
      assert Alike(m, o, t.speakers[i].prototype) <= c.newSimilarity;
    }
  }

  lemma {:induction false} SameScores(m: Model, t: Tracker, u: Tracker, o: Observation)
    requires t.speakers == u.speakers
    ensures SpeakerScores(m, t, o.voice) == SpeakerScores(m, u, o.voice) && SpeakerIds(t) == SpeakerIds(u)
  {
  }

  /** Candidate `k` with one more observation behind it. */
  ghost predicate Grown(m: Model, o: Observation, k: Candidate, g: Candidate) {
    && g.id == k.id && g.support == k.support + 1 && g.speech == k.speech + o.speech && g.lastEnd == o.end
    && (g.speech != 0 ==> g.prototype == m.blend(k.prototype, o.voice, o.speech as real / g.speech as real))
  }

  /** What becomes of a candidate once it has grown to `g`: it waits for more evidence, is
      made a speaker, or is given up because there is no room for one. */
  ghost predicate Settled(c: Config, t: Tracker, q: seq<Candidate>, k: nat, g: Candidate, u: Tracker, a: Assignment)
    requires k < |q|
  {
    if g.support < c.minConfirmations || g.speech < c.confirmationSpeech then
      && (a.status, a.speaker, a.candidate, a.reason) == (Provisional, None, Some(g.id), CollectingEvidence)
      && u.speakers == t.speakers && u.candidates == q[k := g]
    else if |t.speakers| < c.maxSpeakers then
      && (a.status, a.speaker, a.candidate, a.reason) == (New, Some(t.speakerSeq + 1), Some(g.id), ConfirmedNew)
      && |u.speakers| == |t.speakers| + 1 && u.speakers[..|t.speakers|] == t.speakers
      && u.speakers[|t.speakers|] == Profile(t.speakerSeq + 1, g.prototype, g.support, g.lastEnd, g.lastEnd)
      && u.candidates == q[..k] + q[k + 1..]
    else
      && (a.status, a.speaker, a.candidate, a.reason) == (Unknown, None, None, SpeakerCapacity)
      && u.speakers == t.speakers && u.candidates == q[..k] + q[k + 1..]
  }

  /** A new voice is credited to the candidate that stands out, unless its audio overlaps
      what that candidate already rests on, and no other candidate moves. */
  lemma {:induction false} CandidateMoves(c: Config, m: Model, t: Tracker, o: Observation, k: nat)
    requires c.Valid() && DistinctCandidates(t.candidates) && Heard(c, t, o) && NoneAlike(c, m, t, o)
    requires CandidateStandsOut(c, m, Kept(t.candidates, o.end, c.candidateIdle), o, k)
    ensures var q := Kept(t.candidates, o.end, c.candidateIdle); var r := Observed(c, m, t, o);
      r.Ok? &&
      if o.start < q[k].lastEnd
      then (r.value.1.status, r.value.1.speaker, r.value.1.candidate) == (Provisional, None, Some(q[k].id))
           && r.value.0.speakers == t.speakers && r.value.0.candidates == q
      else exists g :: Grown(m, o, q[k], g) && Settled(c, t, q, k, g, r.value.0, r.value.1)
  {
    StrangerGoesOn(c, m, t, o);
    var u := Listening(c, t, o);
    var near := Nearest(m, t, o);
    KeptHolds(t.candidates, o.end, c.candidateIdle);
    BestCandidate(c, m, u, o, k);
    CandidateScored(m, u, o);
    hide Observed, Listening, Best, Rival, CandidateScores, CandidateIds, Alike, NoneAlike, Started, Kept, Weighed,
         Credited, Grown, Settled;
    if o.start >= u.candidates[k].lastEnd {
      var g := Credited(m, u.candidates[k], o);
      CreditedGrows(m, u.candidates[k], o);
      CreditedSettles(c, t, u, o, k, g, near);
    }
  }

  lemma {:induction false} CreditedGrows(m: Model, k: Candidate, o: Observation)
    ensures Grown(m, o, k, Credited(m, k, o))
  {
  }

  lemma {:induction false} CreditedSettles(c: Config, t: Tracker, u: Tracker, o: Observation, k: nat, g: Candidate,
                                           near: Option<real>)
    requires u.speakers == t.speakers && u.speakerSeq == t.speakerSeq && k < |u.candidates| && g.lastEnd == o.end
    ensures var r := Weighed(c, u.(candidates := u.candidates[k := g]), o, k, near);
      Settled(c, t, u.candidates, k, g, r.0, r.1)
  {
    var q := u.candidates[k := g];
    assert Without(q, k) == u.candidates[..k] + u.candidates[k + 1..];
  }

  /** A voice too close to a candidate to be another, without one that stands out, is
      given to nobody, and nothing but time passes. */
  lemma {:induction false} NoCandidateStandsOut(c: Config, m: Model, t: Tracker, o: Observation)
    requires c.Valid() && DistinctCandidates(t.candidates) && Heard(c, t, o) && NoneAlike(c, m, t, o)
    requires var q := Kept(t.candidates, o.end, c.candidateIdle);
      !CandidatesUnlike(c, m, q, o) && forall k :: 0 <= k < |q| ==> !CandidateStandsOut(c, m, q, o, k)
    ensures var r := Observed(c, m, t, o);
      && r.Ok? && OnlyTimePasses(c, t, r.value.0, o) && r.value.0.speakers == t.speakers
      && r.value.1.status == Unknown && r.value.1.speaker == None && r.value.1.candidate == None
      && r.value.1.reason == AmbiguousCandidate
  {
    StrangerGoesOn(c, m, t, o);
    var u := Listening(c, t, o);
    var near := Nearest(m, t, o);
    KeptHolds(t.candidates, o.end, c.candidateIdle);
    CandidateScored(m, u, o);
    var i := Best(CandidateScores(m, u, o.voice), CandidateIds(u));
    BestCandidate(c, m, u, o, i);
    assert CandidateScores(m, u, o.voice)[i] > c.newSimilarity;
    hide Observed, Listening, Best, Rival, CandidateScores, CandidateIds, Alike, NoneAlike, Started, Kept, Weighed;
  }

  /** `r` is `q` and `k`, without the candidate of the oldest evidence if there was no room. */
  ghost predicate Joins(c: Config, q: seq<Candidate>, k: Candidate, r: seq<Candidate>) {
    if |q| < c.maxCandidates then r == q + [k]
    else exists i :: 0 <= i < |q| && r == q[..i] + q[i + 1..] + [k]
                     && forall j :: 0 <= j < |q| ==> q[i].lastEnd <= q[j].lastEnd
  }

  /** A voice unlike everyone starts a candidate of its own; when there is no room for it
      the one whose evidence is oldest makes way. */
  lemma {:induction false} StrangerStarts(c: Config, m: Model, t: Tracker, o: Observation)
    requires c.Valid() && DistinctCandidates(t.candidates) && Heard(c, t, o) && NoneAlike(c, m, t, o)
    requires CandidatesUnlike(c, m, Kept(t.candidates, o.end, c.candidateIdle), o)
    ensures var q := Kept(t.candidates, o.end, c.candidateIdle); var r := Observed(c, m, t, o);
      var k := Candidate(t.candidateSeq + 1, o.voice, 1, o.speech, o.end);
      && r.Ok? && r.value.0.speakers == t.speakers
      && r.value.1.status == Provisional && r.value.1.speaker == None && r.value.1.candidate == Some(k.id)
      && Joins(c, q, k, r.value.0.candidates)
  {
    StrangerGoesOn(c, m, t, o);
    var u := Listening(c, t, o);
    var near := Nearest(m, t, o);
    hide *;
    NovelStarts(c, m, u, o, near);
  }

  lemma {:induction false} NovelStarts(c: Config, m: Model, u: Tracker, o: Observation, near: Option<real>)
    requires c.Valid() && CandidatesUnlike(c, m, u.candidates, o)
    ensures var r := Novel(c, m, u, o, near); var k := Candidate(u.candidateSeq + 1, o.voice, 1, o.speech, o.end);
      && r.0.speakers == u.speakers && Joins(c, u.candidates, k, r.0.candidates)
      && r.1.status == Provisional && r.1.speaker == None && r.1.candidate == Some(k.id)
  {
    StartsNovel(c, m, u, o, near);
    StartedIs(c, u, o);
    StartedCollects(c, u, o, near);
    hide *;
  }

  lemma {:induction false} StartsNovel(c: Config, m: Model, u: Tracker, o: Observation, near: Option<real>)
    requires c.Valid() && CandidatesUnlike(c, m, u.candidates, o)
    ensures var s := Started(c, u, o);
      s.candidates != [] && Novel(c, m, u, o, near) == Weighed(c, s, o, |s.candidates| - 1, near)
  {
    CandidateScored(m, u, o);
    hide Best, Rival, CandidateScores, CandidateIds, Alike, Credited, Weighed, Room;
  }

  lemma {:induction false} StartedIs(c: Config, u: Tracker, o: Observation)
    requires c.Valid()
    ensures var q := u.candidates; var s := Started(c, u, o);
      var k := Candidate(u.candidateSeq + 1, o.voice, 1, o.speech, o.end);
      && s.speakers == u.speakers && s.candidates != [] && s.candidates[|s.candidates| - 1] == k
      && Joins(c, q, k, s.candidates)
  {
    if |u.candidates| >= c.maxCandidates {
      var i := Oldest(u.candidates);
      assert Room(c, u) == u.candidates[..i] + u.candidates[i + 1..];
    }
  }

  lemma {:induction false} StartedCollects(c: Config, u: Tracker, o: Observation, near: Option<real>)
    requires c.Valid() && Started(c, u, o).candidates != []
    ensures var s := Started(c, u, o);
      Weighed(c, s, o, |s.candidates| - 1, near)
      == (s, Assignment(Provisional, None, Some(u.candidateSeq + 1), CollectingEvidence, near))
  {
  }

  // -------- Runs

  datatype Step = Observe(o: Observation) | Expire(now: int) | ClearCandidates

  function Apply(c: Config, m: Model, x: World, step: Step): World {
    match step
    case Observe(o) => After(c, m, x, o)
    case Expire(now) => if now < x.t.watermark || now < 0 then x else x.(t := Expired(c, x.t, now))
    case ClearCandidates => x.(t := Cleared(x.t))
  }

  function Run(c: Config, m: Model, x: World, steps: seq<Step>): World
    decreases |steps|
  {
    if steps == [] then x else Run(c, m, Apply(c, m, x, steps[0]), steps[1..])
  }

  /** A fresh tracker, or one resumed from profiles. */
  ghost predicate Start(c: Config, x: World) {
    && c.Valid() && x.evidence == map[] && x.minted == map[] && x.restored == x.t.speakerSeq
    && x.t.candidates == [] && x.t.recent == [] && Bounded(c, x.t)
  }

  lemma {:induction false} ApplyKeeps(c: Config, m: Model, x: World, step: Step)
    requires Inv(c, x)
    ensures Inv(c, Apply(c, m, x, step))
  {
    hide Inv;
    match step
    case Observe(o) => ObserveKeeps(c, m, x, o);
    case Expire(now) => ExpireKeeps(c, x, now);
    case ClearCandidates => ClearKeeps(c, x);
  }

  lemma {:induction false} RunInv(c: Config, m: Model, x: World, steps: seq<Step>)
    requires Inv(c, x)
    ensures Inv(c, Run(c, m, x, steps))
    decreases |steps|
  {
    hide Inv, Apply;
    if steps != [] {
      ApplyKeeps(c, m, x, steps[0]);
      RunInv(c, m, Apply(c, m, x, steps[0]), steps[1..]);
    }
  }

  lemma {:induction false} StartHolds(c: Config, x: World)
    requires Start(c, x)
    ensures Inv(c, x)
  {
  }

  // -------- Repeated and late observations

  /** The observation is well formed, and neither remembered nor late. */
  ghost predicate TakenIn(t: Tracker, o: Observation) {
    && Sensible(o) && (t.dimension.Some? ==> |o.voice| == t.dimension.value)
    && (o.track, o.sample) !in t.recent && t.watermark <= o.end
  }

  ghost function Sample(t: Tracker, step: Step): seq<(string, string)> {
    if step.Observe? && TakenIn(t, step.o) then [(step.o.track, step.o.sample)] else []
  }

  /** The samples taken in over a run, in order. */
  ghost function Samples(c: Config, m: Model, x: World, steps: seq<Step>): seq<(string, string)>
    decreases |steps|
  {
    if steps == [] then [] else Sample(x.t, steps[0]) + Samples(c, m, Apply(c, m, x, steps[0]), steps[1..])
  }

  function Latest(keys: seq<(string, string)>, limit: nat): seq<(string, string)> {
    if |keys| <= limit then keys else keys[|keys| - limit..]
  }

  lemma {:induction false} LatestTwice(keys: seq<(string, string)>, more: seq<(string, string)>, limit: nat)
    ensures Latest(Latest(keys, limit) + more, limit) == Latest(keys + more, limit)
  {
  }

  lemma {:induction false} RecentAfter(c: Config, m: Model, t: Tracker, o: Observation)
    requires c.Valid() && |t.recent| <= c.maxRecent
    ensures match Observed(c, m, t, o)
      case Err(_) => !TakenIn(t, o)
      case Ok(r) =>
        && r.0.recent == (if TakenIn(t, o) then Latest(t.recent + [(o.track, o.sample)], c.maxRecent) else t.recent)
        && r.0.watermark == (if TakenIn(t, o) then o.end else t.watermark)
        && (!TakenIn(t, o) ==> r.0 == t && r.1.status == Unknown && r.1.reason in {Duplicate, OutOfOrder})
  {
    hide Sensible;
    if Observed(c, m, t, o).Ok? && TakenIn(t, o) {
      HeardKeepsRecent(c, t, o);
      var heard := Remembered(c, Expired(c, t, o.end), (o.track, o.sample)).(dimension := Some(|o.voice|));
      IdentifiedKeepsRecent(c, m, heard, o);
      hide Identified, Remembered, Expired;
    }
  }

  lemma {:induction false} HeardKeepsRecent(c: Config, t: Tracker, o: Observation)
    requires c.Valid() && |t.recent| <= c.maxRecent
    ensures var heard := Remembered(c, Expired(c, t, o.end), (o.track, o.sample));
      heard.recent == Latest(t.recent + [(o.track, o.sample)], c.maxRecent) && heard.watermark == o.end
  {
  }

  lemma {:induction false} IdentifiedKeepsRecent(c: Config, m: Model, t: Tracker, o: Observation)
    ensures var r := Identified(c, m, t, o).0; r.recent == t.recent && r.watermark == t.watermark
  {
    hide Best, Rival, SpeakerScores, CandidateScores, Credited, Room;
  }

  /** Over any run the tracker remembers exactly the latest samples it took in, and its clock
      never runs back; a sample it remembers, or one that ends before its clock, changes
      nothing. */
  lemma {:induction false} RemembersLatest(c: Config, m: Model, x: World, steps: seq<Step>,
                                           before: seq<(string, string)>)
    requires c.Valid() && x.t.recent == Latest(before, c.maxRecent)
    ensures var y := Run(c, m, x, steps);
      y.t.recent == Latest(before + Samples(c, m, x, steps), c.maxRecent) && x.t.watermark <= y.t.watermark
    decreases |steps|
  {
    LatestFits(before, c.maxRecent);
    hide Apply, Observed, TakenIn, Latest, Sample;
    if steps == [] {
      assert before + [] == before;
    } else {
      var y, now := Apply(c, m, x, steps[0]), Sample(x.t, steps[0]);
      RecentStep(c, m, x, steps[0]);
      LatestTwice(before, now, c.maxRecent);
      RemembersLatest(c, m, y, steps[1..], before + now);
      assert before + now + Samples(c, m, y, steps[1..]) == before + (now + Samples(c, m, y, steps[1..]));
    }
  }

  lemma {:induction false} LatestFits(keys: seq<(string, string)>, limit: nat)
    ensures |Latest(keys, limit)| <= limit
  {
  }

  lemma {:induction false} RecentStep(c: Config, m: Model, x: World, step: Step)
    requires c.Valid() && |x.t.recent| <= c.maxRecent
    ensures var now, y := Sample(x.t, step), Apply(c, m, x, step);
      y.t.recent == Latest(x.t.recent + now, c.maxRecent) && x.t.watermark <= y.t.watermark
  {
    assert x.t.recent + [] == x.t.recent;
    if step.Observe? { RecentAfter(c, m, x.t, step.o); }
    hide Observed, Sensible;
  }

  /** Over any run from a fresh or resumed tracker: every speaker it did not start with was
      minted in the run and rests on enough clean observations, pairwise disjoint in time,
      with enough speech between them; and all capacities hold through expiry, eviction and
      gaps. */
  lemma {:induction false} RunKeeps(c: Config, m: Model, x: World, steps: seq<Step>)
    requires Start(c, x)
    ensures var y := Run(c, m, x, steps);
      && (forall p :: p in y.t.speakers ==> p.id <= x.t.speakerSeq || p.id in y.minted)
      && (forall id :: id in y.minted ==> Warrants(c, y.minted[id]))
      && |y.t.speakers| <= c.maxSpeakers && |y.t.candidates| <= c.maxCandidates && |y.t.recent| <= c.maxRecent
  {
    StartHolds(c, x);
    RunInv(c, m, x, steps);
    RunRestored(c, m, x, steps);
    hide Run, Warrants, Backs;
  }

  lemma {:induction false} RunRestored(c: Config, m: Model, x: World, steps: seq<Step>)
    ensures Run(c, m, x, steps).restored == x.restored
    decreases |steps|
  {
    hide Observed;
    if steps != [] { RunRestored(c, m, Apply(c, m, x, steps[0]), steps[1..]); }
  }

  /** Counters only grow; candidates and speakers are old ones or numbered since. */
  ghost predicate Descends(t: Tracker, u: Tracker) {
    && t.speakerSeq <= u.speakerSeq && t.candidateSeq <= u.candidateSeq
    && (forall k :: k in u.candidates ==> Inherits(t, k))
    && (forall p :: p in u.speakers ==> Succeeds(t, p))
  }

  ghost predicate Succeeds(t: Tracker, p: Profile) {
    p.id > t.speakerSeq || exists q :: q in t.speakers && q.id == p.id
  }

  ghost predicate Inherits(t: Tracker, k: Candidate) {
    k.id > t.candidateSeq || exists q :: q in t.candidates && q.id == k.id
  }

  lemma {:induction false} DescendsTwice(a: Tracker, b: Tracker, d: Tracker)
    requires Descends(a, b) && Descends(b, d)
    ensures Descends(a, d)
  {
    forall k | k in d.candidates
      ensures Inherits(a, k)
    {
      assert Inherits(b, k);
      if k.id <= b.candidateSeq {
        var q :| q in b.candidates && q.id == k.id;
        assert Inherits(a, q);
      }
    }
    forall p | p in d.speakers
      ensures Succeeds(a, p)
    {
      assert Succeeds(b, p);
      if p.id <= b.speakerSeq {
        var q :| q in b.speakers && q.id == p.id;
        assert Succeeds(a, q);
      }
    }
  }

  lemma {:induction false} SubsetDescends(t: Tracker, u: Tracker)
    requires t.speakerSeq <= u.speakerSeq && t.candidateSeq <= u.candidateSeq
    requires forall k :: k in u.candidates ==> k in t.candidates
    requires forall p :: p in u.speakers ==> p in t.speakers || p.id > t.speakerSeq
    ensures Descends(t, u)
  {
  }

  lemma {:induction false} MatchedDescends(c: Config, m: Model, t: Tracker, o: Observation, i: nat, score: real)
    requires i < |t.speakers|
    ensures Descends(t, Matched(c, m, t, o, i, score))
  {
    var u := Matched(c, m, t, o, i, score);
    forall p | p in u.speakers
      ensures Succeeds(t, p)
    {
      var j :| 0 <= j < |u.speakers| && u.speakers[j] == p;
      assert t.speakers[j] in t.speakers && t.speakers[j].id == p.id;
    }
  }

  lemma {:induction false} WeighedDescends(c: Config, t: Tracker, o: Observation, i: nat, near: Option<real>)
    requires i < |t.candidates|
    ensures var r := Weighed(c, t, o, i, near);
      Descends(t, r.0) && (r.1.status == New ==> r.1.speaker == Some(t.speakerSeq + 1))
  {
    SubsetDescends(t, Weighed(c, t, o, i, near).0);
  }

  lemma {:induction false} StartedDescends(c: Config, t: Tracker, o: Observation)
    ensures Descends(t, Started(c, t, o)) && Started(c, t, o).speakerSeq == t.speakerSeq
  {
  }

  lemma {:induction false} CreditedDescends(m: Model, t: Tracker, o: Observation, i: nat)
    requires i < |t.candidates|
    ensures Descends(t, t.(candidates := t.candidates[i := Credited(m, t.candidates[i], o)]))
  {
    var u := t.candidates[i := Credited(m, t.candidates[i], o)];
    forall k | k in u
      ensures Inherits(t, k)
    {
      var j :| 0 <= j < |u| && u[j] == k;
      assert t.candidates[j] in t.candidates && t.candidates[j].id == k.id;
    }
  }

  lemma {:induction false} NovelDescends(c: Config, m: Model, t: Tracker, o: Observation, near: Option<real>)
    ensures var r := Novel(c, m, t, o, near);
      Descends(t, r.0) && (r.1.status == New ==> r.1.speaker == Some(t.speakerSeq + 1))
  {
    hide Best, Rival, CandidateScores, Weighed, Started, Credited, Descends;
    SubsetDescends(t, t);
    var scores := CandidateScores(m, t, o.voice);
    var i := if scores == [] then 0 else Best(scores, CandidateIds(t));
    if scores != [] && scores[i] >= c.candidateSimilarity {
      var u := t.(candidates := t.candidates[i := Credited(m, t.candidates[i], o)]);
      CreditedDescends(m, t, o, i);
      WeighedDescends(c, u, o, i, near);
      DescendsTwice(t, u, Weighed(c, u, o, i, near).0);
    } else {
      var s := Started(c, t, o);
      StartedDescends(c, t, o);
      StartedNonempty(c, t, o);
      WeighedDescends(c, s, o, |s.candidates| - 1, near);
      DescendsTwice(t, s, Weighed(c, s, o, |s.candidates| - 1, near).0);
    }
  }

  lemma {:induction false} StartedNonempty(c: Config, t: Tracker, o: Observation)
    ensures Started(c, t, o).candidates != []
  {
  }

  lemma {:induction false} IdentifiedDescends(c: Config, m: Model, t: Tracker, o: Observation)
    ensures var r := Identified(c, m, t, o);
      Descends(t, r.0) && (r.1.status == New ==> r.1.speaker == Some(t.speakerSeq + 1))
  {
    hide Best, Rival, SpeakerScores, Novel, Descends;
    SubsetDescends(t, t);
    var scores := SpeakerScores(m, t, o.voice);
    NovelDescends(c, m, t, o, if scores == [] then None else Some(scores[Best(scores, SpeakerIds(t))]));
    if scores != [] {
      var i := Best(scores, SpeakerIds(t));
      MatchedDescends(c, m, t, o, i, scores[i]);
    }
  }

  /** A new speaker's identifier has never been held before, and a new candidate's exceeds
      every earlier one, so no late result can name the wrong evidence. */
  lemma {:induction false} IdentifiersAreFresh(c: Config, m: Model, x: World, o: Observation)
    requires Inv(c, x) && Observed(c, m, x.t, o).Ok?
    ensures var r := Observed(c, m, x.t, o).value;
      && Descends(x.t, r.0)
      && (r.1.status == New ==>
            r.1.speaker.Some? && r.1.speaker.value !in x.minted && r.1.speaker.value > x.restored
            && forall p :: p in x.t.speakers ==> p.id != r.1.speaker.value)
  {
    InvIds(c, x);
    var plain := Remembered(c, Expired(c, x.t, o.end), (o.track, o.sample));
    var heard := plain.(dimension := Some(|o.voice|));
    HeardDescends(c, x.t, o);
    ObservedIs(c, m, x.t, o);
    IdentifiedDescends(c, m, heard, o);
    hide Inv, Identified, Descends, Remembered, Expired, Observed;
    DescendsTwice(x.t, heard, Identified(c, m, heard, o).0);
  }

  lemma {:induction false} ObservedIs(c: Config, m: Model, t: Tracker, o: Observation)
    requires Observed(c, m, t, o).Ok?
    ensures var r, plain := Observed(c, m, t, o).value, Remembered(c, Expired(c, t, o.end), (o.track, o.sample));
      || r == Identified(c, m, plain.(dimension := Some(|o.voice|)), o)
      || (r.0 in {t, plain} && r.1.status == Unknown)
  {
    hide Identified, Remembered, Expired;
  }

  lemma {:induction false} HeardDescends(c: Config, t: Tracker, o: Observation)
    ensures var plain := Remembered(c, Expired(c, t, o.end), (o.track, o.sample));
      && Descends(t, t) && Descends(t, plain) && Descends(t, plain.(dimension := Some(|o.voice|)))
      && plain.speakers == t.speakers && plain.speakerSeq == t.speakerSeq
  {
    var plain := Remembered(c, Expired(c, t, o.end), (o.track, o.sample));
    KeptHolds(t.candidates, o.end, c.candidateIdle);
    hide Descends;
    SubsetDescends(t, t);
    SubsetDescends(t, plain);
    SubsetDescends(t, plain.(dimension := Some(|o.voice|)));
  }

  lemma {:induction false} InvIds(c: Config, x: World)
    requires Inv(c, x)
    ensures x.restored <= x.t.speakerSeq && (forall id :: id in x.minted ==> id <= x.t.speakerSeq)
    ensures forall p :: p in x.t.speakers ==> p.id <= x.t.speakerSeq
  {
    hide Backs, Warrants;
  }

  // -------- No number is ever issued twice

  /** The numbers of speakers and candidates that one step brings. */
  datatype Issue = Issue(speakers: set<nat>, candidates: set<nat>)

  function SpeakerNumbers(t: Tracker): set<nat> {
    set p | p in t.speakers :: p.id
  }

  function CandidateNumbers(t: Tracker): set<nat> {
    set k | k in t.candidates :: k.id
  }

  function IssuedBy(t: Tracker, u: Tracker): Issue {
    Issue(SpeakerNumbers(u) - SpeakerNumbers(t), CandidateNumbers(u) - CandidateNumbers(t))
  }

  function Issued(c: Config, m: Model, x: World, steps: seq<Step>): (r: seq<Issue>)
    ensures |r| == |steps|
    decreases |steps|
  {
    if steps == [] then []
    else
      var y := Apply(c, m, x, steps[0]);
      [IssuedBy(x.t, y.t)] + Issued(c, m, y, steps[1..])
  }

  ghost predicate Above(q: Issue, t: Tracker) {
    (forall id :: id in q.speakers ==> id > t.speakerSeq) && (forall id :: id in q.candidates ==> id > t.candidateSeq)
  }

  ghost predicate Below(q: Issue, t: Tracker) {
    (forall id :: id in q.speakers ==> id <= t.speakerSeq) && (forall id :: id in q.candidates ==> id <= t.candidateSeq)
  }

  lemma {:induction false} ApplyDescends(c: Config, m: Model, x: World, step: Step)
    requires Inv(c, x)
    ensures Descends(x.t, Apply(c, m, x, step).t)
  {
    SubsetDescends(x.t, x.t);
    hide Inv, Observed, Descends;
    match step
    case Observe(o) => if Observed(c, m, x.t, o).Ok? { IdentifiersAreFresh(c, m, x, o); }
    case Expire(now) =>
      KeptHolds(x.t.candidates, now, c.candidateIdle);
      SubsetDescends(x.t, Expired(c, x.t, now));
    case ClearCandidates => SubsetDescends(x.t, Cleared(x.t));
  }

  lemma {:induction false} IssuedBetween(c: Config, t: Tracker, u: Tracker)
    requires Descends(t, u) && Bounded(c, u)
    ensures Above(IssuedBy(t, u), t) && Below(IssuedBy(t, u), u)
  {
    forall id | id in IssuedBy(t, u).speakers
      ensures t.speakerSeq < id <= u.speakerSeq
    {
      var p :| p in u.speakers && p.id == id;
      assert Succeeds(t, p);
    }
    forall id | id in IssuedBy(t, u).candidates
      ensures t.candidateSeq < id <= u.candidateSeq
    {
      var k :| k in u.candidates && k.id == id;
      assert Inherits(t, k);
    }
  }

  lemma {:induction false} IssuedAbove(c: Config, m: Model, x: World, steps: seq<Step>)
    requires Inv(c, x)
    ensures forall q :: q in Issued(c, m, x, steps) ==> Above(q, x.t)
    decreases |steps|
  {
    if steps != [] {
      var y := Apply(c, m, x, steps[0]);
      ApplyKeeps(c, m, x, steps[0]);
      ApplyDescends(c, m, x, steps[0]);
      InvBounded(c, y);
      hide Inv, Apply, Bounded;
      IssuedBetween(c, x.t, y.t);
      IssuedAbove(c, m, y, steps[1..]);
    }
  }

  lemma {:induction false} InvBounded(c: Config, x: World)
    requires Inv(c, x)
    ensures Bounded(c, x.t)
  {
  }

  ghost predicate Apart(a: Issue, b: Issue) {
    a.speakers !! b.speakers && a.candidates !! b.candidates
  }

  ghost predicate AllApart(q: seq<Issue>) {
    forall i, j :: 0 <= i < j < |q| ==> Apart(q[i], q[j])
  }

  /** Over a whole run no two steps bring the same speaker or candidate number, and none
      brings a number from before the run. */
  lemma {:induction false} NoNumberTwice(c: Config, m: Model, x: World, steps: seq<Step>)
    requires Start(c, x)
    ensures var q := Issued(c, m, x, steps);
      AllApart([Issue(SpeakerNumbers(x.t), CandidateNumbers(x.t))] + q)
  {
    StartHolds(c, x);
    InvBounded(c, x);
    IssuedAbove(c, m, x, steps);
    IssuedApart(c, m, x, steps);
    hide Apart;
    Separated(Issue(SpeakerNumbers(x.t), CandidateNumbers(x.t)), Issued(c, m, x, steps), x.t);
  }

  lemma {:induction false} IssuedApart(c: Config, m: Model, x: World, steps: seq<Step>)
    requires Inv(c, x)
    ensures AllApart(Issued(c, m, x, steps))
    decreases |steps|
  {
    if steps != [] {
      var y := Apply(c, m, x, steps[0]);
      ApplyKeeps(c, m, x, steps[0]);
      ApplyDescends(c, m, x, steps[0]);
      InvBounded(c, y);
      hide Inv, Apply, AllApart, Bounded;
      IssuedBetween(c, x.t, y.t);
      IssuedAbove(c, m, y, steps[1..]);
      IssuedApart(c, m, y, steps[1..]);
      Separated(IssuedBy(x.t, y.t), Issued(c, m, y, steps[1..]), y.t);
    }
  }

  lemma {:induction false} Separated(first: Issue, rest: seq<Issue>, t: Tracker)
    requires Below(first, t) && (forall q :: q in rest ==> Above(q, t)) && AllApart(rest)
    ensures AllApart([first] + rest)
  {
    forall q | q in rest
      ensures Apart(first, q)
    {
      assert Above(q, t);
    }
    hide Apart, Above, Below;
    var all := [first] + rest;
    forall i, j | 0 <= i < j < |all|
      ensures Apart(all[i], all[j])
    {
      assert all[j] == rest[j - 1];
      if i > 0 { assert all[i] == rest[i - 1]; }
    }
  }

  // -------- The tracker itself

  class OnlineSpeakerTracker {
    const c: Config
    const m: Model
    var speakers: seq<Profile>
    var candidates: seq<Candidate>
    var recent: seq<(string, string)>
    var dimension: Option<nat>
    var watermark: int
    var speakerSeq: nat
    var candidateSeq: nat

    function State(): Tracker
      reads this
    {
      Tracker(speakers, candidates, recent, dimension, watermark, speakerSeq, candidateSeq)
    }

    constructor (c: Config, m: Model)
      requires c.Valid()
      ensures State() == Tracker([], [], [], None, -1, 0, 0) && this.c == c && this.m == m
    {
      this.c, this.m := c, m;
      speakers, candidates, recent, dimension, watermark, speakerSeq, candidateSeq := [], [], [], None, -1, 0, 0;
    }

    method Expire(now: int) returns (refused: bool)
      modifies this`watermark, this`candidates
      ensures refused == (now < 0 || now < old(watermark))
      ensures State() == if refused then old(State()) else Expired(c, old(State()), now)
    {
      if now < 0 || now < watermark { return true; }
      watermark := now;
      var kept: seq<Candidate> := [];
      for k := 0 to |candidates|
        invariant State() == old(State()).(watermark := now)
        invariant kept + Kept(candidates[k..], now, c.candidateIdle) == Kept(candidates, now, c.candidateIdle)
      {
        ghost var rest := candidates[k..];
        assert rest[0] == candidates[k] && rest[1..] == candidates[k + 1..];
        if now - candidates[k].lastEnd <= c.candidateIdle { kept := kept + [candidates[k]]; }
      }
      candidates := kept;
      return false;
    }

    method Clear() returns (count: nat)
      modifies this`candidates
      ensures State() == Cleared(old(State())) && count == |old(candidates)|
    {
      count := |candidates|;
      candidates := [];
    }

    method Observe(o: Observation) returns (r: Result<Assignment, Error>)
      modifies this
      ensures match Observed(c, m, old(State()), o)
              case Ok(x) => State() == x.0 && r == Ok(x.1)
              case Err(e) => State() == old(State()) && r == Err(e)
    {
      if !(0 <= o.start < o.end && 0 <= o.speech <= o.end - o.start && 0.0 <= o.quality <= 1.0 && Audible(o.voice)) {
        return Err(InvalidObservation);
      }
      if dimension.Some? && |o.voice| != dimension.value { return Err(DimensionChanged); }
      if (o.track, o.sample) in recent { return Ok(Unsure(Duplicate, None)); }
      if o.end < watermark { return Ok(Unsure(OutOfOrder, None)); }
      var refused := Expire(o.end);
      recent := recent + [(o.track, o.sample)];
      if |recent| > c.maxRecent { recent := recent[1..]; }
      if o.overlap { return Ok(Unsure(Overlap, None)); }
      if o.quality < c.minQuality { return Ok(Unsure(LowQuality, None)); }
      if o.speech < c.minSpeech { return Ok(Unsure(LittleSpeech, None)); }
      dimension := Some(|o.voice|);
      var a := Identify(o);
      return Ok(a);
    }

    method Identify(o: Observation) returns (a: Assignment)
      modifies this`speakers, this`candidates, this`speakerSeq, this`candidateSeq
      ensures (State(), a) == Identified(c, m, old(State()), o)
    {
      var scores, near := SpeakerScores(m, State(), o.voice), None;
      if scores != [] {
        var i := Best(scores, SpeakerIds(State()));
        if scores[i] >= c.matchSimilarity {
          if scores[i] - Rival(scores, i, 0) < c.minMargin { return Unsure(AmbiguousExisting, Some(scores[i])); }
          var p := speakers[i];
          var prototype, support, lastSupport := p.prototype, p.support, p.lastSupport;
          if scores[i] >= c.updateSimilarity && o.start >= lastSupport {
            prototype, support, lastSupport := m.blend(prototype, o.voice, c.updateRate), support + 1, o.end;
          }
          speakers := speakers[i := Profile(p.id, prototype, support, o.end, lastSupport)];
          return Assignment(Existing, Some(p.id), None, MatchedExisting, Some(scores[i]));
        }
        if scores[i] > c.newSimilarity { return Unsure(AmbiguousExisting, Some(scores[i])); }
        near := Some(scores[i]);
      }
      a := Explore(o, near);
    }

    method Explore(o: Observation, near: Option<real>) returns (a: Assignment)
      modifies this`speakers, this`candidates, this`speakerSeq, this`candidateSeq
      ensures (State(), a) == Novel(c, m, old(State()), o, near)
    {
      hide Weighed, Rival, Best, CandidateScores, Started, Credited;
      var scores := CandidateScores(m, State(), o.voice);
      var i := 0;
      if scores != [] { i := Best(scores, CandidateIds(State())); }
      if scores != [] && scores[i] >= c.candidateSimilarity {
        if |scores| > 1 && scores[i] - Rival(scores, i, 0) < c.minMargin {
          return Unsure(AmbiguousCandidate, Some(scores[i]));
        }
        if o.start < candidates[i].lastEnd {
          return Assignment(Provisional, None, Some(candidates[i].id), OverlappingEvidence, Some(scores[i]));
        }
        candidates := candidates[i := Credited(m, candidates[i], o)];
      } else {
        if scores != [] && scores[i] > c.newSimilarity { return Unsure(AmbiguousCandidate, Some(scores[i])); }
        StartCandidate(o);
        i := |candidates| - 1;
      }
      a := Weigh(o, i, near);
    }

    method StartCandidate(o: Observation)
      modifies this`candidates, this`candidateSeq
      ensures State() == Started(c, old(State()), o) && candidates != []
    {
      if |candidates| >= c.maxCandidates && candidates != [] {
        var oldest := FindOldest();
        candidates := Without(candidates, oldest);
      }
      candidateSeq := candidateSeq + 1;
      candidates := candidates + [Candidate(candidateSeq, o.voice, 1, o.speech, o.end)];
    }

    method FindOldest() returns (i: nat)
      requires candidates != []
      ensures i == Oldest(candidates)
    {
      i := 0;
      for k := 1 to |candidates|
        invariant i < k
        invariant forall j :: 0 <= j < k ==> candidates[i].lastEnd <= candidates[j].lastEnd
        invariant forall j :: 0 <= j < i ==> candidates[i].lastEnd < candidates[j].lastEnd
      {
        if candidates[k].lastEnd < candidates[i].lastEnd { i := k; }
      }
    }

    method Weigh(o: Observation, i: nat, near: Option<real>) returns (a: Assignment)
      requires i < |candidates|
      modifies this`speakers, this`candidates, this`speakerSeq
      ensures (State(), a) == Weighed(c, old(State()), o, i, near)
    {
      var k := candidates[i];
      if k.support < c.minConfirmations || k.speech < c.confirmationSpeech {
        return Assignment(Provisional, None, Some(k.id), CollectingEvidence, near);
      }
      candidates := Without(candidates, i);
      if |speakers| >= c.maxSpeakers { return Unsure(SpeakerCapacity, None); }
      speakerSeq := speakerSeq + 1;
      speakers := speakers + [Profile(speakerSeq, k.prototype, k.support, o.end, k.lastEnd)];
      return Assignment(New, Some(speakerSeq), Some(k.id), ConfirmedNew, near);
    }
  }
}
