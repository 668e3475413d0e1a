/** The reducer's own loops over its dictionaries (speaker_captions.py), each proved to be
    its step; among them the merged-interval search for the captions to recheck. */
module SpeakerCaptionsClass {
  import opened Wrappers
  import opened Common
  import opened SpeakerDecision
  import opened SpeakerCaptions

  // -------- Which captions the evidence touches

  datatype Interval = Interval(start: int, end: int)

  predicate Proper(q: seq<Interval>) {
    forall x :: x in q ==> x.start < x.end
  }

  ghost predicate Covered(q: seq<Interval>, t: int) {
    exists x :: x in q && x.start <= t < x.end
  }

  ghost predicate Ascending(q: seq<Interval>) {
    forall i, j :: 0 <= i < j < |q| ==> q[i].start <= q[j].start
  }

  /** Strictly separated, in order. */
  ghost predicate Separate(q: seq<Interval>) {
    forall i, j :: 0 <= i < j < |q| ==> q[i].end < q[j].start
  }

  method InsertInterval(q: seq<Interval>, x: Interval) returns (r: seq<Interval>)
    requires Ascending(q)
    ensures Ascending(r) && forall y :: y in r <==> y in q || y == x
  {
    var k := |q|;
    while k > 0 && x.start < q[k - 1].start
      invariant 0 <= k <= |q| && forall i :: k <= i < |q| ==> x.start <= q[i].start
    {
      k := k - 1;
    }
    r := q[..k] + [x] + q[k..];
    InsertedAt(q, x, k, r);
  }

  lemma {:induction false} InsertedAt(q: seq<Interval>, x: Interval, k: nat, r: seq<Interval>)
    requires k <= |q| && r == q[..k] + [x] + q[k..] && Ascending(q)
    requires (forall i :: k <= i < |q| ==> x.start <= q[i].start) && (k > 0 ==> q[k - 1].start <= x.start)
    ensures Ascending(r) && forall y :: y in r <==> y in q || y == x
  {
    AscendingPrefix(q, k);
    assert Ascending([x]);
    hide Ascending;
    Joined(q[..k], [x]);
    Joined(q[..k] + [x], q[k..]);
    assert q == q[..k] + q[k..];
  }

  lemma {:induction false} AscendingPrefix(q: seq<Interval>, k: nat)
    requires Ascending(q) && k <= |q|
    ensures Ascending(q[..k]) && Ascending(q[k..])
  {
  }

  lemma {:induction false} Joined(a: seq<Interval>, b: seq<Interval>)
    requires Ascending(a) && Ascending(b)
    requires a != [] && b != [] ==> a[|a| - 1].start <= b[0].start
    ensures Ascending(a + b)
  {
  }

  method SortIntervals(q: seq<Interval>) returns (r: seq<Interval>)
    ensures Ascending(r) && forall y :: y in r <==> y in q
  {
    r := [];
    for k := 0 to |q|
      invariant Ascending(r) && forall y :: y in r <==> y in q[..k]
    {
      r := InsertInterval(r, q[k]);
    }
  }

  lemma {:induction false} CoveredAppend(q: seq<Interval>, x: Interval, t: int)
    ensures Covered(q + [x], t) <==> Covered(q, t) || x.start <= t < x.end
  {
    assert x in q + [x];
    if Covered(q, t) {
      var y :| y in q && y.start <= t < y.end;
      assert y in q + [x];
    }
  }

  /** One more interval, in order of starts: it extends the last one or stands apart. */
  function Absorb(merged: seq<Interval>, x: Interval): seq<Interval> {
    if merged != [] && x.start <= merged[|merged| - 1].end then
      var last := merged[|merged| - 1];
      merged[..|merged| - 1] + [Interval(last.start, if x.end < last.end then last.end else x.end)]
    else merged + [x]
  }

  lemma {:induction false} AbsorbKeeps(merged: seq<Interval>, x: Interval)
    requires Proper(merged) && Separate(merged) && x.start < x.end
    requires merged != [] ==> merged[|merged| - 1].start <= x.start
    ensures var r := Absorb(merged, x);
      && Proper(r) && Separate(r) && r != [] && r[|r| - 1].start <= x.start
      && forall t :: Covered(r, t) <==> Covered(merged, t) || x.start <= t < x.end
  {
    AbsorbCovers(merged, x);
    AbsorbApart(merged, x);
  }

  lemma {:induction false} AbsorbApart(merged: seq<Interval>, x: Interval)
    requires Proper(merged) && Separate(merged) && x.start < x.end
    requires merged != [] ==> merged[|merged| - 1].start <= x.start
    ensures var r := Absorb(merged, x);
      Proper(r) && Separate(r) && r != [] && r[|r| - 1].start <= x.start
  {
    if merged != [] { SeparateFront(merged); }
    hide Separate, Proper;
    if merged != [] && x.start <= merged[|merged| - 1].end {
      var last := merged[|merged| - 1];
      SeparateAppend(merged[..|merged| - 1], Interval(last.start, if x.end < last.end then last.end else x.end));
    } else {
      SeparateAppend(merged, x);
    }
  }

  lemma {:induction false} SeparateFront(q: seq<Interval>)
    requires q != [] && Proper(q) && Separate(q)
    ensures Proper(q[..|q| - 1]) && Separate(q[..|q| - 1]) && q[|q| - 1].start < q[|q| - 1].end
    ensures forall i :: 0 <= i < |q| - 1 ==> q[i].end < q[|q| - 1].start
  {
    assert q[|q| - 1] in q;
  }

  lemma {:induction false} SeparateAppend(q: seq<Interval>, x: Interval)
    requires Proper(q) && Separate(q) && x.start < x.end && forall i :: 0 <= i < |q| ==> q[i].end < x.start
    ensures Proper(q + [x]) && Separate(q + [x])
  {
  }

  lemma {:induction false} AbsorbCovers(merged: seq<Interval>, x: Interval)
    requires Proper(merged) && x.start < x.end && (merged != [] ==> merged[|merged| - 1].start <= x.start)
    ensures forall t :: Covered(Absorb(merged, x), t) <==> Covered(merged, t) || x.start <= t < x.end
  {
    var r := Absorb(merged, x);
    if merged == [] {
      assert r == [x];
    } else {
      var last, front := merged[|merged| - 1], merged[..|merged| - 1];
      assert last in merged && merged == front + [last];
      forall t
        ensures Covered(r, t) <==> Covered(merged, t) || x.start <= t < x.end
      {
        CoveredAppend(front, last, t);
        CoveredAppend(front, r[|r| - 1], t);
        CoveredAppend(merged, x, t);
      }
    }
  }

  /** Touching intervals become one; the instants covered stay the same. */
  method Merge(sorted: seq<Interval>) returns (merged: seq<Interval>)
    requires Ascending(sorted) && Proper(sorted)
    ensures Proper(merged) && Separate(merged)
    ensures forall t :: Covered(merged, t) <==> Covered(sorted, t)
  {
    hide Separate;
    merged := [];
    assert Separate([]) by { NoneSeparate(); }
    for k := 0 to |sorted|
      invariant Proper(merged) && Separate(merged)
      invariant merged != [] && k < |sorted| ==> merged[|merged| - 1].start <= sorted[k].start
      invariant forall t :: Covered(merged, t) <==> Covered(sorted[..k], t)
    {
      var x := sorted[k];
      assert x in sorted && sorted[..k + 1] == sorted[..k] + [x];
      AbsorbKeeps(merged, x);
      ghost var was := merged;
      if merged != [] && x.start <= merged[|merged| - 1].end {
        var last := merged[|merged| - 1];
        merged := merged[..|merged| - 1] + [Interval(last.start, if x.end < last.end then last.end else x.end)];
      } else {
        merged := merged + [x];
      }
      assert merged == Absorb(was, x);
      forall t
        ensures Covered(merged, t) <==> Covered(sorted[..k + 1], t)
      {
        CoveredAppend(sorted[..k], x, t);
      }
    }
    assert sorted[..|sorted|] == sorted;
  }

  lemma {:induction false} NoneSeparate()
    ensures Separate([])
  {
  }

  /** How many starts lie before `x`. */
  method BisectLeft(starts: seq<int>, x: int) returns (i: nat)
    requires forall a, b :: 0 <= a < b < |starts| ==> starts[a] <= starts[b]
    ensures i <= |starts|
    ensures forall k :: 0 <= k < i ==> starts[k] < x
    ensures forall k :: i <= k < |starts| ==> x <= starts[k]
  {
    var lo, hi := 0, |starts|;
    while lo < hi
      invariant 0 <= lo <= hi <= |starts|
      invariant forall k :: 0 <= k < lo ==> starts[k] < x
      invariant forall k :: hi <= k < |starts| ==> x <= starts[k]
    {
      var mid := (lo + hi) / 2;
      if starts[mid] < x { lo := mid + 1; } else { hi := mid; }
    }
    return lo;
  }

  /** Whether the interval meets any of the merged ones: only the last that starts in
      time need be looked at. */
  method MeetsAny(merged: seq<Interval>, starts: seq<int>, start: int, end: int) returns (meets: bool)
    requires Proper(merged) && Separate(merged) && start < end
    requires |starts| == |merged| && forall k :: 0 <= k < |starts| ==> starts[k] == merged[k].start
    ensures meets <==> exists t :: start <= t < end && Covered(merged, t)
  {
    StartsAscend(merged);
    var i := BisectLeft(starts, end);
    meets := i > 0 && merged[i - 1].end > start;
    if meets {
      MeetsLast(merged, i - 1, start, end);
    }
    if t :| start <= t < end && Covered(merged, t) {
      LastMeets(merged, i, start, end, t);
    }
  }

  lemma {:induction false} StartsAscend(merged: seq<Interval>)
    requires Proper(merged) && Separate(merged)
    ensures Ascending(merged)
  {
    forall a, b | 0 <= a < b < |merged|
      ensures merged[a].start <= merged[b].start
    {
      assert merged[a] in merged;
    }
  }

  lemma {:induction false} MeetsLast(merged: seq<Interval>, k: nat, start: int, end: int)
    requires Proper(merged) && k < |merged| && merged[k].start < end && start < merged[k].end && start < end
    ensures exists t :: start <= t < end && Covered(merged, t)
  {
    assert merged[k] in merged;
    assert Covered(merged, if merged[k].start < start then start else merged[k].start);
  }

  /** Whatever meets the range, the last interval that starts in time does. */
  lemma {:induction false} LastMeets(merged: seq<Interval>, i: nat, start: int, end: int, t: int)
    requires Proper(merged) && Separate(merged) && start <= t < end && Covered(merged, t) && i <= |merged|
    requires forall k :: i <= k < |merged| ==> end <= merged[k].start
    ensures i > 0 && merged[i - 1].end > start
  {
    var x :| x in merged && x.start <= t < x.end;
    var k :| 0 <= k < |merged| && merged[k] == x;
    assert k < i;
    if k < i - 1 { assert merged[i - 1] in merged; }
  }

  predicate SameInterval(x: Interval, a: Assignment) {
    x == Interval(a.start, a.end)
  }

  ghost predicate Justified(x: Interval, history: seq<Evidence>, e: Evidence) {
    SameInterval(x, e.a) || exists other :: other in history && Renamed(e, other) && SameInterval(x, other.a)
  }

  ghost predicate AffectedBy(q: seq<Interval>, history: seq<Evidence>, e: Evidence) {
    && (forall x :: x in q ==> Justified(x, history, e))
    && Interval(e.a.start, e.a.end) in q
    && forall other :: other in history && Renamed(e, other) ==> Interval(other.a.start, other.a.end) in q
  }

  method Affected(history: seq<Evidence>, e: Evidence) returns (affected: seq<Interval>)
    ensures AffectedBy(affected, history, e)
  {
    affected := [Interval(e.a.start, e.a.end)];
    assert affected[0] == Interval(e.a.start, e.a.end);
    if e.a.status == New {
      for k := 0 to |history|
        invariant forall x :: x in affected ==> Justified(x, history, e)
        invariant Interval(e.a.start, e.a.end) in affected
        invariant forall j :: 0 <= j < k && Renamed(e, history[j]) ==>
          Interval(history[j].a.start, history[j].a.end) in affected
      {
        var other := history[k];
        assert other in history;
        if other.a.track == e.a.track && other.epoch == e.epoch && other.a.status == Provisional
           && other.a.candidate == e.a.candidate {
          assert Justified(Interval(other.a.start, other.a.end), history, e);
          affected := affected + [Interval(other.a.start, other.a.end)];
        }
      }
    }
  }

  lemma {:induction false} MeetsIsCovered(history: seq<Evidence>, e: Evidence, affected: seq<Interval>, c: Ref)
    requires AffectedBy(affected, history, e) && Proper(affected) && c.start < c.end
    ensures (exists t :: c.start <= t < c.end && Covered(affected, t))
       <==> Meets(c, e.a) || exists other :: other in history && Renamed(e, other) && Meets(c, other.a)
  {
    if t :| c.start <= t < c.end && Covered(affected, t) {
      var x :| x in affected && x.start <= t < x.end;
    }
    if Meets(c, e.a) {
      CoversAt(affected, Interval(e.a.start, e.a.end), c);
    }
    if other :| other in history && Renamed(e, other) && Meets(c, other.a) {
      CoversAt(affected, Interval(other.a.start, other.a.end), c);
    }
  }

  lemma {:induction false} CoversAt(affected: seq<Interval>, x: Interval, c: Ref)
    requires x in affected && x.start < c.end && c.start < x.end && Proper(affected) && c.start < c.end
    ensures exists t :: c.start <= t < c.end && Covered(affected, t)
  {
    var t := if x.start < c.start then c.start else x.start;
    assert Covered(affected, t);
  }

  /** The merged intervals stand for what the evidence affects. */
  ghost predicate Stands(merged: seq<Interval>, affected: seq<Interval>, history: seq<Evidence>, e: Evidence) {
    AffectedBy(affected, history, e) && Proper(affected) && forall t :: Covered(merged, t) <==> Covered(affected, t)
  }

  method MergedAffected(history: seq<Evidence>, e: Evidence)
      returns (merged: seq<Interval>, ghost affected: seq<Interval>)
    requires e.a.start < e.a.end && forall x :: x in history ==> x.a.start < x.a.end
    ensures Proper(merged) && Separate(merged) && Stands(merged, affected, history, e)
  {
    var all := Affected(history, e);
    var ordered := SortIntervals(all);
    assert Proper(all);
    merged := Merge(ordered);
    SameCover(all, ordered);
    affected := all;
  }

  /** The captions to recheck, by one search of merged intervals each. */
  method SelectTouched(history: seq<Evidence>, e: Evidence, captions: seq<Ref>) returns (refs: seq<Ref>)
    requires e.a.start < e.a.end && Intervals(captions)
    requires forall x :: x in history ==> x.a.start < x.a.end
    ensures refs == TouchedOf(history, e, captions)
  {
    var merged;
    ghost var affected;
    merged, affected := MergedAffected(history, e);
    var starts := seq(|merged|, i requires 0 <= i < |merged| => merged[i].start);
    refs := [];
    TouchedAll(history, e, captions);
    hide Stands, Covered, Separate, Touched, Proper, TouchedOf;
    for k := 0 to |captions|
      invariant refs + TouchedOf(history, e, captions[k..]) == TouchedOf(history, e, captions)
    {
      var c := captions[k];
      TouchedStep(history, e, captions, k);
      var touched := IsTouched(merged, starts, affected, history, e, c);
      if touched { refs := refs + [c]; }
    }
  }

  method IsTouched(merged: seq<Interval>, starts: seq<int>, ghost affected: seq<Interval>, ghost history: seq<Evidence>,
                   e: Evidence, c: Ref) returns (touched: bool)
    requires Proper(merged) && Separate(merged) && Stands(merged, affected, history, e) && c.start < c.end
    requires |starts| == |merged| && forall k :: 0 <= k < |starts| ==> starts[k] == merged[k].start
    ensures touched <==> Touched(history, e, c)
  {
    hide Stands, Covered, Separate, Touched, Proper;
    if c.track != e.a.track || c.epoch != e.epoch {
      NotTouched(history, e, c);
      return false;
    }
    touched := MeetsAny(merged, starts, c.start, c.end);
    TouchedIffMeets(history, e, affected, merged, c);
  }

  lemma {:induction false} TouchedStep(history: seq<Evidence>, e: Evidence, captions: seq<Ref>, k: nat)
    requires k < |captions|
    ensures captions[k] in captions
    ensures TouchedOf(history, e, captions[k..])
         == (if Touched(history, e, captions[k]) then [captions[k]] else []) + TouchedOf(history, e, captions[k + 1..])
  {
    assert captions[k..][1..] == captions[k + 1..];
  }

  lemma {:induction false} TouchedAll(history: seq<Evidence>, e: Evidence, captions: seq<Ref>)
    ensures TouchedOf(history, e, captions[0..]) == TouchedOf(history, e, captions)
    ensures TouchedOf(history, e, captions[|captions|..]) == []
  {
    assert captions[0..] == captions;
  }

  lemma {:induction false} NotTouched(history: seq<Evidence>, e: Evidence, c: Ref)
    requires !(c.track == e.a.track && c.epoch == e.epoch)
    ensures !Touched(history, e, c)
  {
  }

  lemma {:induction false} TouchedIffMeets(history: seq<Evidence>, e: Evidence, affected: seq<Interval>,
                                           merged: seq<Interval>, c: Ref)
    requires Stands(merged, affected, history, e) && c.start < c.end
    requires c.track == e.a.track && c.epoch == e.epoch
    ensures (exists t :: c.start <= t < c.end && Covered(merged, t)) <==> Touched(history, e, c)
  {
    MeetsIsCovered(history, e, affected, c);
    hide Covered, AffectedBy;
  }

  lemma {:induction false} SameCover(a: seq<Interval>, b: seq<Interval>)
    requires forall x :: x in a <==> x in b
    ensures forall t :: Covered(a, t) <==> Covered(b, t)
  {
  }

  // -------- The caption store

  class CaptionStore {
    var segments: map<string, Caption>

    constructor ()
      ensures segments == map[]
    {
      segments := map[];
    }

    method UpsertSource(id: string, c: Caption) returns (accepted: Result<bool, StoreError>)
      modifies this
      ensures match Upserted(old(segments), id, c)
              case Ok(x) => segments == x.0 && accepted == Ok(x.1)
              case Err(e) => segments == old(segments) && accepted == Err(e)
      ensures accepted == Ok(true) ==> id in segments && segments[id].revision == c.revision && !segments[id].superseded
    {
      if c.superseded || c.speakerRevision != 0 || c.manual { return Err(NotASource); }
      if id in segments {
        var current := segments[id];
        if current.track != c.track { return Err(TrackMoved); }
        if current.superseded || c.revision <= current.revision { return Ok(false); }
        segments := segments[id := c.(speaker := current.speaker, speakerRevision := current.speakerRevision,
                                      manual := current.manual)];
        return Ok(true);
      }
      segments := segments[id := c];
      return Ok(true);
    }

    method UpdateSpeaker(id: string, speaker: Option<string>, speakerRevision: nat, basedOn: Option<int>, manual: bool)
        returns (accepted: bool)
      modifies this
      ensures accepted == (id in old(segments) && !old(segments)[id].superseded
        && speakerRevision > old(segments)[id].speakerRevision && (old(segments)[id].manual ==> manual)
        && (basedOn.Some? ==> basedOn.value == old(segments)[id].revision))
      ensures segments == if accepted
        then old(segments)[id := old(segments)[id].(speaker := speaker, speakerRevision := speakerRevision,
                                                    manual := manual)]
        else old(segments)
    {
      if id !in segments { return false; }
      var current := segments[id];
      if current.superseded || speakerRevision <= current.speakerRevision || (current.manual && !manual)
         || (basedOn.Some? && basedOn.value != current.revision) {
        return false;
      }
      segments := segments[id := current.(speaker := speaker, speakerRevision := speakerRevision, manual := manual)];
      return true;
    }

    method SupersedeSegment(id: string) returns (accepted: bool)
      modifies this
      ensures segments == Superseded(old(segments), id)
      ensures accepted <==> id in old(segments) && !old(segments)[id].superseded
    {
      if id !in segments || segments[id].superseded {
        assert id in segments ==> segments[id := segments[id].(superseded := true)] == segments;
        return false;
      }
      segments := segments[id := segments[id].(superseded := true)];
      return true;
    }
  }

  // -------- The reducer

  class SpeakerCaptionReducer {
    const cfg: Config
    const store: CaptionStore
    var history: seq<Evidence>
    var captions: seq<Ref>
    var confirmed: Confirmed
    var watermark: int
    var floor: int

    function State(): Reducer
      reads this
    {
      Reducer(history, captions, confirmed, watermark, floor)
    }

    function Everything(): World
      reads this, store
    {
      World(State(), store.segments)
    }

    /** What the methods need of the state they are called in. */
    ghost predicate Usable()
      reads this
    {
      cfg.Valid() && Intervals(captions) && forall e :: e in history ==> e.a.start < e.a.end
    }

    constructor (store: CaptionStore, cfg: Config)
      requires cfg.Valid()
      ensures State() == Fresh && this.store == store && this.cfg == cfg && Usable()
    {
      this.store, this.cfg := store, cfg;
      history, captions, confirmed, watermark, floor := [], [], map[], 0, 0;
    }

    // -------- Pruning

    method Prune()
      modifies this
      ensures State() == Pruned(cfg, old(State()))
    {
      hide SpeakerCaptions.Live, Evict, From;
      var limit := Max(Max(floor, watermark - cfg.historyNs), 0);
      ExpireHistory(limit);
      limit := EvictHistory(limit);
      floor := limit;
      ExpireCaptions();
      var candidates := set e | e in history && e.a.candidate.Some? :: CandidateKey(e);
      confirmed := confirmed - (confirmed.Keys - candidates);
    }

    method ExpireHistory(limit: int)
      modifies this`history
      ensures history == SpeakerCaptions.Live(old(history), limit)
    {
      var kept: seq<Evidence> := [];
      for k := 0 to |history|
        invariant history == old(history)
        invariant kept + SpeakerCaptions.Live(history[k..], limit) == SpeakerCaptions.Live(history, limit)
      {
        ghost var rest := history[k..];
        assert rest[0] == history[k] && rest[1..] == history[k + 1..];
        if history[k].a.end > limit { kept := kept + [history[k]]; }
      }
      history := kept;
    }

    /** The earliest endings go until the history fits. */
    method EvictHistory(start: int) returns (limit: int)
      modifies this`history
      ensures (history, limit) == Evict(old(history), start, cfg.maxHistory)
    {
      limit := start;
      while |history| > cfg.maxHistory
        invariant Evict(history, limit, cfg.maxHistory) == Evict(old(history), start, cfg.maxHistory)
        decreases |history|
      {
        var i := FindOldest();
        limit := Max(limit, history[i].a.end);
        history := Without(history, i);
      }
    }

    method FindOldest() returns (i: nat)
      requires history != []
      ensures i == Oldest(history)
    {
      i := 0;
      for k := 1 to |history|
        invariant i < k
        invariant forall j :: 0 <= j < k ==> history[i].a.end <= history[j].a.end
        invariant forall j :: 0 <= j < i ==> history[i].a.end < history[j].a.end
      {
        if history[k].a.end < history[i].a.end { i := k; }
      }
    }

    method ExpireCaptions()
      modifies this`captions
      ensures captions == From(old(captions), floor)
    {
      var kept: seq<Ref> := [];
      for k := 0 to |captions|
        invariant captions == old(captions)
        invariant kept + From(captions[k..], floor) == From(captions, floor)
      {
        ghost var rest := captions[k..];
        assert rest[0] == captions[k] && rest[1..] == captions[k + 1..];
        if captions[k].start >= floor { kept := kept + [captions[k]]; }
      }
      captions := kept;
    }

    // -------- Patching

    method Patch(references: seq<Ref>)
      requires Intervals(references) && forall e :: e in history ==> e.a.start < e.a.end
      modifies this`captions, store
      ensures Everything() == Patched(cfg, old(Everything()), references)
    {
      hide Rechecked;
      for k := 0 to |references|
        invariant history == old(history)
        invariant Intervals(references[k..])
        invariant Patched(cfg, Everything(), references[k..]) == Patched(cfg, old(Everything()), references)
      {
        ghost var rest := references[k..];
        assert rest[0] == references[k] && rest[1..] == references[k + 1..] && rest[0] in rest;
        Recheck(references[k]);
      }
    }

    method Recheck(c: Ref)
      requires c.start < c.end && forall e :: e in history ==> e.a.start < e.a.end
      modifies this`captions, store
      ensures Everything() == Rechecked(cfg, old(Everything()), c)
    {
      if !Matches(store.segments, c) {
        captions := Drop(captions, c.id);
        return;
      }
      var segment := store.segments[c.id];
      if segment.manual { return; }
      var decision := Decision(c);
      if segment.speaker == decision.speaker { return; }
      var accepted := store.UpdateSpeaker(c.id, decision.speaker, segment.speakerRevision + 1, Some(c.revision), false);
    }

    method Decision(c: Ref) returns (d: SpeakerDecision.Decision)
      requires c.start < c.end && forall e :: e in history ==> e.a.start < e.a.end
      ensures d == DecisionFor(cfg, history, confirmed, c)
    {
      var spans := Clips(c);
      d := Decide(cfg.policy, spans, c.start, c.end);
    }

    /** The caption's share of every piece of evidence, in order. */
    method Clips(c: Ref) returns (spans: seq<Span>)
      requires c.start < c.end
      ensures Spread(spans) == Relevant(history, confirmed, c)
      ensures forall s :: s in spans ==> c.start <= s.start < s.end <= c.end
    {
      spans := [];
      for k := 0 to |history|
        invariant forall s :: s in spans ==> s in Relevant(history, confirmed, c)
        invariant forall j :: 0 <= j < k && Hears(c, history[j]) ==> Clipped(history[j], confirmed, c) in spans
        invariant forall s :: s in spans ==> c.start <= s.start < s.end <= c.end
      {
        var e := history[k];
        assert e in history;
        if e.a.track == c.track && e.epoch == c.epoch {
          var start, end := Max(e.a.start, c.start), Min(e.a.end, c.end);
          if start < end { spans := spans + [Span(VoiceOf(e, confirmed), start, end)]; }
        }
      }
    }

    // -------- Steps

    method RegisterCaption(c: Ref) returns (refused: Option<Error>)
      requires Usable() && c.start < c.end
      modifies this, store
      ensures match Registered(cfg, old(Everything()), c)
              case Ok(t) => Everything() == t && refused.None?
              case Err(e) => Everything() == old(Everything()) && refused == Some(e)
    {
      if !Matches(store.segments, c) { return Some(NotCurrent); }
      var i := SpeakerCaptions.Find(captions, c.id);
      if i < |captions| && captions[i].epoch != c.epoch { return Some(EpochMoved); }
      watermark := Max(watermark, c.end);
      ghost var r := State();
      Prune();
      LiveHolds(r.history, Max(Max(r.floor, r.watermark - cfg.historyNs), 0));
      if c.start >= floor {
        Place(c);
        Patch([c]);
      }
      return None;
    }

    method Place(c: Ref)
      modifies this`captions
      ensures captions == Placed(old(captions), c, cfg.maxCaptions)
    {
      var i := SpeakerCaptions.Find(captions, c.id);
      if i < |captions| {
        captions := captions[i := c];
      } else {
        if |captions| >= cfg.maxCaptions && captions != [] {
          captions := Without(captions, FirstEnding(captions));
        }
        captions := captions + [c];
      }
    }

    method Observe(e: Evidence) returns (refused: Option<Error>)
      requires Usable()
      modifies this, store
      ensures match Observed(cfg, old(Everything()), e)
              case Ok(t) => Everything() == t && refused.None?
              case Err(x) => Everything() == old(Everything()) && refused == Some(x)
    {
      if !WellFormed(e.a) { return Some(InvalidAssignment); }
      if e.a.reason in {"duplicate_sample", "out_of_order"} { return None; }
      var i := SpeakerCaptions.Seek(history, KeyOf(e));
      if i < |history| {
        return if history[i].a != e.a then Some(SampleReused) else None;
      }
      if e.a.end <= floor { return None; }
      if e.a.status == New && CandidateKey(e) in confirmed && confirmed[CandidateKey(e)] != e.a.speaker.value {
        return Some(CandidateConflict);
      }
      watermark := Max(watermark, e.a.end);
      history := history + [e];
      if e.a.status == New { confirmed := confirmed[CandidateKey(e) := e.a.speaker.value]; }
      assert State() == Added(old(State()), e);
      Prune();
      AddedProper(cfg, old(State()), e);
      var references := SelectTouched(history, e, captions);
      TouchedHolds(history, e, captions);
      Patch(references);
      return None;
    }

    method Expire(now: int) returns (refused: Option<Error>)
      modifies this
      ensures match Expired(cfg, old(Everything()), now)
              case Ok(t) => Everything() == t && refused.None?
              case Err(e) => Everything() == old(Everything()) && refused == Some(e)
    {
      if now < watermark { return Some(ClockMovedBack); }
      watermark := now;
      Prune();
      return None;
    }
  }

  lemma {:induction false} AddedProper(cfg: Config, r: Reducer, e: Evidence)
    requires Intervals(r.captions) && (forall x :: x in r.history ==> x.a.start < x.a.end) && e.a.start < e.a.end
    ensures var p := Pruned(cfg, Added(r, e));
      Intervals(p.captions) && forall x :: x in p.history ==> x.a.start < x.a.end
  {
    hide Pruned;
    PrunedProper(cfg, Added(r, e));
  }

  lemma {:induction false} PrunedProper(cfg: Config, r: Reducer)
    requires Intervals(r.captions) && (forall x :: x in r.history ==> x.a.start < x.a.end)
    ensures var p := Pruned(cfg, r);
      Intervals(p.captions) && forall x :: x in p.history ==> x.a.start < x.a.end
  {
    PrunedCaptions(cfg, r);
    LiveHolds(r.history, Max(Max(r.floor, r.watermark - cfg.historyNs), 0));
    hide Live, From, Candidates, Evict;
  }
}
