/** Deciding who speaks a caption (`_decision` in speaker_captions.py): the time measure it
    means, and the sweep over interval boundaries that computes it. */
module SpeakerDecision {
  import opened Wrappers
  import opened Common

  /** An interval of one voice; None is unknown or several voices. */
  datatype Span = Span(voice: Option<string>, start: int, end: int)

  datatype Policy = Policy(minCoverage: real, maxUnknown: real)
  {
    /** What the reducer's configuration demands. */
    predicate Valid() {
      0.5 < minCoverage <= 1.0 && 0.0 <= maxUnknown <= 1.0
    }
  }

  datatype Reason = MultipleSpeakers | UnknownOrOverlap | InsufficientCoverage | Dominant

  datatype Decision = Decision(speaker: Option<string>, reason: Reason, coverage: real, unknown: real)

  // -------- What is heard at one instant

  datatype Moment = Silent | Clear(voice: string) | Muddled

  predicate Covers(s: Span, t: int) {
    s.start <= t < s.end
  }

  function LabelsAt(spans: set<Span>, t: int): set<Option<string>> {
    set s | s in spans && Covers(s, t) :: s.voice
  }

  /** Unknown evidence, or two labels at once, is muddled. */
  ghost function Heard(labels: set<Option<string>>): Moment {
    if labels == {} then Silent
    else if exists l: string :: labels == {Some(l)} then
      var l: string :| labels == {Some(l)}; Clear(l)
    else Muddled
  }

  ghost function MomentAt(spans: set<Span>, t: int): Moment {
    Heard(LabelsAt(spans, t))
  }

  /** Instants in `[lo, hi)` at which this is heard. */
  ghost function Time(spans: set<Span>, m: Moment, lo: int, hi: int): (n: nat)
    ensures hi <= lo ==> n == 0
    decreases hi - lo
  {
    if hi <= lo then 0
    else Time(spans, m, lo, hi - 1) + if MomentAt(spans, hi - 1) == m then 1 else 0
  }

  function Known(spans: set<Span>): set<string> {
    set s | s in spans && s.voice.Some? :: s.voice.value
  }

  function Fraction(n: nat, duration: int): real
    requires duration > 0
  {
    n as real / duration as real
  }

  /** The decision as a measure: a caption is named only after its one known speaker, if
      that speaker is alone for long enough and little enough is muddled. */
  ghost function Decided(p: Policy, spans: set<Span>, start: int, end: int): Decision
    requires start < end
  {
    var known := Known(spans);
    var unknown := Fraction(Time(spans, Muddled, start, end), end - start);
    var coverage := Fraction(Best(spans, start, end), end - start);
    if |known| > 1 then Decision(None, MultipleSpeakers, coverage, unknown)
    else if unknown > p.maxUnknown then Decision(None, UnknownOrOverlap, coverage, unknown)
    else if Best(spans, start, end) == 0 || coverage < p.minCoverage then
      Decision(None, InsufficientCoverage, coverage, unknown)
    else
      BestIsKnown(spans, start, end);
      var l :| l in known;
      Decision(Some(l), Dominant, coverage, unknown)
  }

  /** The longest time any one voice is heard alone. */
  ghost function Best(spans: set<Span>, start: int, end: int): nat {
    BestOf(spans, Known(spans), start, end)
  }

  ghost function BestOf(spans: set<Span>, labels: set<string>, start: int, end: int): (n: nat)
    ensures forall l :: l in labels ==> Time(spans, Clear(l), start, end) <= n
    ensures n == 0 || exists l :: l in labels && n == Time(spans, Clear(l), start, end)
  {
    if labels == {} then 0
    else
      var l :| l in labels;
      var rest := BestOf(spans, labels - {l}, start, end);
      var mine := Time(spans, Clear(l), start, end);
      assert forall k :: k in labels ==> k == l || k in labels - {l};
      if mine > rest then mine else rest
  }

  lemma {:induction false} BestIsKnown(spans: set<Span>, start: int, end: int)
    requires Best(spans, start, end) > 0
    ensures Known(spans) != {}
  {
  }

  // -------- Facts about moments and times

  lemma {:induction false} HeardClear(labels: set<Option<string>>, l: string)
    requires labels == {Some(l)}
    ensures Heard(labels) == Clear(l)
  {
    var m :| Heard(labels) == Clear(m) && labels == {Some(m)};
    assert Some(l) in labels && Some(m) in labels;
  }

  lemma {:induction false} TimeConstant(spans: set<Span>, m: Moment, lo: int, mid: int, hi: int)
    requires lo <= mid <= hi
    requires forall t :: mid <= t < hi ==> MomentAt(spans, t) == MomentAt(spans, mid)
    ensures Time(spans, m, lo, hi)
         == Time(spans, m, lo, mid) + if mid < hi && MomentAt(spans, mid) == m then hi - mid else 0
    decreases hi - mid
  {
    if mid < hi {
      TimeConstant(spans, m, lo, mid, hi - 1);
    }
  }

  lemma {:induction false} ClearIsKnown(spans: set<Span>, t: int)
    ensures MomentAt(spans, t).Clear? ==> MomentAt(spans, t).voice in Known(spans)
  {
    if MomentAt(spans, t).Clear? {
      assert Some(MomentAt(spans, t).voice) in LabelsAt(spans, t);
    }
  }

  lemma {:induction false} UnknownLabelNeverHeard(spans: set<Span>, l: string, lo: int, hi: int)
    requires l !in Known(spans)
    ensures Time(spans, Clear(l), lo, hi) == 0
    decreases hi - lo
  {
    if lo < hi {
      UnknownLabelNeverHeard(spans, l, lo, hi - 1);
      ClearIsKnown(spans, hi - 1);
    }
  }

  lemma {:induction false} SameTimes(a: set<Span>, b: set<Span>, m: Moment, lo: int, hi: int)
    requires forall t :: lo <= t < hi ==> LabelsAt(a, t) == LabelsAt(b, t)
    ensures Time(a, m, lo, hi) == Time(b, m, lo, hi)
    decreases hi - lo
  {
    if lo < hi { SameTimes(a, b, m, lo, hi - 1); }
  }

  lemma {:induction false} SameBest(a: set<Span>, b: set<Span>, start: int, end: int)
    requires Known(a) == Known(b)
    requires forall t :: start <= t < end ==> LabelsAt(a, t) == LabelsAt(b, t)
    ensures Best(a, start, end) == Best(b, start, end)
  {
    forall l
      ensures Time(a, Clear(l), start, end) == Time(b, Clear(l), start, end)
    {
      SameTimes(a, b, Clear(l), start, end);
    }
  }

  /** Evidence wholly covered, instant by instant, by evidence of the same voice changes
      nothing: repeated windows are a union of time, never extra votes. */
  lemma {:induction false} CoveredChangesNothing(p: Policy, spans: set<Span>, s: Span, start: int, end: int)
    requires start < end && s.start < s.end
    requires forall t :: Covers(s, t) ==> s.voice in LabelsAt(spans, t)
    ensures Decided(p, spans + {s}, start, end) == Decided(p, spans, start, end)
  {
    var more := spans + {s};
    forall t
      ensures LabelsAt(more, t) == LabelsAt(spans, t)
    {
    }
    assert s.voice in LabelsAt(spans, s.start) by { assert Covers(s, s.start); }
    assert Known(more) == Known(spans) by {
      if s.voice.Some? {
        var r :| r in spans && Covers(r, s.start) && r.voice == s.voice;
        assert r.voice.value in Known(spans);
      }
    }
    SameTimes(more, spans, Muddled, start, end);
    SameBest(more, spans, start, end);
  }

  /** A caption is named after a voice if and only if no other voice is known in it, little
      enough of it is muddled, and the voice is alone for some time and for long enough. */
  lemma {:induction false} NamedIff(p: Policy, spans: set<Span>, start: int, end: int, l: string)
    requires start < end
    ensures var alone, muddled := Time(spans, Clear(l), start, end), Time(spans, Muddled, start, end);
      Decided(p, spans, start, end).speaker == Some(l)
      <==> Known(spans) == {l} && Fraction(muddled, end - start) <= p.maxUnknown
           && alone > 0 && Fraction(alone, end - start) >= p.minCoverage
  {
    var known, best := Known(spans), Best(spans, start, end);
    if |known| <= 1 && l in known {
      forall k | k in known
        ensures k == l
      {
        OnlyOne(known, k, l);
      }
      assert known == {l};
    }
    if known == {l} {
      assert best == Time(spans, Clear(l), start, end);
    }
    if best > 0 { BestIsKnown(spans, start, end); }
    hide Time, BestOf, Fraction;
  }

  /** How many instants are covered at all. */
  ghost function Covered(spans: set<Span>, lo: int, hi: int): (n: nat)
    decreases hi - lo
  {
    if hi <= lo then 0
    else Covered(spans, lo, hi - 1) + if exists s :: s in spans && Covers(s, hi - 1) then 1 else 0
  }

  /** Evidence of a single voice is never muddled, and that voice is alone wherever
      anything is heard. */
  lemma {:induction false} OneVoice(spans: set<Span>, l: string, lo: int, hi: int)
    requires forall s :: s in spans ==> s.voice == Some(l)
    ensures Time(spans, Muddled, lo, hi) == 0 && Time(spans, Clear(l), lo, hi) == Covered(spans, lo, hi)
    decreases hi - lo
  {
    if lo < hi {
      OneVoice(spans, l, lo, hi - 1);
      var labels := LabelsAt(spans, hi - 1);
      if s :| s in spans && Covers(s, hi - 1) {
        assert s.voice in labels;
        assert labels == {Some(l)};
        HeardClear(labels, l);
      } else {
        assert labels == {};
      }
    }
  }

  // -------- The sweep

  datatype Change = Change(time: int, voice: Option<string>, delta: int)

  function Spread(spans: seq<Span>): set<Span> {
    set s | s in spans
  }

  function ChangesOf(spans: seq<Span>): seq<Change> {
    if spans == [] then []
    else [Change(spans[0].start, spans[0].voice, 1), Change(spans[0].end, spans[0].voice, -1)] + ChangesOf(spans[1..])
  }

  /** The effect on one label of every change up to `t`. */
  function Net(changes: seq<Change>, voice: Option<string>, t: int): int {
    if changes == [] then 0
    else
      Net(changes[1..], voice, t)
      + if changes[0].voice == voice && changes[0].time <= t then changes[0].delta else 0
  }

  /** The effect on one label of every change exactly at `t`. */
  function NetAt(changes: seq<Change>, voice: Option<string>, t: int): int {
    if changes == [] then 0
    else
      NetAt(changes[1..], voice, t)
      + if changes[0].voice == voice && changes[0].time == t then changes[0].delta else 0
  }

  /** How many spans of the label are open at `t`. */
  function Load(spans: seq<Span>, voice: Option<string>, t: int): nat {
    if spans == [] then 0
    else (if spans[0].voice == voice && Covers(spans[0], t) then 1 else 0) + Load(spans[1..], voice, t)
  }

  lemma {:induction false} NetIsLoad(spans: seq<Span>, voice: Option<string>, t: int)
    requires forall s :: s in spans ==> s.start < s.end
    ensures Net(ChangesOf(spans), voice, t) == Load(spans, voice, t)
  {
    if spans != [] {
      NetIsLoad(spans[1..], voice, t);
      var c := ChangesOf(spans);
      assert c[1..][1..] == ChangesOf(spans[1..]);
    }
  }

  lemma {:induction false} LoadMeans(spans: seq<Span>, voice: Option<string>, t: int)
    ensures Load(spans, voice, t) > 0 <==> voice in LabelsAt(Spread(spans), t)
  {
    if spans != [] {
      LoadMeans(spans[1..], voice, t);
      if voice in LabelsAt(Spread(spans), t) {
        var s :| s in spans && s.voice == voice && Covers(s, t);
        assert s == spans[0] || s in Spread(spans[1..]);
      }
      if voice in LabelsAt(Spread(spans[1..]), t) {
        var s :| s in spans[1..] && s.voice == voice && Covers(s, t);
        assert s in Spread(spans);
      } else if Load(spans, voice, t) > 0 {
        assert spans[0] in Spread(spans);
      }
    }
  }

  /** No change falls strictly between: what is up to `a` is up to `b`, but for `b` itself. */
  lemma {:induction false} NetStep(changes: seq<Change>, voice: Option<string>, a: int, b: int)
    requires a < b && forall c :: c in changes ==> c.time <= a || b <= c.time
    ensures Net(changes, voice, b) == Net(changes, voice, a) + NetAt(changes, voice, b)
  {
    if changes != [] { NetStep(changes[1..], voice, a, b); }
  }

  lemma {:induction false} NetAtSplit(changes: seq<Change>, k: nat, voice: Option<string>, t: int)
    requires k < |changes|
    ensures NetAt(changes[..k + 1], voice, t)
         == NetAt(changes[..k], voice, t) + if changes[k].voice == voice && changes[k].time == t
             then changes[k].delta else 0
  {
    if k > 0 {
      NetAtSplit(changes[1..], k - 1, voice, t);
      assert changes[..k + 1][1..] == changes[1..][..k];
      assert changes[..k][1..] == changes[1..][..k - 1];
    } else {
      assert changes[..1][1..] == [];
    }
  }

  lemma {:induction false} ChangesAre(spans: seq<Span>, c: Change)
    requires c in ChangesOf(spans)
    ensures exists s :: s in spans && (c.time == s.start || c.time == s.end)
  {
    var d := ChangesOf(spans);
    if c == d[0] || c == d[1] {
      assert spans[0] in spans;
    } else {
      assert c in d[2..] && d[2..] == ChangesOf(spans[1..]);
      ChangesAre(spans[1..], c);
    }
  }

  /** Sorted distinct times of the changes. */
  ghost predicate Boundaries(times: seq<int>, changes: seq<Change>) {
    && Rising(times)
    && (forall c :: c in changes ==> c.time in times)
    && (forall t :: t in times ==> exists c :: c in changes && c.time == t)
  }

  method Sorted(changes: seq<Change>) returns (times: seq<int>)
    ensures Boundaries(times, changes)
  {
    times := [];
    for k := 0 to |changes|
      invariant Rising(times)
      invariant forall j :: 0 <= j < k ==> changes[j].time in times
      invariant forall t :: t in times ==> exists c :: c in changes && c.time == t
    {
      times := Insert(times, changes[k].time);
      assert changes[k] in changes;
    }
  }

  function CountIn(active: map<Option<string>, int>, voice: Option<string>): int {
    if voice in active then active[voice] else 0
  }

  /** The counters hold exactly the open spans, without zero entries. */
  ghost predicate Tracks(active: map<Option<string>, int>, spans: seq<Span>, t: int) {
    && (forall v :: v in active ==> active[v] != 0)
    && (forall v :: CountIn(active, v) == Load(spans, v, t))
  }

  lemma {:induction false} TracksLabels(active: map<Option<string>, int>, spans: seq<Span>, t: int)
    requires Tracks(active, spans, t)
    ensures active.Keys == LabelsAt(Spread(spans), t)
    ensures forall v :: v in active ==> active[v] > 0
  {
    forall v
      ensures v in active <==> v in LabelsAt(Spread(spans), t)
      ensures v in active ==> active[v] > 0
    {
      LoadMeans(spans, v, t);
      assert CountIn(active, v) == Load(spans, v, t);
    }
  }

  /** Applies the changes at one boundary, in their order. */
  method ApplyAt(before: map<Option<string>, int>, changes: seq<Change>, b: int)
      returns (active: map<Option<string>, int>)
    requires forall v :: v in before ==> before[v] != 0
    ensures forall v :: v in active ==> active[v] != 0
    ensures forall v :: CountIn(active, v) == CountIn(before, v) + NetAt(changes, v, b)
  {
    active := before;
    for k := 0 to |changes|
      invariant forall v :: v in active ==> active[v] != 0
      invariant forall v :: CountIn(active, v) == CountIn(before, v) + NetAt(changes[..k], v, b)
    {
      ghost var was := active;
      var c := changes[k];
      if c.time == b {
        var n := CountIn(active, c.voice) + c.delta;
        active := if n == 0 then active - {c.voice} else active[c.voice := n];
      }
      forall v
        ensures CountIn(active, v) == CountIn(before, v) + NetAt(changes[..k + 1], v, b)
      {
        NetAtSplit(changes, k, v, b);
        assert CountIn(was, v) == CountIn(before, v) + NetAt(changes[..k], v, b);
      }
    }
    assert changes[..|changes|] == changes;
  }

  /** Time heard so far: every label's alone, and what is muddled. */
  ghost predicate Tallied(support: map<string, nat>, muddled: nat, spans: set<Span>, lo: int, hi: int) {
    && muddled == Time(spans, Muddled, lo, hi)
    && (forall l :: l in support ==> support[l] > 0 && support[l] == Time(spans, Clear(l), lo, hi))
    && (forall l :: l !in support ==> Time(spans, Clear(l), lo, hi) == 0)
  }

  /** Adds one stretch over which the same labels are heard. */
  method Tally(active: map<Option<string>, int>, support: map<string, nat>, muddled: nat, ghost spans: set<Span>,
               ghost lo: int, mid: int, hi: int) returns (support': map<string, nat>, muddled': nat)
    requires lo <= mid <= hi && Tallied(support, muddled, spans, lo, mid)
    requires forall v :: v in active ==> active[v] > 0
    requires forall t :: mid <= t < hi ==> LabelsAt(spans, t) == active.Keys
    ensures Tallied(support', muddled', spans, lo, hi)
  {
    hide Heard, Time, LabelsAt;
    support', muddled' := support, muddled;
    var elapsed: nat := hi - mid;
    forall m
      ensures Time(spans, m, lo, hi)
           == Time(spans, m, lo, mid) + if elapsed > 0 && Heard(active.Keys) == m then elapsed else 0
    {
      assert mid < hi ==> LabelsAt(spans, mid) == active.Keys;
      TimeConstant(spans, m, lo, mid, hi);
    }
    if elapsed == 0 { return; }
    var speakers := set v | v in active && v.Some? && active[v] > 0;
    if None in active && active[None] > 0 {
      NoneIsMuddled(active.Keys);
      muddled' := muddled + elapsed;
    } else if |speakers| == 1 {
      var v :| v in speakers;
      OneIsClear(active.Keys, speakers, v);
      var sofar := if v.value in support then support[v.value] else 0;
      support' := support[v.value := sofar + elapsed];
    } else if |speakers| > 1 {
      ManyAreMuddled(active.Keys, speakers);
      muddled' := muddled + elapsed;
    } else {
      NobodyIsSilent(active.Keys, speakers);
    }
  }

  lemma {:induction false} NobodyIsSilent(labels: set<Option<string>>, speakers: set<Option<string>>)
    requires None !in labels && speakers == labels && |speakers| == 0
    ensures Heard(labels) == Silent
  {
    assert labels == {};
  }

  lemma {:induction false} NoneIsMuddled(labels: set<Option<string>>)
    requires None in labels
    ensures Heard(labels) == Muddled
  {
  }

  lemma {:induction false} OneIsClear(labels: set<Option<string>>, speakers: set<Option<string>>, v: Option<string>)
    requires None !in labels && speakers == labels && |speakers| == 1 && v in speakers
    ensures v.Some? && Heard(labels) == Clear(v.value)
  {
    assert labels == {v} by {
      assert |labels - {v}| == 0;
    }
    HeardClear(labels, v.value);
  }

  lemma {:induction false} ManyAreMuddled(labels: set<Option<string>>, speakers: set<Option<string>>)
    requires None !in labels && speakers == labels && |speakers| > 1
    ensures Heard(labels) == Muddled
  {
    forall l: string
      ensures labels != {Some(l)}
    {
    }
  }

  lemma {:induction false} NothingOpen(spans: seq<Span>, t: int)
    requires forall s :: s in spans ==> t < s.start
    ensures forall v :: Load(spans, v, t) == 0
  {
    forall v
      ensures Load(spans, v, t) == 0
    {
      LoadMeans(spans, v, t);
    }
  }

  /** Where the sweep stands after `i` boundaries. */
  ghost function Reached(times: seq<int>, i: nat, start: int): int
    requires i <= |times|
  {
    if i == 0 then start - 1 else times[i - 1]
  }

  /** Between two boundaries the same labels are heard as just after the first. */
  lemma {:induction false} Between(spans: seq<Span>, times: seq<int>, i: nat, start: int, t: int)
    requires Boundaries(times, ChangesOf(spans)) && i <= |times|
    requires forall s :: s in spans ==> start <= s.start < s.end
    requires Reached(times, i, start) < t && (i < |times| ==> t < times[i])
    ensures LabelsAt(Spread(spans), t) == LabelsAt(Spread(spans), Reached(times, i, start))
  {
    var b := Reached(times, i, start);
    forall s | s in spans
      ensures Covers(s, t) <==> Covers(s, b)
    {
      EndsAreBoundaries(spans, s);
      OutsideGap(times, i, start, s.start, t);
      OutsideGap(times, i, start, s.end, t);
    }
  }

  lemma {:induction false} EndsAreBoundaries(spans: seq<Span>, s: Span)
    requires s in spans
    ensures exists c :: c in ChangesOf(spans) && c.time == s.start
    ensures exists c :: c in ChangesOf(spans) && c.time == s.end
  {
    var d := ChangesOf(spans);
    if s == spans[0] {
      assert d[0] in d && d[1] in d;
    } else {
      EndsAreBoundaries(spans[1..], s);
      assert d[2..] == ChangesOf(spans[1..]);
      assert forall c :: c in d[2..] ==> c in d;
    }
  }

  lemma {:induction false} OutsideGap(times: seq<int>, i: nat, start: int, x: int, t: int)
    requires Rising(times) && i <= |times| && x in times && start <= x
    requires Reached(times, i, start) < t && (i < |times| ==> t < times[i])
    ensures x <= t <==> x <= Reached(times, i, start)
  {
    var j :| 0 <= j < |times| && times[j] == x;
  }

  /** The sweep over boundaries measures exactly the time each thing is heard. */
  method Sweep(spans: seq<Span>, start: int, end: int) returns (support: map<string, nat>, muddled: nat)
    requires start <= end && forall s :: s in spans ==> start <= s.start < s.end <= end
    ensures Tallied(support, muddled, Spread(spans), start, end)
  {
    var changes := ChangesOf(spans);
    var times := Sorted(changes);
    var active: map<Option<string>, int> := map[];
    support, muddled := map[], 0;
    var previous := start;
    NothingOpen(spans, start - 1);
    for i := 0 to |times|
      invariant previous == if i == 0 then start else times[i - 1]
      invariant start <= previous <= end
      invariant Tracks(active, spans, Reached(times, i, start))
      invariant Tallied(support, muddled, Spread(spans), start, previous)
    {
      var b := times[i];
      BoundaryInside(spans, times, i, start, end);
      TracksLabels(active, spans, Reached(times, i, start));
      forall t | previous <= t < b
        ensures LabelsAt(Spread(spans), t) == active.Keys
      {
        if Reached(times, i, start) < t { Between(spans, times, i, start, t); }
      }
      support, muddled := Tally(active, support, muddled, Spread(spans), start, previous, b);
      active := NextActive(active, spans, times, i, start);
      previous := b;
    }
    TracksLabels(active, spans, Reached(times, |times|, start));
    AllOver(spans, times, start);
    forall t | previous <= t < end
      ensures LabelsAt(Spread(spans), t) == active.Keys
    {
      if Reached(times, |times|, start) < t { Between(spans, times, |times|, start, t); }
    }
    support, muddled := Tally(active, support, muddled, Spread(spans), start, previous, end);
  }

  lemma {:induction false} BoundaryInside(spans: seq<Span>, times: seq<int>, i: nat, start: int, end: int)
    requires Boundaries(times, ChangesOf(spans)) && i < |times|
    requires forall s :: s in spans ==> start <= s.start < s.end <= end
    ensures start <= times[i] <= end && (i > 0 ==> times[i - 1] < times[i])
  {
    assert times[i] in times;
    var c :| c in ChangesOf(spans) && c.time == times[i];
    ChangesAre(spans, c);
  }

  /** After the last boundary nothing is heard. */
  lemma {:induction false} AllOver(spans: seq<Span>, times: seq<int>, start: int)
    requires Boundaries(times, ChangesOf(spans))
    requires forall s :: s in spans ==> start <= s.start < s.end
    ensures LabelsAt(Spread(spans), Reached(times, |times|, start)) == {}
  {
    forall s | s in spans
      ensures !Covers(s, Reached(times, |times|, start))
    {
      EndsAreBoundaries(spans, s);
      var j :| 0 <= j < |times| && times[j] == s.end;
    }
  }

  method NextActive(before: map<Option<string>, int>, spans: seq<Span>, times: seq<int>, i: nat, ghost start: int)
      returns (active: map<Option<string>, int>)
    requires Boundaries(times, ChangesOf(spans)) && i < |times|
    requires forall s :: s in spans ==> start <= s.start < s.end
    requires Tracks(before, spans, Reached(times, i, start))
    ensures Tracks(active, spans, times[i])
  {
    var changes := ChangesOf(spans);
    active := ApplyAt(before, changes, times[i]);
    forall c | c in changes
      ensures c.time <= Reached(times, i, start) || times[i] <= c.time
    {
      var j :| 0 <= j < |times| && times[j] == c.time;
    }
    BoundaryAfter(spans, times, i, start);
    forall v
      ensures CountIn(active, v) == Load(spans, v, times[i])
    {
      NetIsLoad(spans, v, times[i]);
      NetIsLoad(spans, v, Reached(times, i, start));
      NetStep(changes, v, Reached(times, i, start), times[i]);
      assert CountIn(before, v) == Load(spans, v, Reached(times, i, start));
    }
  }

  lemma {:induction false} BoundaryAfter(spans: seq<Span>, times: seq<int>, i: nat, start: int)
    requires Boundaries(times, ChangesOf(spans)) && i < |times|
    requires forall s :: s in spans ==> start <= s.start < s.end
    ensures Reached(times, i, start) < times[i]
  {
    assert times[i] in times;
    var c :| c in ChangesOf(spans) && c.time == times[i];
    ChangesAre(spans, c);
  }

  // -------- The decision

  method Longest(support: map<string, nat>) returns (n: nat)
    ensures forall l :: l in support ==> support[l] <= n
    ensures n == 0 || exists l :: l in support && support[l] == n
  {
    n := 0;
    var left := support.Keys;
    while left != {}
      invariant left <= support.Keys
      invariant forall l :: l in support && l !in left ==> support[l] <= n
      invariant n == 0 || exists l :: l in support && support[l] == n
      decreases |left|
    {
      var l :| l in left;
      if support[l] > n { n := support[l]; }
      left := left - {l};
    }
  }

  lemma {:induction false} LongestIsBest(support: map<string, nat>, muddled: nat, n: nat, spans: set<Span>,
                                         start: int, end: int)
    requires Tallied(support, muddled, spans, start, end)
    requires forall l :: l in support ==> support[l] <= n
    requires n == 0 || exists l :: l in support && support[l] == n
    ensures n == Best(spans, start, end)
  {
    var best := Best(spans, start, end);
    if n > 0 {
      var l :| l in support && support[l] == n;
      if l !in Known(spans) { UnknownLabelNeverHeard(spans, l, start, end); }
      assert Time(spans, Clear(l), start, end) <= best;
    }
    if best > 0 {
      var l :| l in Known(spans) && best == Time(spans, Clear(l), start, end);
      assert l in support;
    }
  }

  lemma {:induction false} OnlyOne(known: set<string>, a: string, b: string)
    requires |known| <= 1 && a in known && b in known
    ensures a == b
  {
    assert |known - {a}| == 0;
    assert b == a || b in known - {a};
  }

  /** The code's decision, by one sweep, is the decision by measure. */
  method Decide(p: Policy, spans: seq<Span>, start: int, end: int) returns (d: Decision)
    requires start < end && forall s :: s in spans ==> start <= s.start < s.end <= end
    ensures d == Decided(p, Spread(spans), start, end)
  {
    var known := set s | s in spans && s.voice.Some? :: s.voice.value;
    assert known == Known(Spread(spans));
    var support, muddled := Sweep(spans, start, end);
    var longest := Longest(support);
    LongestIsBest(support, muddled, longest, Spread(spans), start, end);
    var coverage, unknown := Fraction(longest, end - start), Fraction(muddled, end - start);
    if |known| > 1 { return Decision(None, MultipleSpeakers, coverage, unknown); }
    if unknown > p.maxUnknown { return Decision(None, UnknownOrOverlap, coverage, unknown); }
    if support == map[] || coverage < p.minCoverage {
      if support == map[] { assert longest == 0; }
      return Decision(None, InsufficientCoverage, coverage, unknown);
    }
    var l :| l in support;
    if l !in known { UnknownLabelNeverHeard(Spread(spans), l, start, end); }
    BestIsKnown(Spread(spans), start, end);
    ghost var k :| k in Known(Spread(spans))
        && Decided(p, Spread(spans), start, end) == Decision(Some(k), Dominant, coverage, unknown);
    OnlyOne(known, k, l);
    return Decision(Some(l), Dominant, coverage, unknown);
  }
}
