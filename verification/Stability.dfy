/** Bounded stability tracking of one utterance's hypotheses (app/streaming/stability.py). */
module Stability {
  import opened Wrappers
  import opened Common
  import opened Text

  datatype Config = Config(
    windowSize: nat, threshold: real, ageHorizonMs: real, pauseThresholdMs: real, maxSourceChars: nat,
    agreementWeight: real, confidenceWeight: real, ageWeight: real, pauseWeight: real, holdLastToken: bool)
  {
    /** What the constructor demands of its arguments. */
    predicate Valid() {
      && 2 <= windowSize <= 32 && 0.0 <= threshold <= 1.0
      && ageHorizonMs > 0.0 && pauseThresholdMs > 0.0 && maxSourceChars >= 1
      && agreementWeight >= 0.0 && confidenceWeight >= 0.0 && ageWeight >= 0.0 && pauseWeight >= 0.0
      && agreementWeight + confidenceWeight + ageWeight + pauseWeight > 0.0
    }
  }

  /** `report` is for display; nothing in a session depends on it. */
  datatype Verdict = Verdict(
    stableCount: nat, stableEnd: nat, conflict: bool, reconcile: bool, final: bool, report: Report)

  datatype Report = Report(score: real, confidence: Option<real>, ageMs: real)

  datatype Error =
    | SourceTooLong | SequenceNotIncreasing | NothingObserved | NotABoundary | BeyondStable | NeedsFinal

  /** What the hypotheses say: one record per token of the current text. */
  datatype Evidence = Evidence(
    history: seq<seq<string>>, tokens: seq<Token>, seen: seq<real>, text: string, final: bool,
    confidences: seq<Option<real>>, pauseMs: Option<real>, committed: string)

  datatype Tracker = Tracker(e: Evidence, sequence: int, lastTime: Option<real>, verdict: Option<Verdict>)

  const Fresh := Tracker(Evidence([], [], [], "", false, [], None, ""), -1, None, None)

  function Values(ts: seq<Token>): (r: seq<string>)
    ensures |r| == |ts|
    ensures forall i :: 0 <= i < |ts| ==> r[i] == ts[i].text
  {
    seq(|ts|, i requires 0 <= i < |ts| => ts[i].text)
  }

  function Probability(x: Option<real>): Option<real> {
    if x.Some? && 0.0 <= x.value <= 1.0 then x else None
  }

  function Confidences(supplied: Option<seq<Option<real>>>, n: nat): (r: seq<Option<real>>)
    ensures |r| == n
  {
    if supplied.Some? && |supplied.value| == n
    then seq(n, i requires 0 <= i < n => Probability(supplied.value[i]))
    else seq(n, i => None)
  }

  /** A clock moved backwards counts as standing still. */
  function Now(last: Option<real>, clock: real): (r: real)
    ensures last.Some? ==> last.value <= r
  {
    if last.Some? && clock < last.value then last.value else clock
  }

  function Keep(history: seq<seq<string>>, values: seq<string>, window: nat): (r: seq<seq<string>>)
    requires window > 0
    ensures 0 < |r| <= |history| + 1 && r[|r| - 1] == values
    ensures |history| <= window ==> |r| <= window
  {
    if |history| >= window then history[|history| - window + 1..] + [values] else history + [values]
  }

  // -------- Evaluation

  predicate Conflict(e: Evidence) {
    !(e.committed <= e.text)
    || (|e.committed| > 0 && |e.committed| !in (set k | 0 <= k < |e.tokens| :: e.tokens[k].end))
  }

  predicate Held(c: Config, u: Unicode, e: Evidence, available: nat) {
    c.holdLastToken && !e.final && e.tokens != [] && available == |e.tokens|
    && e.tokens[|e.tokens| - 1].end == |e.text|
    && exists ch :: ch in e.tokens[|e.tokens| - 1].text && u.isAlnum(ch)
  }

  ghost function Available(c: Config, u: Unicode, e: Evidence): nat {
    var agreement := if |e.history| == c.windowSize then SharedLength(e.history) else 0;
    var available := if e.final then |e.tokens| else agreement;
    if Held(c, u, e, available) then available - 1 else available
  }

  function Clip(x: real): real {
    if x < 1.0 then x else 1.0
  }

  /** A weight scaled by how much of `full` has been reached. */
  function Part(weight: real, reached: real, full: real): real
    requires full > 0.0
  {
    weight * Clip(reached / full)
  }

  function Times(weight: real, x: real): real {
    weight * x
  }

  function Quotient(weighted: real, weight: real): real {
    if weight != 0.0 then weighted / weight else 0.0
  }

  function Age(now: real, since: real): real {
    if now > since then (now - since) * 1000.0 else 0.0
  }

  /** Weighted evidence and total weight: agreement and age, then confidence and pause if known. */
  function Weights(c: Config, age: real, confidence: Option<real>, pauseMs: Option<real>): (real, real)
    requires c.Valid()
  {
    var w := (c.agreementWeight + Part(c.ageWeight, age, c.ageHorizonMs), c.agreementWeight + c.ageWeight);
    var w1 := if confidence.Some?
              then (w.0 + Times(c.confidenceWeight, confidence.value), w.1 + c.confidenceWeight) else w;
    if pauseMs.Some?
    then (w1.0 + Part(c.pauseWeight, pauseMs.value, c.pauseThresholdMs), w1.1 + c.pauseWeight) else w1
  }

  function Score(c: Config, e: Evidence, now: real, i: nat): real
    requires c.Valid() && i < |e.seen| && i < |e.confidences|
  {
    if e.final then 1.0 else
      var w := Weights(c, Age(now, e.seen[i]), e.confidences[i], e.pauseMs);
      Quotient(w.0, w.1)
  }

  function Scores(c: Config, e: Evidence, now: real, n: nat): (r: seq<real>)
    requires c.Valid() && n <= |e.seen| && n <= |e.confidences|
    ensures |r| == n && forall i :: 0 <= i < n ==> r[i] == Score(c, e, now, i)
  {
    seq(n, i requires 0 <= i < n => Score(c, e, now, i))
  }

  function Lowest(scores: seq<real>): (m: real)
    ensures scores == [] ==> m == 0.0
    ensures scores != [] ==> m in scores && forall i :: 0 <= i < |scores| ==> m <= scores[i]
  {
    if scores == [] then 0.0
    else if |scores| == 1 then scores[0]
    else
      var m := Lowest(scores[1..]);
      if scores[0] < m then scores[0] else m
  }

  function Supplied(confidences: seq<Option<real>>): seq<real> {
    if confidences == [] then []
    else (if confidences[0].Some? then [confidences[0].value] else []) + Supplied(confidences[1..])
  }

  function Sum(q: seq<real>): real {
    if q == [] then 0.0 else q[0] + Sum(q[1..])
  }

  function Mean(q: seq<real>): Option<real> {
    if q == [] then None else Some(Sum(q) / (|q| as real))
  }

  /** The lowest score among the stable tokens, or among all that were judged; the mean
      of the supplied confidences; how long the first token has been there. */
  function Reports(e: Evidence, now: real, scores: seq<real>, stable: nat): Report
    requires |scores| <= |e.confidences|
  {
    var chosen := if stable < |scores| then scores[..stable] else scores;
    Report(Lowest(if chosen != [] then chosen else scores), Mean(Supplied(e.confidences[..|scores|])),
           if e.seen == [] then 0.0 else Age(now, e.seen[0]))
  }

  predicate Passes(c: Config, e: Evidence, now: real, i: nat)
    requires c.Valid() && i < |e.seen| && i < |e.confidences|
  {
    Score(c, e, now, i) + 0.000000000001 >= c.threshold
  }

  /** How many tokens from `i` pass before one fails, up to `limit`. */
  function PassingRun(c: Config, e: Evidence, now: real, i: nat, limit: nat): (n: nat)
    requires c.Valid() && i <= limit <= |e.seen| && limit <= |e.confidences|
    ensures i <= n <= limit
    ensures forall k :: i <= k < n ==> Passes(c, e, now, k)
    ensures n < limit ==> !Passes(c, e, now, n)
    decreases limit - i
  {
    if i < limit && Passes(c, e, now, i) then PassingRun(c, e, now, i + 1, limit) else i
  }

  /** How many tokens end at or before `p`, in any order. */
  function CountUpto(ts: seq<Token>, p: nat): (n: nat)
    ensures n <= |ts|
  {
    if ts == [] then 0
    else CountUpto(ts[..|ts| - 1], p) + if ts[|ts| - 1].end <= p then 1 else 0
  }

  function CharEnd(ts: seq<Token>, count: nat): nat
    requires count <= |ts|
  {
    if count == 0 then 0 else ts[count - 1].end
  }

  ghost predicate Shaped(c: Config, u: Unicode, e: Evidence) {
    && c.Valid()
    && e.tokens == Tokens(u, e.text)
    && |e.seen| == |e.tokens| == |e.confidences|
    && |e.history| <= c.windowSize
    && (e.history == [] ==> e.text == "" && e.committed == "" && !e.final)
    && (e.history != [] ==> e.history[|e.history| - 1] == Values(e.tokens))
  }

  ghost function Evaluated(c: Config, u: Unicode, e: Evidence, now: real): Verdict
    requires c.Valid() && |e.seen| == |e.tokens| == |e.confidences|
  {
    var conflict := Conflict(e);
    // AvailableBounded: the bound changes nothing for the trackers that occur.
    var available := Min(Available(c, u, e), |e.tokens|);
    var passing := PassingRun(c, e, now, 0, available);
    var allowed := if conflict && !e.final then 0 else passing;
    var protected := CountUpto(e.tokens, |e.committed|);
    var stable := if !conflict && protected > allowed then protected else allowed;
    Verdict(stable, CharEnd(e.tokens, stable), conflict, conflict && e.final, e.final,
            Reports(e, now, Scores(c, e, now, available), stable))
  }

  lemma {:induction false} AvailableBounded(c: Config, u: Unicode, e: Evidence)
    requires Shaped(c, u, e)
    ensures Available(c, u, e) <= |e.tokens|
  {
    if |e.history| == c.windowSize {
      SharedFromAgrees(e.history, 0, |e.history| - 1);
    }
  }

  // -------- Steps

  /** The stored verdict is the one the evidence justifies. */
  ghost predicate Judged(c: Config, u: Unicode, t: Tracker) {
    && Shaped(c, u, t.e)
    && -1 <= t.sequence && (t.verdict.None? <==> t.sequence < 0) && (t.sequence < 0 ==> t.e.history == [])
    && (t.verdict.Some? ==> t.lastTime.Some? && t.verdict.value == Evaluated(c, u, t.e, t.lastTime.value))
  }

  ghost function Judge(c: Config, u: Unicode, e: Evidence, sequence: int, now: real): (r: Tracker)
    requires Shaped(c, u, e)
    ensures 0 <= sequence ==> Judged(c, u, r)
  {
    Tracker(e, sequence, Some(now), Some(Evaluated(c, u, e, now)))
  }

  /** When each token of the new hypothesis was first seen, given the old one's record. */
  ghost function SeenAfter(seen: seq<real>, before: seq<string>, after: seq<string>, now: real): (r: seq<real>)
    requires |seen| == |before|
    ensures |r| == |after|
  {
    var retained := SharedLength([before, after]);
    SharedFromAgrees([before, after], 0, 1);
    seen[..retained] + seq(|after| - retained, i => now)
  }

  /** The evidence after a new hypothesis. */
  ghost function Recorded(c: Config, u: Unicode, e: Evidence, text: string, final: bool,
                          supplied: Option<seq<Option<real>>>, pauseMs: Option<real>, now: real): (r: Evidence)
    requires Shaped(c, u, e)
    ensures Shaped(c, u, r)
  {
    var tokens := Tokens(u, text);
    Evidence(Keep(e.history, Values(tokens), c.windowSize), tokens,
             SeenAfter(e.seen, Values(e.tokens), Values(tokens), now),
             text, final, Confidences(supplied, |tokens|),
             if pauseMs.Some? && pauseMs.value >= 0.0 then pauseMs else None, e.committed)
  }

  ghost function Observed(c: Config, u: Unicode, t: Tracker, text: string, sequence: int, final: bool,
                          supplied: Option<seq<Option<real>>>, pauseMs: Option<real>, clock: real)
      : (r: Result<Tracker, Error>)
    requires Judged(c, u, t)
    ensures r.Ok? ==> Judged(c, u, r.value)
  {
    if |text| > c.maxSourceChars then Err(SourceTooLong)
    else if sequence <= t.sequence then Err(SequenceNotIncreasing)
    else
      var now := Now(t.lastTime, clock);
      Ok(Judge(c, u, Recorded(c, u, t.e, text, final, supplied, pauseMs, now), sequence, now))
  }

  ghost function Refreshed(c: Config, u: Unicode, t: Tracker, clock: real): (r: Tracker)
    requires Judged(c, u, t)
    ensures Judged(c, u, r) && r.e == t.e
  {
    if t.sequence < 0 then t else Judge(c, u, t.e, t.sequence, Now(t.lastTime, clock))
  }

  ghost function Committed(c: Config, u: Unicode, t: Tracker, end: int, allowFinal: bool, clock: real)
      : (r: Result<Tracker, Error>)
    requires Judged(c, u, t)
    ensures r.Ok? ==> Judged(c, u, r.value)
    ensures r.Ok? ==> 0 <= end <= |t.e.text| && r.value.e == t.e.(committed := t.e.text[..end])
  {
    if t.verdict.None? then Err(NothingObserved)
    else if !Boundary(u, t.e.text, end) then Err(NotABoundary)
    else if !(0 <= end <= t.verdict.value.stableEnd) then Err(BeyondStable)
    else if (t.verdict.value.conflict || end < |t.e.committed|) && !(allowFinal && t.e.final) then Err(NeedsFinal)
    else
      BoundaryInside(u, t.e.text, end);
      Ok(Judge(c, u, t.e.(committed := t.e.text[..end]), t.sequence, Now(t.lastTime, clock)))
  }

  lemma {:induction false} BoundaryInside(u: Unicode, text: string, p: int)
    requires Boundary(u, text, p)
    ensures 0 <= p <= |text|
  {
    if p != 0 {
      var i :| 0 <= i < |Tokens(u, text)| && Tokens(u, text)[i].end == p;
      TokensExact(u, text, 0, i);
    }
  }

  // -------- What a verdict means

  /** Every one of the last `windowSize` hypotheses starts with these token texts. */
  ghost predicate Unanimous(c: Config, e: Evidence, n: nat) {
    && |e.history| == c.windowSize && n <= |e.tokens|
    && forall k :: 0 <= k < |e.history| ==> Values(e.tokens)[..n] <= e.history[k]
  }

  ghost predicate Protects(u: Unicode, e: Evidence) {
    e.committed <= e.text && Boundary(u, e.text, |e.committed|)
  }

  lemma {:induction false} ConflictIff(c: Config, u: Unicode, e: Evidence)
    requires Shaped(c, u, e)
    ensures Conflict(e) <==> !Protects(u, e)
  {
    var n := |e.committed|;
    if n > 0 && EndsAt(e.tokens, n) {
      var i :| 0 <= i < |e.tokens| && e.tokens[i].end == n;
      assert n in (set k | 0 <= k < |e.tokens| :: e.tokens[k].end);
    }
  }

  lemma {:induction false} CountIsUpto(u: Unicode, ts: seq<Token>, p: nat)
    requires Ordered(ts, 0)
    ensures forall i :: 0 <= i < CountUpto(ts, p) ==> ts[i].end <= p
    ensures forall i :: CountUpto(ts, p) <= i < |ts| ==> p < ts[i].end
  {
    if ts != [] {
      var front, last := ts[..|ts| - 1], ts[|ts| - 1];
      CountIsUpto(u, front, p);
      if last.end <= p && |front| > 0 {
        assert front[|front| - 1].end <= last.start;
        assert CountUpto(front, p) == |front|;
      }
      forall i | 0 <= i < |front|
        ensures ts[i] == front[i]
      {
      }
    }
  }

  lemma {:induction false} LastUpto(ts: seq<Token>, i: nat, n: nat)
    requires Ordered(ts, 0) && i < n <= |ts| && ts[n - 1].end <= ts[i].end
    ensures i == n - 1
  {
  }

  /** The protected count ends exactly at the protected prefix. */
  lemma {:induction false} ProtectedEnd(c: Config, u: Unicode, e: Evidence)
    requires Shaped(c, u, e) && Protects(u, e)
    ensures CharEnd(e.tokens, CountUpto(e.tokens, |e.committed|)) == |e.committed|
  {
    TokensOrdered(u, e.text, 0);
    CountIsUpto(u, e.tokens, |e.committed|);
    if |e.committed| > 0 {
      var i :| 0 <= i < |e.tokens| && e.tokens[i].end == |e.committed|;
      LastUpto(e.tokens, i, CountUpto(e.tokens, |e.committed|));
    }
  }

  lemma {:induction false} CharEndMonotone(u: Unicode, ts: seq<Token>, m: nat, n: nat)
    requires Ordered(ts, 0) && m <= n <= |ts|
    ensures CharEnd(ts, m) <= CharEnd(ts, n)
  {
    if 0 < m < n {
      assert ts[m - 1].end <= ts[n - 1].start;
    }
  }

  lemma {:induction false} AgreementIsUnanimous(c: Config, u: Unicode, e: Evidence)
    requires Shaped(c, u, e) && !e.final && 0 < Available(c, u, e)
    ensures Unanimous(c, e, Available(c, u, e))
  {
    AvailableBounded(c, u, e);
    var last := |e.history| - 1;
    var n := Available(c, u, e);
    forall k | 0 <= k < |e.history|
      ensures Values(e.tokens)[..n] <= e.history[k]
    {
      SharedFromAgrees(e.history, 0, k);
      SharedFromAgrees(e.history, 0, last);
      var m := SharedLength(e.history);
      assert e.history[k][..m] == e.history[last][..m];
      assert e.history[k][..n] == e.history[k][..m][..n];
      assert e.history[last][..n] == e.history[last][..m][..n];
    }
  }

  /** A verdict ends on a token boundary of the current text and covers the protected
      prefix unless that prefix is contradicted. */
  lemma {:induction false} VerdictReach(c: Config, u: Unicode, e: Evidence, now: real)
    requires Shaped(c, u, e)
    ensures var v := Evaluated(c, u, e, now);
      && v.stableCount <= |e.tokens| && v.stableEnd == CharEnd(e.tokens, v.stableCount)
      && Boundary(u, e.text, v.stableEnd)
      && (v.conflict <==> !Protects(u, e))
      && (!v.conflict ==> |e.committed| <= v.stableEnd)
      && (v.conflict && !e.final ==> v.stableEnd == 0)
  {
    ConflictIff(c, u, e);
    var v := Evaluated(c, u, e, now);
    if !v.conflict {
      TokensOrdered(u, e.text, 0);
      ProtectedEnd(c, u, e);
      CharEndMonotone(u, e.tokens, CountUpto(e.tokens, |e.committed|), v.stableCount);
    }
  }

  /** Nothing is called stable without evidence: every stable token outside the
      protected prefix passed the threshold and, unless the text is final, stood in
      all of the last `windowSize` hypotheses. A final settles every token. */
  lemma {:induction false} VerdictEvidence(c: Config, u: Unicode, e: Evidence, now: real)
    requires Shaped(c, u, e)
    ensures var v := Evaluated(c, u, e, now);
      && (e.final ==> v.stableCount == |e.tokens|)
      && (forall i :: 0 <= i < v.stableCount ==>
            (!v.conflict && e.tokens[i].end <= |e.committed|)
            || (Passes(c, e, now, i) && (e.final || Unanimous(c, e, i + 1))))
  {
    AvailableBounded(c, u, e);
    TokensOrdered(u, e.text, 0);
    CountIsUpto(u, e.tokens, |e.committed|);
    if !e.final && 0 < Available(c, u, e) {
      AgreementIsUnanimous(c, u, e);
      UnanimousShorter(c, e, Available(c, u, e));
    }
  }

  lemma {:induction false} UnanimousShorter(c: Config, e: Evidence, n: nat)
    requires Unanimous(c, e, n)
    ensures forall m :: 0 <= m <= n ==> Unanimous(c, e, m)
  {
    forall m, k | 0 <= m <= n && 0 <= k < |e.history|
      ensures Values(e.tokens)[..m] <= e.history[k]
    {
      assert Values(e.tokens)[..m] == Values(e.tokens)[..n][..m];
    }
  }

  /** The last token may still be growing: it reaches the end of the text and has a
      letter or digit in it. */
  ghost predicate Growing(c: Config, u: Unicode, e: Evidence) {
    && c.holdLastToken && e.tokens != []
    && e.tokens[|e.tokens| - 1].end == |e.text|
    && exists ch :: ch in e.tokens[|e.tokens| - 1].text && u.isAlnum(ch)
  }

  /** Before the final a number of tokens is stable if and only if they are already
      protected, or the whole window is unanimous on them, each passes the threshold
      and they are not the whole text with its last token still growing. */
  lemma {:induction false} StableIff(c: Config, u: Unicode, e: Evidence, now: real, n: nat)
    requires Shaped(c, u, e) && !e.final && Protects(u, e) && n <= |e.tokens|
    ensures n <= Evaluated(c, u, e, now).stableCount
      <==> (forall i :: 0 <= i < n ==> e.tokens[i].end <= |e.committed|)
           || (Unanimous(c, e, n) && (forall i :: 0 <= i < n ==> Passes(c, e, now, i))
               && !(n == |e.tokens| && Growing(c, u, e)))
  {
    ConflictIff(c, u, e);
    AvailableBounded(c, u, e);
    TokensOrdered(u, e.text, 0);
    CountIsUpto(u, e.tokens, |e.committed|);
    AvailableIff(c, u, e, n);
    PassingIff(c, e, now, Available(c, u, e), n);
    var protected := CountUpto(e.tokens, |e.committed|);
    if protected < n { assert |e.committed| < e.tokens[protected].end; }
    assert n <= protected <==> forall i :: 0 <= i < n ==> e.tokens[i].end <= |e.committed|;
    hide Available, Unanimous, PassingRun, Passes, Growing, Reports, Scores, CountUpto, Conflict, Ordered;
  }

  lemma {:induction false} AvailableIff(c: Config, u: Unicode, e: Evidence, n: nat)
    requires Shaped(c, u, e) && !e.final && n <= |e.tokens|
    ensures 0 < n ==> (n <= Available(c, u, e) <==> Unanimous(c, e, n) && !(n == |e.tokens| && Growing(c, u, e)))
  {
    AvailableBounded(c, u, e);
    if 0 < n <= Available(c, u, e) {
      AgreementIsUnanimous(c, u, e);
      UnanimousShorter(c, e, Available(c, u, e));
    }
    if Unanimous(c, e, n) {
      UnanimousAgrees(c, u, e, n);
    }
  }

  lemma {:induction false} UnanimousAgrees(c: Config, u: Unicode, e: Evidence, n: nat)
    requires Shaped(c, u, e) && Unanimous(c, e, n) && e.history != []
    ensures n <= SharedLength(e.history)
  {
    SharedFromMaximal(e.history, 0);
    if SharedLength(e.history) < n {
      UnanimousShares(c, u, e, n, SharedLength(e.history));
    }
  }

  lemma {:induction false} UnanimousShares(c: Config, u: Unicode, e: Evidence, n: nat, m: nat)
    requires Shaped(c, u, e) && Unanimous(c, e, n) && e.history != [] && m < n
    ensures SharedAt(e.history, m)
  {
    forall k | 0 <= k < |e.history|
      ensures m < |e.history[k]| && e.history[k][m] == Values(e.tokens)[m]
    {
      assert e.history[k][..n][m] == Values(e.tokens)[..n][m];
    }
  }

  lemma {:induction false} PassingIff(c: Config, e: Evidence, now: real, limit: nat, n: nat)
    requires c.Valid() && limit <= |e.seen| && limit <= |e.confidences| && n <= |e.seen| && n <= |e.confidences|
    ensures n <= PassingRun(c, e, now, 0, limit)
      <==> n <= limit && forall i :: 0 <= i < n ==> Passes(c, e, now, i)
  {
  }

  /** What is recorded of a hypothesis: its text, cut into tokens; for each token the
      confidence supplied for it, if one probability was supplied per token; the pause, if
      there was one. What is protected stays. */
  lemma {:induction false} RecordsWhatIsSaid(c: Config, u: Unicode, t: Tracker, text: string, sequence: int,
                                             final: bool, supplied: Option<seq<Option<real>>>,
                                             pauseMs: Option<real>, clock: real)
    requires Judged(c, u, t)
    ensures var r := Observed(c, u, t, text, sequence, final, supplied, pauseMs, clock);
      && (r.Ok? <==> |text| <= c.maxSourceChars && t.sequence < sequence)
      && (r.Ok? ==>
            var e := r.value.e;
            && e.text == text && e.tokens == Tokens(u, text) && e.final == final && e.committed == t.e.committed
            && r.value.sequence == sequence && |e.confidences| == |e.tokens|
            && (forall i, p :: 0 <= i < |e.tokens| ==>
                  (e.confidences[i] == Some(p) <==>
                     supplied.Some? && |supplied.value| == |e.tokens| && supplied.value[i] == Some(p)
                     && 0.0 <= p <= 1.0))
            && (forall p :: e.pauseMs == Some(p) <==> pauseMs == Some(p) && 0.0 <= p)
            && r.value.lastTime.Some? && clock <= r.value.lastTime.value
            && (t.lastTime.Some? ==> t.lastTime.value <= r.value.lastTime.value)
            && (r.value.lastTime == Some(clock) || r.value.lastTime == t.lastTime))
  {
    hide Shaped, Evaluated, Keep, SeenAfter;
  }

  // -------- What a score means

  /** A piece of evidence for a token: how much it weighs and how strong it is. */
  datatype Piece = Piece(weight: real, strength: real)

  /** Everything known about a token; what is not known is not in the list. */
  ghost function Known(c: Config, e: Evidence, now: real, i: nat): seq<Piece>
    requires c.Valid() && i < |e.seen| && i < |e.confidences|
  {
    Given(c.agreementWeight, Some(1.0)) + Given(c.ageWeight, Some(Clip(Age(now, e.seen[i]) / c.ageHorizonMs)))
    + Given(c.confidenceWeight, e.confidences[i])
    + Given(c.pauseWeight, if e.pauseMs.Some? then Some(Clip(e.pauseMs.value / c.pauseThresholdMs)) else None)
  }

  ghost function Given(weight: real, strength: Option<real>): seq<Piece> {
    if strength.Some? then [Piece(weight, strength.value)] else []
  }

  ghost function Weight(pieces: seq<Piece>): real {
    if pieces == [] then 0.0 else pieces[0].weight + Weight(pieces[1..])
  }

  /** By how much the evidence above `x` outweighs the evidence below it. */
  ghost function Tilt(pieces: seq<Piece>, x: real): real {
    if pieces == [] then 0.0 else pieces[0].weight * (pieces[0].strength - x) + Tilt(pieces[1..], x)
  }

  /** A score balances its evidence: what pulls it up weighs as much as what pulls it
      down. Without any weighing evidence it is zero. */
  lemma {:induction false} ScoreBalances(c: Config, e: Evidence, now: real, i: nat)
    requires c.Valid() && i < |e.seen| && i < |e.confidences| && !e.final
    ensures var known := Known(c, e, now, i);
      if Weight(known) == 0.0 then Score(c, e, now, i) == 0.0 else Tilt(known, Score(c, e, now, i)) == 0.0
  {
    ScoreIs(c, e, now, i);
    hide Known, Score, Pull, Weight;
    TiltIs(Known(c, e, now, i), Score(c, e, now, i));
    Divides(Pull(Known(c, e, now, i)), Weight(Known(c, e, now, i)));
    hide Times, Tilt;
  }

  lemma {:induction false} Divides(pull: real, weight: real)
    ensures if weight == 0.0 then Quotient(pull, weight) == 0.0 else Times(weight, Quotient(pull, weight)) == pull
  {
  }

  ghost function Pull(pieces: seq<Piece>): real {
    if pieces == [] then 0.0 else Times(pieces[0].weight, pieces[0].strength) + Pull(pieces[1..])
  }

  lemma {:induction false} TiltIs(pieces: seq<Piece>, x: real)
    ensures Tilt(pieces, x) == Pull(pieces) - Times(Weight(pieces), x)
  {
    if pieces != [] {
      var p := pieces[0];
      TiltIs(pieces[1..], x);
      Spread(p.weight, Weight(pieces[1..]), x);
      assert p.weight * (p.strength - x) == Times(p.weight, p.strength) - Times(p.weight, x);
      hide Times;
    }
  }

  lemma {:induction false} Spread(w: real, v: real, x: real)
    ensures Times(w + v, x) == Times(w, x) + Times(v, x)
  {
  }

  lemma {:induction false} KnownWeighs(c: Config, e: Evidence, now: real, i: nat)
    requires c.Valid() && i < |e.seen| && i < |e.confidences|
    ensures Weights(c, Age(now, e.seen[i]), e.confidences[i], e.pauseMs)
         == (Pull(Known(c, e, now, i)), Weight(Known(c, e, now, i)))
  {
    var aged := Some(Clip(Age(now, e.seen[i]) / c.ageHorizonMs));
    var paused := if e.pauseMs.Some? then Some(Clip(e.pauseMs.value / c.pauseThresholdMs)) else None;
    var two := Given(c.agreementWeight, Some(1.0)) + Given(c.ageWeight, aged);
    var three := two + Given(c.confidenceWeight, e.confidences[i]);
    GivenWeighs([], c.agreementWeight, Some(1.0));
    GivenWeighs(Given(c.agreementWeight, Some(1.0)), c.ageWeight, aged);
    GivenWeighs(two, c.confidenceWeight, e.confidences[i]);
    GivenWeighs(three, c.pauseWeight, paused);
    assert [] + Given(c.agreementWeight, Some(1.0)) == Given(c.agreementWeight, Some(1.0));
    assert Times(c.agreementWeight, 1.0) == c.agreementWeight;
    assert Part(c.ageWeight, Age(now, e.seen[i]), c.ageHorizonMs) == Times(c.ageWeight, aged.value);
    if e.pauseMs.Some? {
      assert Part(c.pauseWeight, e.pauseMs.value, c.pauseThresholdMs) == Times(c.pauseWeight, paused.value);
    }
    hide Clip, Times, Age, Given, Part;
  }

  lemma {:induction false} GivenWeighs(before: seq<Piece>, weight: real, strength: Option<real>)
    ensures var after := before + Given(weight, strength);
      && Weight(after) == Weight(before) + (if strength.Some? then weight else 0.0)
      && Pull(after) == Pull(before) + (if strength.Some? then Times(weight, strength.value) else 0.0)
  {
    hide Times;
    if before == [] {
      assert [] + Given(weight, strength) == Given(weight, strength);
    } else {
      GivenWeighs(before[1..], weight, strength);
      assert (before + Given(weight, strength))[1..] == before[1..] + Given(weight, strength);
    }
  }

  lemma {:induction false} ScoreIs(c: Config, e: Evidence, now: real, i: nat)
    requires c.Valid() && i < |e.seen| && i < |e.confidences| && !e.final
    ensures Score(c, e, now, i) == Quotient(Pull(Known(c, e, now, i)), Weight(Known(c, e, now, i)))
  {
    KnownWeighs(c, e, now, i);
    hide Known, Weights, Age, Quotient;
  }

  /** A score lies between the weakest and the strongest evidence. */
  lemma {:induction false} ScoreInRange(c: Config, e: Evidence, now: real, i: nat, low: real, high: real)
    requires c.Valid() && i < |e.seen| && i < |e.confidences| && !e.final
    requires Weight(Known(c, e, now, i)) > 0.0
    requires forall p :: p in Known(c, e, now, i) ==> low <= p.strength <= high
    ensures low <= Score(c, e, now, i) <= high
  {
    ScoreIs(c, e, now, i);
    KnownPositive(c, e, now, i);
    hide Known, Score, Quotient, Weight, Pull;
    MeanInRange(Known(c, e, now, i), low, high);
  }

  lemma {:induction false} MeanInRange(pieces: seq<Piece>, low: real, high: real)
    requires Weight(pieces) > 0.0
    requires forall p :: p in pieces ==> p.weight >= 0.0 && low <= p.strength <= high
    ensures low <= Quotient(Pull(pieces), Weight(pieces)) <= high
  {
    PullInRange(pieces, low, high);
    hide Times, Quotient, Weight, Pull;
    Divided(Pull(pieces), Weight(pieces), low, high);
  }

  lemma {:induction false} KnownPositive(c: Config, e: Evidence, now: real, i: nat)
    requires c.Valid() && i < |e.seen| && i < |e.confidences|
    ensures forall p :: p in Known(c, e, now, i) ==> p.weight >= 0.0
  {
    hide Clip, Age;
  }

  lemma {:induction false} Divided(pull: real, weight: real, low: real, high: real)
    requires weight > 0.0 && Times(weight, low) <= pull <= Times(weight, high)
    ensures low <= Quotient(pull, weight) <= high
  {
    Divides(pull, weight);
    hide Times, Quotient;
    var q := Quotient(pull, weight);
    if q < low { TimesGrows(weight, q, low); }
    if high < q { TimesGrows(weight, high, q); }
  }

  lemma {:induction false} TimesGrows(weight: real, x: real, y: real)
    requires weight > 0.0 && x < y
    ensures Times(weight, x) < Times(weight, y)
  {
    Apart(weight, x, y);
    Positive(weight, y - x);
  }

  lemma {:induction false} Apart(weight: real, x: real, y: real)
    ensures Times(weight, y) - Times(weight, x) == Times(weight, y - x)
  {
  }

  lemma {:induction false} Positive(a: real, b: real)
    requires a > 0.0 && b > 0.0
    ensures Times(a, b) > 0.0
  {
  }

  lemma {:induction false} PullInRange(pieces: seq<Piece>, low: real, high: real)
    requires forall p :: p in pieces ==> p.weight >= 0.0 && low <= p.strength <= high
    ensures Times(Weight(pieces), low) <= Pull(pieces) <= Times(Weight(pieces), high)
  {
    if pieces != [] {
      var p := pieces[0];
      PullInRange(pieces[1..], low, high);
      TimesRises(p.weight, low, p.strength);
      TimesRises(p.weight, p.strength, high);
      Spread(p.weight, Weight(pieces[1..]), low);
      Spread(p.weight, Weight(pieces[1..]), high);
      hide Times;
    }
  }

  lemma {:induction false} TimesRises(weight: real, x: real, y: real)
    requires weight >= 0.0 && x <= y
    ensures Times(weight, x) <= Times(weight, y)
  {
    if weight == 0.0 {
      assert Times(0.0, x) == 0.0 == Times(0.0, y);
    } else if x < y {
      hide Times;
      TimesGrows(weight, x, y);
    }
  }

  /** Waiting never lowers a score. */
  lemma {:induction false} ScoreRises(c: Config, e: Evidence, now: real, later: real, i: nat)
    requires c.Valid() && i < |e.seen| && i < |e.confidences| && now <= later
    ensures Score(c, e, now, i) <= Score(c, e, later, i)
  {
    var age, older := Age(now, e.seen[i]), Age(later, e.seen[i]);
    PartRises(c.ageWeight, age, older, c.ageHorizonMs);
    hide Part, Times, Age;
    var w, v := Weights(c, age, e.confidences[i], e.pauseMs), Weights(c, older, e.confidences[i], e.pauseMs);
    assert w.0 <= v.0 && 0.0 <= w.1 == v.1;
    QuotientRises(w.0, v.0, w.1);
  }

  lemma {:induction false} QuotientRises(x: real, y: real, weight: real)
    requires x <= y && weight >= 0.0
    ensures Quotient(x, weight) <= Quotient(y, weight)
  {
    if weight > 0.0 {
      Divides(x, weight);
      Divides(y, weight);
      hide Times, Quotient;
      var a, b := Quotient(x, weight), Quotient(y, weight);
      if b < a { TimesGrows(weight, b, a); }
    }
  }

  lemma {:induction false} PartRises(weight: real, less: real, more: real, full: real)
    requires weight >= 0.0 && full > 0.0 && less <= more
    ensures Part(weight, less, full) <= Part(weight, more, full)
  {
    QuotientRises(less, more, full);
    TimesRises(weight, Clip(less / full), Clip(more / full));
  }

  /** The lowest score among the first `n` tokens, or zero if there is none. */
  ghost predicate IsLowest(c: Config, e: Evidence, now: real, n: nat, score: real)
    requires c.Valid() && n <= |e.seen| && n <= |e.confidences|
  {
    if n == 0 then score == 0.0
    else (exists i :: 0 <= i < n && Score(c, e, now, i) == score)
         && forall i :: 0 <= i < n ==> score <= Score(c, e, now, i)
  }

  /** A verdict reports the lowest score among the stable tokens that were scored, or among
      all that were if none is stable. */
  lemma {:induction false} ReportsLowest(c: Config, u: Unicode, e: Evidence, now: real)
    requires Shaped(c, u, e)
    ensures Available(c, u, e) <= |e.tokens|
    ensures var v, scored := Evaluated(c, u, e, now), Available(c, u, e);
      IsLowest(c, e, now, if v.stableCount == 0 then scored else Min(v.stableCount, scored), v.report.score)
  {
    AvailableBounded(c, u, e);
    var scores := Scores(c, e, now, Available(c, u, e));
    var v := Evaluated(c, u, e, now);
    var chosen := if v.stableCount < |scores| then scores[..v.stableCount] else scores;
    LowestOf(c, e, now, if chosen != [] then chosen else scores);
    hide Available, Shaped, Score, Lowest, Conflict, PassingRun, CountUpto;
  }

  lemma {:induction false} LowestOf(c: Config, e: Evidence, now: real, scores: seq<real>)
    requires c.Valid() && |scores| <= |e.seen| && |scores| <= |e.confidences|
    requires forall i :: 0 <= i < |scores| ==> scores[i] == Score(c, e, now, i)
    ensures IsLowest(c, e, now, |scores|, Lowest(scores))
  {
    hide Score;
    if scores != [] {
      var i :| 0 <= i < |scores| && scores[i] == Lowest(scores);
      assert Score(c, e, now, i) == Lowest(scores);
    }
  }

  // -------- Commits never fail where the session makes them

  /** Committing a verdict's own end succeeds unless the verdict conflicts without an
      explicit final; it removes any conflict, and without one it only extends what
      was already protected. */
  lemma {:induction false} CommitSucceeds(c: Config, u: Unicode, t: Tracker, allowFinal: bool, clock: real)
    requires Judged(c, u, t) && t.verdict.Some?
    ensures var r := Committed(c, u, t, t.verdict.value.stableEnd, allowFinal, clock);
      && (r.Ok? <==> !t.verdict.value.conflict || (allowFinal && t.e.final))
      && (r.Ok? ==> Protects(u, r.value.e) && !r.value.verdict.value.conflict)
      && (r.Ok? && !t.verdict.value.conflict ==> t.e.committed <= r.value.e.committed)
  {
    VerdictReach(c, u, t.e, t.lastTime.value);
    var r := Committed(c, u, t, t.verdict.value.stableEnd, allowFinal, clock);
    if r.Ok? {
      VerdictReach(c, u, r.value.e, r.value.lastTime.value);
      if !t.verdict.value.conflict {
        assert t.e.committed == t.e.text[..|t.e.committed|];
      }
    }
  }

  // -------- Ages

  type Trace = seq<(real, seq<string>)>

  /** `at` is when the hypotheses began to share, without a break until now, the
      current token texts up to and including token `i`. */
  ghost predicate SharedSince(trace: Trace, values: seq<string>, i: nat, at: real)
    requires i < |values|
  {
    exists j :: 0 <= j < |trace| && trace[j].0 == at && Unbroken(trace, values[..i + 1], j)
  }

  ghost predicate Unbroken(trace: Trace, prefix: seq<string>, j: nat) {
    && (forall k :: j <= k < |trace| ==> prefix <= trace[k].1)
    && (0 < j <= |trace| ==> !(prefix <= trace[j - 1].1))
  }

  ghost predicate AgesExact(trace: Trace, seen: seq<real>, values: seq<string>) {
    && |seen| == |values|
    && (if trace == [] then values == [] else trace[|trace| - 1].1 == values)
    && forall i :: 0 <= i < |values| ==> SharedSince(trace, values, i, seen[i])
  }

  /** The window holds the latest hypotheses, each once, and no other. */
  ghost predicate Window(trace: Trace, history: seq<seq<string>>, window: nat) {
    && |history| == Min(window, |trace|)
    && forall k :: 0 <= k < |history| ==> history[k] == trace[|trace| - |history| + k].1
  }

  lemma {:induction false} WindowMoves(trace: Trace, history: seq<seq<string>>, values: seq<string>, window: nat,
                                       now: real)
    requires Window(trace, history, window) && window > 0
    ensures Window(trace + [(now, values)], Keep(history, values, window), window)
  {
    var more, r := trace + [(now, values)], Keep(history, values, window);
    forall k | 0 <= k < |r|
      ensures r[k] == more[|more| - |r| + k].1
    {
      if k < |r| - 1 {
        var j := if |history| >= window then |history| - window + 1 + k else k;
        assert r[k] == history[j] == trace[|trace| - |history| + j].1;
      }
    }
  }

  lemma {:induction false} PrefixShares(before: seq<string>, after: seq<string>, n: nat, i: nat)
    requires n <= i < |after| && after[..i + 1] <= before
    ensures SharedAt([before, after], n)
  {
    assert after[..i + 1][n] == before[n];
  }

  /** The per-token record of a new hypothesis is exact if the old one was. */
  lemma {:induction false} AgesStayExact(trace: Trace, seen: seq<real>, before: seq<string>, after: seq<string>,
                                         now: real)
    requires AgesExact(trace, seen, before)
    ensures AgesExact(trace + [(now, after)], SeenAfter(seen, before, after, now), after)
  {
    var n := SharedLength([before, after]);
    var grown, r := trace + [(now, after)], SeenAfter(seen, before, after, now);
    SharedFromAgrees([before, after], 0, 1);
    SharedFromMaximal([before, after], 0);
    forall i | 0 <= i < |after|
      ensures SharedSince(grown, after, i, r[i])
    {
      if i < n {
        assert after[..i + 1] == after[..n][..i + 1] == before[..i + 1];
        var j :| 0 <= j < |trace| && trace[j].0 == seen[i] && Unbroken(trace, before[..i + 1], j);
        assert grown[j].0 == r[i] && Unbroken(grown, after[..i + 1], j);
      } else {
        var j := |trace|;
        if j > 0 {
          assert grown[j - 1].1 == before;
          if after[..i + 1] <= before {
            PrefixShares(before, after, n, i);
          }
        }
        assert grown[j].0 == r[i] && Unbroken(grown, after[..i + 1], j);
      }
    }
  }

  lemma {:induction false} JudgedShaped(c: Config, u: Unicode, t: Tracker)
    requires Judged(c, u, t)
    ensures Shaped(c, u, t.e) && -1 <= t.sequence
  {
  }

  // -------- The tracker itself

  class StabilityTracker {
    const config: Config
    const u: Unicode
    var history: seq<seq<string>>
    var tokens: seq<Token>
    var seen: seq<real>
    var text: string
    var sequence: int
    var final: bool
    var confidences: seq<Option<real>>
    var pauseMs: Option<real>
    var committed: string
    var lastTime: Option<real>
    var verdict: Option<Verdict>
    ghost var trace: Trace

    function State(): Tracker
      reads this
    {
      Tracker(Evidence(history, tokens, seen, text, final, confidences, pauseMs, committed),
              sequence, lastTime, verdict)
    }

    ghost predicate Valid()
      reads this
    {
      Judged(config, u, State())
    }

    /** The recorded times and the window are those the trace of hypotheses justifies. */
    ghost predicate Exact()
      reads this
    {
      AgesExact(trace, seen, Values(tokens)) && Window(trace, history, config.windowSize)
    }

    constructor (config: Config, u: Unicode)
      requires config.Valid()
      ensures Valid() && Exact() && State() == Fresh && this.config == config && this.u == u
    {
      this.config, this.u := config, u;
      history, tokens, seen, text, sequence, final := [], [], [], "", -1, false;
      confidences, pauseMs, committed, lastTime, verdict := [], None, "", None, None;
      trace := [];
    }

    /** A tracker with this state, when its trace is of no interest. */
    constructor Restored(config: Config, u: Unicode, t: Tracker)
      requires Judged(config, u, t)
      ensures Valid() && State() == t && this.config == config && this.u == u
    {
      this.config, this.u := config, u;
      history, tokens, seen, text, final := t.e.history, t.e.tokens, t.e.seen, t.e.text, t.e.final;
      confidences, pauseMs, committed := t.e.confidences, t.e.pauseMs, t.e.committed;
      sequence, lastTime, verdict := t.sequence, t.lastTime, t.verdict;
      trace := [];
    }

    method ReadClock(clock: real) returns (now: real)
      modifies this`lastTime
      ensures now == Now(old(lastTime), clock) && lastTime == Some(now)
    {
      now := match lastTime case None => clock case Some(last) => if clock < last then last else clock;
      lastTime := Some(now);
    }

    method Observe(text: string, sequence: int, final: bool, supplied: Option<seq<Option<real>>>,
                   pauseMs: Option<real>, clock: real) returns (r: Result<Verdict, Error>)
      requires Valid()
      modifies this
      ensures Valid() && (old(Exact()) ==> Exact())
      ensures match Observed(config, u, old(State()), text, sequence, final, supplied, pauseMs, clock)
              case Ok(t) => State() == t && r == Ok(t.verdict.value)
              case Err(e) => State() == old(State()) && r == Err(e)
    {
      JudgedShaped(config, u, State());
      hide Shaped, Judged, Recorded, Evaluated, AgesExact, Window, Now;
      if |text| > config.maxSourceChars { return Err(SourceTooLong); }
      if sequence <= this.sequence { return Err(SequenceNotIncreasing); }
      var now := ReadClock(clock);
      Record(text, sequence, final, supplied, pauseMs, now);
      var v := Evaluate(now);
      verdict := Some(v);
      assert State() == Judge(config, u, State().e, sequence, now);
      return Ok(v);
    }

    method Record(text: string, sequence: int, final: bool, supplied: Option<seq<Option<real>>>,
                  pauseMs: Option<real>, now: real)
      requires Shaped(config, u, State().e)
      modifies this`history, this`tokens, this`seen, this`text, this`sequence, this`final,
               this`confidences, this`pauseMs, this`trace
      ensures State().e == Recorded(config, u, old(State().e), text, final, supplied, pauseMs, now)
      ensures this.sequence == sequence
      ensures old(Exact()) ==> Exact()
    {
      ghost var r := Recorded(config, u, State().e, text, final, supplied, pauseMs, now);
      var lexed := Tokenize(u, text);
      var values := Values(lexed);
      AgeTokens(values, now);
      if old(Exact()) { WindowMoves(old(trace), history, values, config.windowSize, now); }
      Replace(lexed, values, text, final, supplied, pauseMs);
      this.sequence := sequence;
      assert history == r.history && tokens == r.tokens && seen == r.seen && confidences == r.confidences;
    }

    method Replace(lexed: seq<Token>, values: seq<string>, text: string, final: bool,
                   supplied: Option<seq<Option<real>>>, pauseMs: Option<real>)
      requires config.windowSize > 0
      modifies this`history, this`tokens, this`text, this`final, this`confidences, this`pauseMs
      ensures history == Keep(old(history), values, config.windowSize)
      ensures tokens == lexed && this.text == text && this.final == final
      ensures confidences == Confidences(supplied, |lexed|)
      ensures this.pauseMs == if pauseMs.Some? && pauseMs.value >= 0.0 then pauseMs else None
    {
      history := Keep(history, values, config.windowSize);
      tokens, this.text, this.final := lexed, text, final;
      confidences := Confidences(supplied, |lexed|);
      this.pauseMs := if pauseMs.Some? && pauseMs.value >= 0.0 then pauseMs else None;
    }

    method AgeTokens(values: seq<string>, now: real)
      requires |seen| == |tokens|
      modifies this`seen, this`trace
      ensures seen == SeenAfter(old(seen), Values(tokens), values, now)
      ensures trace == old(trace) + [(now, values)]
      ensures old(Exact()) ==> AgesExact(trace, seen, values)
    {
      var retained := CommonPrefixLength([Values(tokens), values]);
      if Exact() { AgesStayExact(trace, seen, Values(tokens), values, now); }
      SharedFromAgrees([Values(tokens), values], 0, 1);
      seen := seen[..retained] + seq(|values| - retained, i => now);
      trace := trace + [(now, values)];
    }

    /** A timer tick re-judges the same evidence; it is not another hypothesis. */
    method Refresh(clock: real) returns (v: Option<Verdict>)
      requires Valid()
      modifies this`lastTime, this`verdict
      ensures Valid() && State() == Refreshed(config, u, old(State()), clock) && v == verdict
      ensures old(Exact()) ==> Exact()
    {
      JudgedShaped(config, u, State());
      hide Shaped, Evaluated, AgesExact, Window, Now;
      if sequence < 0 { return None; }
      var now := ReadClock(clock);
      var judged := Evaluate(now);
      verdict := Some(judged);
      return verdict;
    }

    method Commit(end: int, allowFinal: bool, clock: real) returns (r: Result<Verdict, Error>)
      requires Valid()
      modifies this`committed, this`lastTime, this`verdict
      ensures Valid() && (old(Exact()) ==> Exact())
      ensures match Committed(config, u, old(State()), end, allowFinal, clock)
              case Ok(t) => State() == t && r == Ok(t.verdict.value)
              case Err(e) => State() == old(State()) && r == Err(e)
    {
      if verdict == None { return Err(NothingObserved); }
      if end != 0 && end !in (set k | 0 <= k < |tokens| :: tokens[k].end) {
        return Err(NotABoundary);
      }
      assert Boundary(u, text, end);
      if !(0 <= end <= verdict.value.stableEnd) { return Err(BeyondStable); }
      if verdict.value.conflict || end < |committed| {
        if !(allowFinal && final) { return Err(NeedsFinal); }
      }
      BoundaryInside(u, text, end);
      var v := Protect(end, clock);
      return Ok(v);
    }

    method Protect(end: nat, clock: real) returns (v: Verdict)
      requires Shaped(config, u, State().e) && end <= |text|
      modifies this`committed, this`lastTime, this`verdict
      ensures State() == Judge(config, u, old(State().e).(committed := text[..end]), sequence,
                               Now(old(lastTime), clock))
      ensures verdict == Some(v)
    {
      committed := text[..end];
      var now := ReadClock(clock);
      v := Evaluate(now);
      verdict := Some(v);
    }

    method Evaluate(now: real) returns (v: Verdict)
      requires Shaped(config, u, State().e)
      ensures v == Evaluated(config, u, State().e, now)
    {
      hide Reports, Scores, Available, PassingRun;
      ghost var e := State().e;
      var conflict := !(committed <= text)
        || (|committed| > 0 && |committed| !in (set k | 0 <= k < |tokens| :: tokens[k].end));
      var available := CountAvailable();
      var passing, scores := CountPassing(now, available);
      var stable := if conflict && !final then 0 else passing;
      if !conflict {
        var protected := CountCommitted();
        if protected > stable { stable := protected; }
      }
      v := Verdict(stable, CharEnd(tokens, stable), conflict, conflict && final, final,
                   Reports(State().e, now, scores, stable));
    }

    method CountAvailable() returns (available: nat)
      requires Shaped(config, u, State().e)
      ensures available == Available(config, u, State().e) <= |tokens|
    {
      AvailableBounded(config, u, State().e);
      var agreement := 0;
      if |history| == config.windowSize {
        agreement := CommonPrefixLength(history);
      }
      available := if final then |tokens| else agreement;
      if config.holdLastToken && !final && tokens != [] && available == |tokens|
         && tokens[|tokens| - 1].end == |text|
         && exists ch :: ch in tokens[|tokens| - 1].text && u.isAlnum(ch) {
        available := available - 1;
      }
    }

    method CountPassing(now: real, available: nat) returns (stable: nat, scores: seq<real>)
      requires Shaped(config, u, State().e) && available <= |tokens|
      ensures stable == PassingRun(config, State().e, now, 0, available)
      ensures scores == Scores(config, State().e, now, available)
    {
      assert config.Valid() && |seen| == |tokens| == |confidences|;
      hide Score, Shaped;
      stable, scores := 0, [];
      for index := 0 to available
        invariant stable <= index == |scores|
        invariant stable < index ==> !Passes(config, State().e, now, stable)
        invariant forall k :: 0 <= k < stable ==> Passes(config, State().e, now, k)
        invariant forall k :: 0 <= k < index ==> scores[k] == Score(config, State().e, now, k)
      {
        var score := ScoreAt(now, index);
        scores := scores + [score];
        if stable == index && score + 0.000000000001 >= config.threshold {
          stable := stable + 1;
        }
      }
      RunIs(config, State().e, now, 0, available, stable);
    }

    method ScoreAt(now: real, index: nat) returns (score: real)
      requires config.Valid() && index < |seen| && index < |confidences|
      ensures score == Score(config, State().e, now, index)
    {
      var age := Age(now, seen[index]);
      var weighted := config.agreementWeight + Part(config.ageWeight, age, config.ageHorizonMs);
      var weight := config.agreementWeight + config.ageWeight;
      if confidences[index].Some? {
        weighted := weighted + Times(config.confidenceWeight, confidences[index].value);
        weight := weight + config.confidenceWeight;
      }
      if pauseMs.Some? {
        weighted := weighted + Part(config.pauseWeight, pauseMs.value, config.pauseThresholdMs);
        weight := weight + config.pauseWeight;
      }
      assert (weighted, weight) == Weights(config, age, confidences[index], pauseMs);
      score := if final then 1.0 else Quotient(weighted, weight);
    }

    method CountCommitted() returns (n: nat)
      ensures n == CountUpto(tokens, |committed|)
    {
      n := 0;
      for k := 0 to |tokens|
        invariant n == CountUpto(tokens[..k], |committed|)
      {
        assert tokens[..k + 1][..k] == tokens[..k];
        if tokens[k].end <= |committed| { n := n + 1; }
      }
      assert tokens[..|tokens|] == tokens;
    }
  }

  lemma {:induction false} RunIs(c: Config, e: Evidence, now: real, i: nat, limit: nat, n: nat)
    requires c.Valid() && i <= n <= limit <= |e.seen| && limit <= |e.confidences|
    requires forall k :: i <= k < n ==> Passes(c, e, now, k)
    requires n < limit ==> !Passes(c, e, now, n)
    ensures PassingRun(c, e, now, i, limit) == n
    decreases limit - i
  {
    if i < n {
      RunIs(c, e, now, i + 1, limit, n);
    }
  }
}
