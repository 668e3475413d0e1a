/** Which whole source segments survive a text change (app/streaming/revision.py). */
module Revision {
  import opened Text

  datatype Span = Span(start: int, end: int)

  datatype Plan =
    | Plan(rollbackIndex: nat, rollbackEnd: int, replacement: string, changed: bool)
    | SpansOutOfOrder

  predicate InOrder(spans: seq<Span>, previous: int, limit: int) {
    spans == [] ||
    (0 <= spans[0].start <= spans[0].end <= limit && previous <= spans[0].start
     && InOrder(spans[1..], spans[0].end, limit))
  }

  /** Length of the common prefix, counted from `i`. */
  function Lcp(a: string, b: string, i: nat): (r: nat)
    requires i <= |a| && i <= |b| && a[..i] == b[..i]
    ensures i <= r <= |a| && r <= |b| && a[..r] == b[..r]
    ensures r == |a| || r == |b| || a[r] != b[r]
    decreases |a| - i
  {
    if i < |a| && i < |b| && a[i] == b[i] then
      assert a[..i + 1] == a[..i] + [a[i]] && b[..i + 1] == b[..i] + [b[i]];
      Lcp(a, b, i + 1)
    else i
  }

  /** Start of the first token strictly around `d`, or `d` itself. */
  function StraddleStart(ts: seq<Token>, d: nat): (r: nat)
    ensures r <= d
  {
    if ts == [] then d
    else if ts[0].start < d < ts[0].end then ts[0].start
    else StraddleStart(ts[1..], d)
  }

  /** The first changed position; a word that merely grew counts from its start. */
  function Difference(u: Unicode, before: string, after: string): (d: nat)
    ensures d <= Lcp(before, after, 0)
  {
    var d := Lcp(before, after, 0);
    if d == |before| && |after| > |before| then StraddleStart(Tokens(u, after), d) else d
  }

  function FirstTouched(spans: seq<Span>, d: int): (i: nat)
    ensures i <= |spans|
    ensures forall k :: 0 <= k < i ==> spans[k].end <= d
    ensures i < |spans| ==> d < spans[i].end
  {
    if spans == [] || d < spans[0].end then 0 else 1 + FirstTouched(spans[1..], d)
  }

  function From(text: string, boundary: int): string {
    if boundary < 0 then text else if boundary <= |text| then text[boundary..] else []
  }

  function Planned(u: Unicode, before: string, after: string, spans: seq<Span>): Plan {
    if !InOrder(spans, 0, |before|) then SpansOutOfOrder
    else
      var index := if before == after then |spans| else FirstTouched(spans, Difference(u, before, after));
      var boundary := if index < |spans| then spans[index].start
                      else if spans == [] then 0 else spans[|spans| - 1].end;
      Plan(index, boundary, From(after, boundary), before != after)
  }

  method PlanRevision(u: Unicode, before: string, after: string, spans: seq<Span>) returns (plan: Plan)
    ensures plan == Planned(u, before, after, spans)
  {
    var previous, k := 0, 0;
    while k < |spans|
      invariant 0 <= k <= |spans|
      invariant InOrder(spans, 0, |before|) == InOrder(spans[k..], previous, |before|)
    {
      if !(0 <= spans[k].start <= spans[k].end <= |before|) || spans[k].start < previous {
        return SpansOutOfOrder;
      }
      previous := spans[k].end;
      k := k + 1;
    }
    var difference := CommonPrefix(before, after);
    if difference == |before| && |after| > |before| {
      difference := BackToTokenStart(u, after, difference);
    }
    var index, boundary := |spans|, if spans != [] then spans[|spans| - 1].end else 0;
    if before != after {
      index, boundary := FindTouched(spans, difference, boundary);
    }
    return Plan(index, boundary, From(after, boundary), before != after);
  }

  method CommonPrefix(before: string, after: string) returns (difference: nat)
    ensures difference == Lcp(before, after, 0)
  {
    difference := 0;
    while difference < |before| && difference < |after| && before[difference] == after[difference]
      invariant difference <= |before| && difference <= |after| && before[..difference] == after[..difference]
      invariant Lcp(before, after, difference) == Lcp(before, after, 0)
    {
      assert before[..difference + 1] == before[..difference] + [before[difference]];
      assert after[..difference + 1] == after[..difference] + [after[difference]];
      difference := difference + 1;
    }
  }

  method BackToTokenStart(u: Unicode, after: string, d: nat) returns (difference: nat)
    ensures difference == StraddleStart(Tokens(u, after), d)
  {
    var tokens := Tokenize(u, after);
    difference := d;
    for k := 0 to |tokens|
      invariant difference == d
      invariant StraddleStart(tokens, d) == StraddleStart(tokens[k..], d)
    {
      if tokens[k].start < d < tokens[k].end {
        return tokens[k].start;
      }
    }
  }

  method FindTouched(spans: seq<Span>, difference: nat, fallback: int) returns (index: nat, boundary: int)
    ensures index == FirstTouched(spans, difference)
    ensures boundary == if index < |spans| then spans[index].start else fallback
  {
    for k := 0 to |spans|
      invariant FirstTouched(spans, difference) == k + FirstTouched(spans[k..], difference)
    {
      if difference < spans[k].end {
        return k, spans[k].start;
      }
    }
    return |spans|, fallback;
  }

  // -------- What survives

  /** Some token starts before `e` and ends after `d`. */
  ghost predicate SwallowedFrom(ts: seq<Token>, e: int, d: int) {
    exists i :: 0 <= i < |ts| && ts[i].start < e && d < ts[i].end
  }

  ghost predicate Swallowed(u: Unicode, text: string, e: int, d: int) {
    SwallowedFrom(Tokens(u, text), e, d)
  }

  lemma {:induction false} NotSwallowed(u: Unicode, text: string, e: int, d: int)
    requires Boundary(u, text, e) && e <= d
    ensures !Swallowed(u, text, e, d)
  {
    var ts := Tokens(u, text);
    TokensOrdered(u, text, 0);
    if EndsAt(ts, e) {
      var i :| 0 <= i < |ts| && ts[i].end == e;
      forall j | 0 <= j < |ts|
        ensures !(ts[j].start < e && d < ts[j].end)
      {
        if i < j { assert ts[i].end <= ts[j].start; }
      }
    }
  }

  lemma {:induction false} InOrderEnds(spans: seq<Span>, previous: int, limit: int, i: nat)
    requires InOrder(spans, previous, limit) && i < |spans|
    ensures 0 <= spans[i].start <= spans[i].end <= limit && previous <= spans[i].start
    ensures forall j :: 0 <= j < i ==> spans[j].end <= spans[i].start
  {
    if i > 0 {
      InOrderEnds(spans[1..], spans[0].end, limit, i - 1);
      forall j | 0 <= j < i
        ensures spans[j].end <= spans[i].start
      {
        if j > 0 { assert spans[j] == spans[1..][j - 1]; }
      }
    }
  }

  lemma {:induction false} SliceAgrees(a: string, b: string, p: nat, lo: nat, hi: nat)
    requires Agree(a, b, p) && lo <= hi <= p
    ensures a[lo..hi] == b[lo..hi]
  {
    assert a[lo..hi] == a[..p][lo..hi];
    assert b[lo..hi] == b[..p][lo..hi];
  }

  lemma {:induction false} StraddleIs(ts: seq<Token>, d: nat)
    ensures StraddleStart(ts, d) < d ==>
              exists i :: 0 <= i < |ts| && ts[i].start == StraddleStart(ts, d) && d < ts[i].end
    ensures StraddleStart(ts, d) == d ==> forall i :: 0 <= i < |ts| ==> !(ts[i].start < d < ts[i].end)
  {
    if ts != [] && !(ts[0].start < d < ts[0].end) {
      StraddleIs(ts[1..], d);
      if StraddleStart(ts, d) < d {
        var i :| 0 <= i < |ts[1..]| && ts[1..][i].start == StraddleStart(ts, d) && d < ts[1..][i].end;
        assert ts[i + 1] == ts[1..][i];
      } else {
        forall i | 0 <= i < |ts|
          ensures !(ts[i].start < d < ts[i].end)
        {
          if i > 0 { assert ts[i] == ts[1..][i - 1]; }
        }
      }
    } else if ts != [] {
      assert ts[0].start == StraddleStart(ts, d);
    }
  }

  /** Every kept span reads the same text after the revision, and the first dropped one
      was really touched: its text changed, or its last word grew. */
  lemma {:induction false} KeptExactly(u: Unicode, before: string, after: string, spans: seq<Span>)
    requires InOrder(spans, 0, |before|)
    ensures var plan := Planned(u, before, after, spans);
      && (forall i :: 0 <= i < plan.rollbackIndex ==>
            0 <= spans[i].start <= spans[i].end <= |after|
            && before[spans[i].start..spans[i].end] == after[spans[i].start..spans[i].end])
      && (plan.rollbackIndex < |spans| ==>
            var s := spans[plan.rollbackIndex];
            && plan.rollbackEnd == s.start
            && (!Agree(before, after, s.end) || (before < after && Swallowed(u, after, s.end, |before|))))
  {
    var plan := Planned(u, before, after, spans);
    var d := Lcp(before, after, 0);
    forall i | 0 <= i < plan.rollbackIndex
      ensures 0 <= spans[i].start <= spans[i].end <= |after|
      ensures before[spans[i].start..spans[i].end] == after[spans[i].start..spans[i].end]
    {
      InOrderEnds(spans, 0, |before|, i);
      if before != after {
        SliceAgrees(before, after, d, spans[i].start, spans[i].end);
      }
    }
    if plan.rollbackIndex < |spans| {
      var s := spans[plan.rollbackIndex];
      InOrderEnds(spans, 0, |before|, plan.rollbackIndex);
      if Agree(before, after, s.end) {
        assert s.end <= d by {
          if d < s.end { AgreeAt(before, after, s.end, d); }
        }
        StraddleIs(Tokens(u, after), d);
      }
    }
  }

  /** A prefix on which both texts agree and that ends on a boundary of the new text
      protects every span inside it. */
  lemma {:induction false} ProtectedSpansSurvive(u: Unicode, before: string, after: string, spans: seq<Span>, p: nat)
    requires InOrder(spans, 0, |before|)
    requires Agree(before, after, p) && Boundary(u, after, p)
    requires forall i :: 0 <= i < |spans| ==> spans[i].end <= p
    ensures Planned(u, before, after, spans).rollbackIndex == |spans|
  {
    var d := Lcp(before, after, 0);
    assert p <= d by {
      if d < p { AgreeAt(before, after, p, d); }
    }
    StraddleIs(Tokens(u, after), d);
    NotSwallowed(u, after, p, d);
  }

  // -------- When kept segment ends stay token boundaries

  lemma {:induction false} BoundaryKeptOrSwallowed(
      u: Unicode, a: string, b: string, d: nat, e: nat, from: nat)
    requires Agree(a, b, d) && from < e <= d && EndsAt(TokensFrom(u, a, from), e)
    ensures EndsAt(TokensFrom(u, b, from), e) || SwallowedFrom(TokensFrom(u, b, from), e, d)
    decreases e - from
  {
    AgreeAt(a, b, d, from);
    if u.isSpace(a[from]) {
      TokensOrdered(u, a, from + 1);
      BoundaryKeptOrSwallowed(u, a, b, d, e, from + 1);
    } else {
      PastFirst(u, a, from, e);
      FirstToken(u, b, from);
      var ts := TokensFrom(u, b, from);
      var end := TokenEnd(u, b, from);
      if d < end {
        assert ts[0].start < e && d < ts[0].end;
      } else {
        TokenEndAgrees(u, a, b, d, from);
        if end == e {
          assert ts[0].end == e;
        } else {
          BoundaryKeptOrSwallowed(u, a, b, d, e, end);
          LaterToken(ts, e, d);
        }
      }
    }
  }

  lemma {:induction false} LaterToken(ts: seq<Token>, e: nat, d: nat)
    requires ts != []
    ensures EndsAt(ts[1..], e) ==> EndsAt(ts, e)
    ensures SwallowedFrom(ts[1..], e, d) ==> SwallowedFrom(ts, e, d)
  {
    if EndsAt(ts[1..], e) {
      var i :| 0 <= i < |ts[1..]| && ts[1..][i].end == e;
      assert ts[i + 1] == ts[1..][i];
    }
    if SwallowedFrom(ts[1..], e, d) {
      var i :| 0 <= i < |ts[1..]| && ts[1..][i].start < e && d < ts[1..][i].end;
      assert ts[i + 1] == ts[1..][i];
    }
  }

  /** A boundary of the old text at or before the first difference is a boundary of
      the new text exactly when no new token swallows it together with that difference. */
  lemma {:induction false} BoundaryKeptIff(u: Unicode, before: string, after: string, e: nat)
    requires 0 < e <= Lcp(before, after, 0) && Boundary(u, before, e)
    ensures Boundary(u, after, e) <==> !Swallowed(u, after, e, Lcp(before, after, 0))
  {
    var d := Lcp(before, after, 0);
    BoundaryKeptOrSwallowed(u, before, after, d, e, 0);
    if Boundary(u, after, e) {
      NotSwallowed(u, after, e, d);
    }
  }

  lemma {:induction false} EarlierBoundary(u: Unicode, before: string, after: string, spans: seq<Span>, i: nat, j: nat)
    requires InOrder(spans, 0, |before|) && i <= j < |spans|
    requires 0 <= spans[j].end && Agree(before, after, spans[j].end)
    requires Boundary(u, before, spans[j].end) && Boundary(u, after, spans[j].end)
    requires Boundary(u, before, spans[i].end)
    ensures Boundary(u, after, spans[i].end)
  {
    InOrderEnds(spans, 0, |before|, i);
    InOrderEnds(spans, 0, |before|, j);
    PrefixStable(u, before, after, spans[j].end);
  }

  /** The kept segment ends are all boundaries of the new text if and only if the new
      token around the first difference, if any, starts at or after the last kept end.
      The source makes this check only when the old text is a strict prefix. */
  lemma {:induction false} KeptEndsAlignedIff(u: Unicode, before: string, after: string, spans: seq<Span>)
    requires InOrder(spans, 0, |before|) && before != after
    requires forall i :: 0 <= i < |spans| ==> spans[i].start < spans[i].end && Boundary(u, before, spans[i].end)
    requires 0 < Planned(u, before, after, spans).rollbackIndex
    ensures var n := Planned(u, before, after, spans).rollbackIndex;
      (forall i :: 0 <= i < n ==> Boundary(u, after, spans[i].end))
      <==> !Swallowed(u, after, spans[n - 1].end, Lcp(before, after, 0))
  {
    var n := Planned(u, before, after, spans).rollbackIndex;
    InOrderEnds(spans, 0, |before|, n - 1);
    BoundaryKeptIff(u, before, after, spans[n - 1].end);
    if Boundary(u, after, spans[n - 1].end) {
      forall i | 0 <= i < n
        ensures Boundary(u, after, spans[i].end)
      {
        SliceAgrees(before, after, Lcp(before, after, 0), 0, spans[n - 1].end);
        EarlierBoundary(u, before, after, spans, i, n - 1);
      }
    }
  }

  /** When the old text is a strict prefix of the new one the check is made, so kept
      ends always stay boundaries. */
  lemma {:induction false} ExtensionKeepsAlignment(u: Unicode, before: string, after: string, spans: seq<Span>, i: nat)
    requires InOrder(spans, 0, |before|) && before < after
    requires i < Planned(u, before, after, spans).rollbackIndex
    requires spans[i].start < spans[i].end && Boundary(u, before, spans[i].end)
    ensures Boundary(u, after, spans[i].end)
  {
    var d := Lcp(before, after, 0);
    InOrderEnds(spans, 0, |before|, i);
    assert d == |before|;
    BoundaryKeptIff(u, before, after, spans[i].end);
    var ts := Tokens(u, after);
    StraddleIs(ts, d);
    TokensOrdered(u, after, 0);
    forall j | 0 <= j < |ts|
      ensures !(ts[j].start < spans[i].end && d < ts[j].end)
    {
      if StraddleStart(ts, d) < d {
        var k :| 0 <= k < |ts| && ts[k].start == StraddleStart(ts, d) && d < ts[k].end;
        if j < k { assert ts[j].end <= ts[k].start; }
        if k < j { assert ts[k].end <= ts[j].start; }
      }
    }
  }

  /** ASCII letters and spaces, enough for concrete texts. */
  const Ascii := Unicode(
    c => c == ' ', c => 'a' <= c <= 'z', c => 'a' <= c <= 'z', c => '0' <= c <= '9', c => false)

  /** A correction that rewrites a later word can merge a kept segment into a longer
      token: "a b" with the segment "a", replaced by "ac". */
  lemma {:induction false} ConflictingFinalCanMisalign()
    ensures var spans := [Span(0, 1)];
      && Boundary(Ascii, "a b", 1)
      && Planned(Ascii, "a b", "ac", spans).rollbackIndex == 1
      && !Boundary(Ascii, "ac", 1)
  {
    assert TokensFrom(Ascii, "a b", 0)[0].end == 1;
    var ts := TokensFrom(Ascii, "ac", 0);
    assert WordRest(Ascii, "ac", 1, false) == 2;
    assert TokenEnd(Ascii, "ac", 0) == 2;
    assert ts == [Token("ac"[0..2], 0, 2)];
  }
}
