/** Choosing the longest complete source prefix (app/streaming/segmentation.py).
    What counts as a complete clause is an oracle; the lemmas hold for any. */
module Segmentation {
  import opened Wrappers
  import opened Text

  datatype Judgement = Judgement(complete: bool, reason: string, strong: bool)

  /** `complete(clause, context)` and the abbreviation table. */
  datatype Grammar = Grammar(complete: (string, string) -> Judgement, isAbbreviation: string -> bool)

  datatype Candidate = Candidate(start: nat, end: nat, text: string, reason: string, tokenCount: nat, strong: bool)

  datatype Error = InvalidLimits | NotOnBoundary

  datatype Query = Query(
    text: string, stableEnd: int, start: int, context: string, maxTokens: int, allowOversize: bool)

  predicate Ends(t: string) {
    t in {".", "!", "?", "\U{3002}", "\U{FF01}", "\U{FF1F}"}
  }

  predicate Closes(t: string) {
    t in {"\"", "\U{201D}", "\U{2019}", "\U{BB}", ")", "]", "}", "\U{FF09}", "\U{3011}"}
  }

  /** Tokens wholly inside `[lo, hi]`. */
  function Inside(ts: seq<Token>, lo: int, hi: int): (r: seq<Token>)
    ensures forall i :: 0 <= i < |r| ==> r[i] in ts && lo <= r[i].start && r[i].end <= hi
  {
    if ts == [] then []
    else if lo <= ts[0].start && ts[0].end <= hi then [ts[0]] + Inside(ts[1..], lo, hi)
    else Inside(ts[1..], lo, hi)
  }

  predicate Endpoint(g: Grammar, ts: seq<Token>, i: nat)
    requires i < |ts|
  {
    Ends(ts[i].text) && !(ts[i].text == "." && i > 0 && g.isAbbreviation(ts[i - 1].text))
  }

  /** How many tokens precede the end of the run of terminators and closers after `i`. */
  function RunEnd(ts: seq<Token>, i: nat): (n: nat)
    requires i < |ts|
    ensures i < n <= |ts|
    decreases |ts| - i
  {
    if i + 1 < |ts| && (Ends(ts[i + 1].text) || Closes(ts[i + 1].text)) then RunEnd(ts, i + 1) else i + 1
  }

  /** How many tokens precede the end of the next sentence at or after `i`. */
  function NextEnd(g: Grammar, ts: seq<Token>, i: nat): (n: Option<nat>)
    requires i <= |ts|
    ensures n.Some? ==> i < n.value <= |ts|
    decreases |ts| - i
  {
    if i == |ts| then None
    else if Endpoint(g, ts, i) then Some(RunEnd(ts, i))
    else NextEnd(g, ts, i + 1)
  }

  /** Where the first `k` available tokens end. */
  function Cut(q: Query, ts: seq<Token>, k: nat): int
    requires k <= |ts|
  {
    if k == 0 then q.start else ts[k - 1].end
  }

  ghost predicate Usable(q: Query, ts: seq<Token>) {
    && 0 <= q.start && Ordered(ts, q.start)
    && forall i :: 0 <= i < |ts| ==> ts[i].end <= |q.text|
  }

  function Chunk(q: Query, ts: seq<Token>, j: nat, k: nat): string
    requires j <= k <= |ts| && 0 <= Cut(q, ts, j) <= Cut(q, ts, k) <= |q.text|
  {
    q.text[Cut(q, ts, j)..Cut(q, ts, k)]
  }

  lemma {:induction false} CutsOrdered(q: Query, ts: seq<Token>, j: nat, k: nat)
    requires Usable(q, ts) && q.start <= |q.text| && j <= k <= |ts|
    ensures 0 <= Cut(q, ts, j) <= Cut(q, ts, k) <= |q.text|
    ensures j < k ==> Cut(q, ts, j) < Cut(q, ts, k)
  {
    if 0 < j < k {
      assert ts[j - 1].end <= ts[k - 1].start;
    }
  }

  function Made(q: Query, ts: seq<Token>, k: nat, v: Judgement): Candidate
    requires k <= |ts| && 0 <= q.start <= Cut(q, ts, k) <= |q.text|
  {
    Candidate(q.start, Cut(q, ts, k), q.text[q.start..Cut(q, ts, k)], v.reason, k, v.strong)
  }

  /** The selection once `k` tokens have been accepted, sentence by sentence. */
  ghost function Selected(g: Grammar, q: Query, ts: seq<Token>, k: nat, context: string,
                          selected: Option<Candidate>): Option<Candidate>
    requires Usable(q, ts) && q.start <= |q.text| && k <= |ts|
    decreases |ts| - k
  {
    match NextEnd(g, ts, k)
    case Some(n) =>
      CutsOrdered(q, ts, k, n);
      CutsOrdered(q, ts, 0, n);
      var chunk := Chunk(q, ts, k, n);
      var v := g.complete(chunk, context);
      if !v.complete then selected
      else if n > q.maxTokens then
        if selected == None && q.allowOversize && v.strong then Some(Made(q, ts, n, v)) else selected
      else Selected(g, q, ts, n, chunk, Some(Made(q, ts, n, v)))
    case None =>
      if k == |ts| || |ts| > q.maxTokens then selected
      else
        CutsOrdered(q, ts, k, |ts|);
        CutsOrdered(q, ts, 0, |ts|);
        var v := g.complete(Chunk(q, ts, k, |ts|), context);
        if v.complete then Some(Made(q, ts, |ts|, v)) else selected
  }

  ghost predicate OnBoundary(u: Unicode, text: string, p: int) {
    Boundary(u, text, p) || p == |text|
  }

  ghost predicate InLimits(q: Query) {
    0 <= q.start <= q.stableEnd <= |q.text| && q.maxTokens >= 1
  }

  lemma {:induction false} InsideOrdered(ts: seq<Token>, lo: int, hi: int, from: nat)
    requires Ordered(ts, from)
    ensures Ordered(Inside(ts, lo, hi), from)
    ensures 0 <= lo ==> Ordered(Inside(ts, lo, hi), lo)
  {
    if ts != [] {
      InsideOrdered(ts[1..], lo, hi, ts[0].end);
    }
  }

  lemma {:induction false} AvailableUsable(u: Unicode, q: Query)
    requires InLimits(q)
    ensures Usable(q, Inside(Tokens(u, q.text), q.start, q.stableEnd))
  {
    TokensOrdered(u, q.text, 0);
    InsideOrdered(Tokens(u, q.text), q.start, q.stableEnd, 0);
  }

  ghost function Segmented(u: Unicode, g: Grammar, q: Query): Result<Option<Candidate>, Error> {
    if !InLimits(q) then Err(InvalidLimits)
    else if !OnBoundary(u, q.text, q.stableEnd) || !OnBoundary(u, q.text, q.start) then Err(NotOnBoundary)
    else
      AvailableUsable(u, q);
      Ok(Selected(g, q, Inside(Tokens(u, q.text), q.start, q.stableEnd), 0, q.context, None))
  }

  // -------- The loop

  method Filter(ts: seq<Token>, lo: int, hi: int) returns (r: seq<Token>)
    ensures r == Inside(ts, lo, hi)
  {
    r := [];
    for i := 0 to |ts|
      invariant r + Inside(ts[i..], lo, hi) == Inside(ts, lo, hi)
    {
      if lo <= ts[i].start && ts[i].end <= hi {
        assert r + Inside(ts[i..], lo, hi) == (r + [ts[i]]) + Inside(ts[i + 1..], lo, hi);
        r := r + [ts[i]];
      }
    }
  }

  method ExtendRun(ts: seq<Token>, i: nat) returns (n: nat)
    requires i < |ts|
    ensures n == RunEnd(ts, i)
  {
    var e := i;
    while e + 1 < |ts| && (Ends(ts[e + 1].text) || Closes(ts[e + 1].text))
      invariant i <= e < |ts| && RunEnd(ts, e) == RunEnd(ts, i)
    {
      e := e + 1;
    }
    return e + 1;
  }

  method SegmentPrefix(u: Unicode, g: Grammar, q: Query) returns (r: Result<Option<Candidate>, Error>)
    ensures r == Segmented(u, g, q)
  {
    if !(0 <= q.start <= q.stableEnd <= |q.text|) || q.maxTokens < 1 {
      return Err(InvalidLimits);
    }
    var tokens := Tokenize(u, q.text);
    var boundaries := {0, |q.text|} + set i | 0 <= i < |tokens| :: tokens[i].end;
    assert forall p :: p in boundaries <==> OnBoundary(u, q.text, p) by {
      assert forall i :: 0 <= i < |tokens| ==> tokens[i].end in boundaries;
    }
    if q.stableEnd !in boundaries || q.start !in boundaries {
      return Err(NotOnBoundary);
    }
    var available := Filter(tokens, q.start, q.stableEnd);
    AvailableUsable(u, q);
    var selected := Choose(g, q, available);
    return Ok(selected);
  }

  method Choose(g: Grammar, q: Query, ts: seq<Token>) returns (selected: Option<Candidate>)
    requires Usable(q, ts) && q.start <= |q.text|
    ensures selected == Selected(g, q, ts, 0, q.context, None)
  {
    selected := None;
    var context, consumed, index := q.context, 0, 0;
    while index < |ts|
      invariant 0 <= consumed <= index <= |ts|
      invariant NextEnd(g, ts, consumed) == NextEnd(g, ts, index)
      invariant Selected(g, q, ts, consumed, context, selected) == Selected(g, q, ts, 0, q.context, None)
      decreases |ts| - index
    {
      if Endpoint(g, ts, index) {
        var n := ExtendRun(ts, index);
        CutsOrdered(q, ts, consumed, n);
        CutsOrdered(q, ts, 0, n);
        var chunk := Chunk(q, ts, consumed, n);
        var v := g.complete(chunk, context);
        if !v.complete {
          return;
        }
        if n > q.maxTokens {
          if selected == None && q.allowOversize && v.strong {
            return Some(Made(q, ts, n, v));
          }
          return;
        }
        selected, context, consumed, index := Some(Made(q, ts, n, v)), chunk, n, n;
      } else {
        index := index + 1;
      }
    }
    if consumed < |ts| && |ts| <= q.maxTokens {
      CutsOrdered(q, ts, consumed, |ts|);
      CutsOrdered(q, ts, 0, |ts|);
      var v := g.complete(Chunk(q, ts, consumed, |ts|), context);
      if v.complete {
        selected := Some(Made(q, ts, |ts|, v));
      }
    }
  }

  // -------- What a selection is

  /** `cuts` are token counts that split the selection into consecutive chunks, each
      accepted with its predecessor as context; inner cuts are sentence ends. */
  ghost predicate Splits(g: Grammar, q: Query, ts: seq<Token>, cuts: seq<nat>) {
    && Usable(q, ts) && q.start <= |q.text|
    && 2 <= |cuts| && cuts[0] == 0 && cuts[|cuts| - 1] <= |ts|
    && (forall i :: 0 < i < |cuts| ==> cuts[i - 1] < cuts[i] <= |ts|)
    && (forall i :: 0 < i < |cuts| - 1 ==> NextEnd(g, ts, cuts[i - 1]) == Some(cuts[i]))
    && (forall i :: 0 < i < |cuts| ==> Accepted(g, q, ts, cuts, i))
  }

  /** The context the chunk after `cuts` is judged in. */
  ghost function ContextAfter(q: Query, ts: seq<Token>, cuts: seq<nat>): string
    requires Usable(q, ts) && q.start <= |q.text| && cuts != []
    requires forall i :: 0 < i < |cuts| ==> cuts[i - 1] <= cuts[i] <= |ts|
  {
    if |cuts| == 1 then q.context
    else
      CutsOrdered(q, ts, cuts[|cuts| - 2], cuts[|cuts| - 1]);
      Chunk(q, ts, cuts[|cuts| - 2], cuts[|cuts| - 1])
  }

  ghost predicate Accepted(g: Grammar, q: Query, ts: seq<Token>, cuts: seq<nat>, i: nat)
    requires Usable(q, ts) && q.start <= |q.text| && 0 < i < |cuts|
    requires forall j :: 0 < j < |cuts| ==> cuts[j - 1] <= cuts[j] <= |ts|
  {
    CutsOrdered(q, ts, cuts[i - 1], cuts[i]);
    g.complete(Chunk(q, ts, cuts[i - 1], cuts[i]), ContextAfter(q, ts, cuts[..i])).complete
  }

  /** Sentence by sentence, from the start: every cut is the next sentence end. */
  ghost predicate Sentences(g: Grammar, q: Query, ts: seq<Token>, cuts: seq<nat>) {
    && Usable(q, ts) && q.start <= |q.text|
    && 1 <= |cuts| && cuts[0] == 0
    && (forall i :: 0 < i < |cuts| ==> cuts[i - 1] < cuts[i] <= |ts|)
    && (forall i :: 0 < i < |cuts| ==> NextEnd(g, ts, cuts[i - 1]) == Some(cuts[i]))
    && (forall i :: 0 < i < |cuts| ==> Accepted(g, q, ts, cuts, i))
  }

  /** An exact slice from the start to the end of its last token. */
  ghost predicate Exactly(q: Query, ts: seq<Token>, c: Candidate) {
    && 0 < c.tokenCount <= |ts| && 0 <= q.start <= Cut(q, ts, c.tokenCount) <= |q.text|
    && c.start == q.start && c.end == Cut(q, ts, c.tokenCount) && c.text == q.text[c.start..c.end]
  }

  /** The candidate splits into consecutive chunks, each accepted with its predecessor
      as context; only one strong sentence taken whole may exceed the budget. */
  ghost predicate Sound(g: Grammar, q: Query, ts: seq<Token>, c: Candidate) {
    Exactly(q, ts, c) && exists cuts :: SoundBy(g, q, ts, c, cuts)
  }

  ghost predicate SoundBy(g: Grammar, q: Query, ts: seq<Token>, c: Candidate, cuts: seq<nat>) {
    && Splits(g, q, ts, cuts) && cuts[|cuts| - 1] == c.tokenCount
    && (c.tokenCount <= q.maxTokens
        || (q.allowOversize && c.strong && |cuts| == 2 && NextEnd(g, ts, 0) == Some(c.tokenCount)))
  }

  /** What the scan knows after the sentences `cuts`. */
  ghost predicate Reached(g: Grammar, q: Query, ts: seq<Token>, cuts: seq<nat>,
                          context: string, selected: Option<Candidate>) {
    && Sentences(g, q, ts, cuts) && context == ContextAfter(q, ts, cuts)
    && if |cuts| == 1 then selected == None
       else selected.Some? && Exactly(q, ts, selected.value)
            && selected.value.tokenCount == cuts[|cuts| - 1] <= q.maxTokens
  }

  lemma {:induction false} AcceptedNext(g: Grammar, q: Query, ts: seq<Token>, cuts: seq<nat>, n: nat)
    requires Sentences(g, q, ts, cuts) && cuts[|cuts| - 1] < n <= |ts|
    requires 0 <= Cut(q, ts, cuts[|cuts| - 1]) <= Cut(q, ts, n) <= |q.text|
    requires g.complete(Chunk(q, ts, cuts[|cuts| - 1], n), ContextAfter(q, ts, cuts)).complete
    ensures Splits(g, q, ts, cuts + [n])
    ensures NextEnd(g, ts, cuts[|cuts| - 1]) == Some(n) ==> Sentences(g, q, ts, cuts + [n])
  {
    var more := cuts + [n];
    forall i | 0 < i < |more|
      ensures Accepted(g, q, ts, more, i)
    {
      if i == |cuts| {
        assert more[..i] == cuts;
      } else {
        assert more[..i] == cuts[..i];
        assert Accepted(g, q, ts, cuts, i);
      }
    }
  }

  lemma {:induction false} ReachedIsSound(g: Grammar, q: Query, ts: seq<Token>, cuts: seq<nat>,
                       context: string, selected: Option<Candidate>)
    requires Reached(g, q, ts, cuts, context, selected)
    ensures selected.Some? ==> Sound(g, q, ts, selected.value)
  {
    if selected.Some? {
      assert SoundBy(g, q, ts, selected.value, cuts);
    }
  }

  lemma {:induction false} SelectedSound(g: Grammar, q: Query, ts: seq<Token>, cuts: seq<nat>,
                                         context: string, selected: Option<Candidate>)
    requires Reached(g, q, ts, cuts, context, selected)
    ensures var r := Selected(g, q, ts, cuts[|cuts| - 1], context, selected);
      r.Some? ==> Sound(g, q, ts, r.value)
    decreases |ts| - cuts[|cuts| - 1]
  {
    ReachedIsSound(g, q, ts, cuts, context, selected);
    var k := cuts[|cuts| - 1];
    var next := NextEnd(g, ts, k);
    var n := if next.Some? then next.value else |ts|;
    if k < n {
      CutsOrdered(q, ts, k, n);
      CutsOrdered(q, ts, 0, n);
      var v := g.complete(Chunk(q, ts, k, n), context);
      if v.complete {
        AcceptedNext(g, q, ts, cuts, n);
        assert (cuts + [n])[..|cuts|] == cuts;
        var c := Made(q, ts, n, v);
        if n <= q.maxTokens {
          if next.Some? {
            SelectedSound(g, q, ts, cuts + [n], Chunk(q, ts, k, n), Some(c));
          } else {
            assert SoundBy(g, q, ts, c, cuts + [n]);
          }
        } else if next.Some? && selected == None && q.allowOversize && v.strong {
          assert SoundBy(g, q, ts, c, cuts + [n]);
        }
      }
    }
  }

  lemma {:induction false} SelectedGrows(g: Grammar, q: Query, ts: seq<Token>, k: nat, context: string,
                                         selected: Option<Candidate>)
    requires Usable(q, ts) && q.start <= |q.text| && k <= |ts|
    requires selected.Some? && selected.value.tokenCount <= k
    ensures var r := Selected(g, q, ts, k, context, selected);
      r.Some? && selected.value.tokenCount <= r.value.tokenCount
    decreases |ts| - k
  {
    var next := NextEnd(g, ts, k);
    if next.Some? {
      var n := next.value;
      CutsOrdered(q, ts, k, n);
      CutsOrdered(q, ts, 0, n);
      var v := g.complete(Chunk(q, ts, k, n), context);
      if v.complete && n <= q.maxTokens {
        SelectedGrows(g, q, ts, n, Chunk(q, ts, k, n), Some(Made(q, ts, n, v)));
      }
    }
  }

  /** From any accepted prefix of `cuts` the scan goes on to take all of `cuts`. */
  lemma {:induction false} SelectedLongestFrom(g: Grammar, q: Query, ts: seq<Token>, cuts: seq<nat>, i: nat,
                                               selected: Option<Candidate>)
    requires Sentences(g, q, ts, cuts) && cuts[|cuts| - 1] <= q.maxTokens && i < |cuts|
    requires i == |cuts| - 1 ==> selected.Some? && selected.value.tokenCount == cuts[i]
    ensures var r := Selected(g, q, ts, cuts[i], ContextAfter(q, ts, cuts[..i + 1]), selected);
      r.Some? && cuts[|cuts| - 1] <= r.value.tokenCount
    decreases |cuts| - i
  {
    var context := ContextAfter(q, ts, cuts[..i + 1]);
    if i == |cuts| - 1 {
      SelectedGrows(g, q, ts, cuts[i], context, selected);
    } else {
      var n := cuts[i + 1];
      CutsOrdered(q, ts, cuts[i], n);
      CutsOrdered(q, ts, 0, n);
      CutsIncrease(g, q, ts, cuts, i + 1);
      assert Accepted(g, q, ts, cuts, i + 1);
      var v := g.complete(Chunk(q, ts, cuts[i], n), context);
      assert ContextAfter(q, ts, cuts[..i + 2]) == Chunk(q, ts, cuts[i], n);
      SelectedLongestFrom(g, q, ts, cuts, i + 1, Some(Made(q, ts, n, v)));
    }
  }

  lemma {:induction false} CutsIncrease(g: Grammar, q: Query, ts: seq<Token>, cuts: seq<nat>, i: nat)
    requires Sentences(g, q, ts, cuts) && i < |cuts|
    ensures cuts[i] <= cuts[|cuts| - 1]
    decreases |cuts| - i
  {
    if i < |cuts| - 1 {
      CutsIncrease(g, q, ts, cuts, i + 1);
    }
  }

  /** A selection is an exact slice of whole stable tokens from `start`, sound chunk by
      chunk, and at least as long as any run of accepted sentences within the budget. */
  lemma {:induction false} SegmentMeaning(u: Unicode, g: Grammar, q: Query)
    requires Segmented(u, g, q).Ok?
    ensures var ts := Inside(Tokens(u, q.text), q.start, q.stableEnd);
            var r := Segmented(u, g, q).value;
      && (r.Some? ==> Sound(g, q, ts, r.value) && q.start < r.value.end <= q.stableEnd
                      && Boundary(u, q.text, r.value.end))
      && (forall cuts :: Sentences(g, q, ts, cuts) && 1 < |cuts| && cuts[|cuts| - 1] <= q.maxTokens ==>
            r.Some? && cuts[|cuts| - 1] <= r.value.tokenCount)
  {
    var ts := Inside(Tokens(u, q.text), q.start, q.stableEnd);
    var r := Segmented(u, g, q).value;
    AvailableUsable(u, q);
    SelectedSound(g, q, ts, [0], q.context, None);
    if r.Some? {
      EndsOnToken(u, q, r.value.tokenCount);
      CutsOrdered(q, ts, 0, r.value.tokenCount);
    }
    forall cuts | Sentences(g, q, ts, cuts) && 1 < |cuts| && cuts[|cuts| - 1] <= q.maxTokens
      ensures r.Some? && cuts[|cuts| - 1] <= r.value.tokenCount
    {
      SelectedLongestFrom(g, q, ts, cuts, 0, None);
    }
  }

  lemma {:induction false} EndsOnToken(u: Unicode, q: Query, k: nat)
    requires 0 < k <= |Inside(Tokens(u, q.text), q.start, q.stableEnd)|
    ensures Boundary(u, q.text, Cut(q, Inside(Tokens(u, q.text), q.start, q.stableEnd), k))
    ensures Cut(q, Inside(Tokens(u, q.text), q.start, q.stableEnd), k) <= q.stableEnd
  {
    var all := Tokens(u, q.text);
    var ts := Inside(all, q.start, q.stableEnd);
    assert ts[k - 1] in all;
    var i :| 0 <= i < |all| && all[i] == ts[k - 1];
    assert all[i].end == Cut(q, ts, k);
  }

  /** Where a selection lies, without what it consists of. */
  lemma {:induction false} SegmentReach(u: Unicode, g: Grammar, q: Query)
    requires Segmented(u, g, q).Ok? && Segmented(u, g, q).value.Some?
    ensures var c := Segmented(u, g, q).value.value;
      0 <= q.start == c.start < c.end <= q.stableEnd <= |q.text| && Boundary(u, q.text, c.end)
      && c.text == q.text[c.start..c.end]
  {
    SegmentMeaning(u, g, q);
  }

  /** A selection is never blank. */
  lemma {:induction false} SelectionNotBlank(u: Unicode, g: Grammar, q: Query)
    requires Segmented(u, g, q).Ok? && Segmented(u, g, q).value.Some?
    ensures exists i :: 0 <= i < |Segmented(u, g, q).value.value.text|
                        && !u.isSpace(Segmented(u, g, q).value.value.text[i])
  {
    SegmentMeaning(u, g, q);
    hide Segmented, Sentences, SoundBy;
    SliceNotBlank(u, q, Segmented(u, g, q).value.value);
  }

  lemma {:induction false} SliceNotBlank(u: Unicode, q: Query, c: Candidate)
    requires 0 <= q.start && Exactly(q, Inside(Tokens(u, q.text), q.start, q.stableEnd), c)
    ensures exists i :: 0 <= i < |c.text| && !u.isSpace(c.text[i])
  {
    var all := Tokens(u, q.text);
    var ts := Inside(all, q.start, q.stableEnd);
    TokensOrdered(u, q.text, 0);
    InsideOrdered(all, q.start, q.stableEnd, 0);
    assert ts[0] in all;
    var k :| 0 <= k < |all| && all[k] == ts[0];
    TokensExact(u, q.text, 0, k);
    assert ts[0].end <= ts[c.tokenCount - 1].end;
    assert c.text[ts[0].start - c.start] == q.text[ts[0].start];
  }
}
