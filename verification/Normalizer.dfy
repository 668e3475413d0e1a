/** The source timeline of the PCM normalizer (dsp.py): which frames it emits, when they
    start and how many samples they hold. Sample values and the resampler are oracles;
    only how many samples the resampler returns matters here. */
module Normalizer {
  import opened Wrappers

  const RATE := 16000
  const NS := 1000000000
  const SAMPLE_NS := 62500
  const BLOCK := 512

  datatype Format = Format(rate: nat, origin: int, maxDrift: nat)
  {
    predicate Valid() {
      8000 <= rate <= 192000 && maxDrift >= 1
    }
  }

  /** `resampled` is how many samples the resampler returns for it. */
  datatype Chunk = Chunk(
    sequence: nat, device: nat, qpc: nat, frames: nat, discontinuity: bool, timestampError: bool,
    decodable: bool, resampled: nat)

  /** A frame of the `run`-th continuous run. */
  datatype Frame = Frame(run: nat, sequence: nat, start: int, count: nat)
  {
    function End(): int {
      start + count * SAMPLE_NS
    }
  }

  datatype Error = Closed | Undecodable | BadResampler

  /** What a call leaves and the frames it has cut. It returns them, unless it raises: then
      they are lost with the exception. */
  datatype Outcome = Sent(s: State, cut: seq<Frame>) | Raised(s: State, cut: seq<Frame>, error: Error)

  datatype State = State(
    run: nat, pending: nat, last: Option<Chunk>, anchor: Option<int>, anchorQpc: nat, anchorDevice: nat,
    input: nat, position: nat, sequence: nat, lastEnd: int, closed: bool, alarm: bool)

  const Fresh := State(0, 0, None, None, 0, 0, 0, 0, 0, 0, false, false)

  function Cleared(s: State): State {
    State(s.run + 1, 0, None, None, 0, 0, 0, 0, 0, s.lastEnd, s.closed, false)
  }

  function Div(a: nat, b: nat): nat
    requires b > 0
  {
    a / b
  }

  /** How many output samples the run's input stands for, rounded down. */
  function Due(f: Format, input: nat): nat
    requires f.Valid()
  {
    Div(input * RATE, f.rate)
  }

  // -------- Emitting

  function Emit(s: State, count: nat): (State, Frame)
    requires s.anchor.Some? && count <= s.pending
  {
    var frame := Frame(s.run, s.sequence, s.anchor.value + s.position * SAMPLE_NS, count);
    (s.(pending := s.pending - count, sequence := s.sequence + 1, position := s.position + count,
        lastEnd := frame.End()),
     frame)
  }

  /** Whole blocks, and at the end of a run what is left. */
  function Chop(s: State, final: bool): (State, seq<Frame>)
    requires s.anchor.Some?
    decreases s.pending
  {
    if s.pending >= BLOCK || (final && s.pending > 0) then
      var out := Emit(s, if s.pending < BLOCK then s.pending else BLOCK);
      var rest := Chop(out.0, final);
      (rest.0, [out.1] + rest.1)
    else (s, [])
  }

  function Output(f: Format, s: State, n: nat, final: bool): Outcome
    requires f.Valid() && s.anchor.Some?
  {
    if n > RATE * 2 then Raised(s, [], BadResampler)
    else if !final then Chopped(s.(pending := s.pending + n), false)
    else
      var remaining := Due(f, s.input) - s.position - s.pending;
      if remaining < 0 || n > remaining + 1 then Raised(s, [], BadResampler)
      else Chopped(s.(pending := s.pending + if n < remaining then n else remaining), true)
  }

  function Chopped(s: State, final: bool): Outcome
    requires s.anchor.Some?
  {
    var r := Chop(s, final);
    Sent(r.0, r.1)
  }

  /** How many samples the resampler still gives at the end of a run. */
  function Tail(f: Format, tail: nat): nat {
    if f.rate != RATE then tail else 0
  }

  /** The run ends: the resampler's tail, trimmed to the completed source duration. */
  function FinishRun(f: Format, s: State, tail: nat): Outcome
    requires f.Valid()
  {
    if s.anchor.None? then Sent(s, [])
    else
      var out := Output(f, s, Tail(f, tail), true);
      if out.Sent? && out.s.position != Due(f, s.input) then Raised(out.s, out.cut, BadResampler) else out
  }

  // -------- Pushing

  function QpcStep(f: Format, previous: Chunk, chunk: Chunk): int
    requires f.Valid()
  {
    (chunk.qpc - previous.qpc) * 100 - (chunk.device - previous.device) * NS / f.rate
  }

  function Abs(x: int): int {
    if x < 0 then -x else x
  }

  predicate Breaks(f: Format, previous: Chunk, chunk: Chunk)
    requires f.Valid()
  {
    || chunk.discontinuity || chunk.sequence != previous.sequence + 1
    || chunk.device != previous.device + previous.frames
    || Abs(QpcStep(f, previous, chunk)) > f.maxDrift
  }

  function AnchorNs(f: Format, chunk: Chunk): int {
    (chunk.qpc - f.origin) * 100
  }

  /** The run is finished and a new one begins, if the chunk breaks it. */
  function Broken(f: Format, s: State, chunk: Chunk, tail: nat): Outcome
    requires f.Valid()
  {
    if s.last.Some? && Breaks(f, s.last.value, chunk) then Gap(f, s, tail) else Sent(s, [])
  }

  function Gap(f: Format, s: State, tail: nat): Outcome
    requires f.Valid()
  {
    var out := FinishRun(f, s, tail);
    if out.Sent? then Sent(Cleared(out.s), out.cut) else out
  }

  function Anchored(f: Format, s: State, chunk: Chunk): State {
    if s.anchor.Some? then s
    else s.(anchor := Some(AnchorNs(f, chunk)), anchorQpc := chunk.qpc, anchorDevice := chunk.device)
  }

  /** The chunk's own samples are counted in an anchored run. */
  function Fed(f: Format, s: State, chunk: Chunk): State
    requires f.Valid()
  {
    var drift := (chunk.qpc - s.anchorQpc) * 100 - (chunk.device - s.anchorDevice) * NS / f.rate;
    s.(alarm := Abs(drift) > f.maxDrift, input := s.input + chunk.frames)
  }

  /** How many samples the chunk itself adds to the output. */
  function Own(f: Format, chunk: Chunk): nat {
    if f.rate != RATE then chunk.resampled else chunk.frames
  }

  function Accepted(f: Format, s: State, chunk: Chunk): Outcome
    requires f.Valid() && s.anchor.Some?
  {
    var out := Output(f, Fed(f, s, chunk), Own(f, chunk), false);
    if out.Sent? then Sent(out.s.(last := Some(chunk)), out.cut) else out
  }

  predicate Behind(f: Format, s: State, chunk: Chunk) {
    s.anchor.None? && AnchorNs(f, chunk) < s.lastEnd
  }

  predicate Decodable(f: Format, chunk: Chunk) {
    chunk.decodable && 0 < chunk.frames <= f.rate
  }

  /** One chunk. Undecodable chunks are refused before anything changes. A later error
      leaves what was done so far. */
  function Push(f: Format, s: State, chunk: Chunk, tail: nat): Outcome
    requires f.Valid()
  {
    if s.closed then Raised(s, [], Closed)
    else if !Decodable(f, chunk) then Raised(s, [], Undecodable)
    else if chunk.timestampError then Gap(f, s, tail)
    else
      var b := Broken(f, s, chunk, tail);
      if b.Raised? then b
      else if Behind(f, b.s, chunk) then Sent(Cleared(b.s), b.cut)
      else
        var a := Accepted(f, Anchored(f, b.s, chunk), chunk);
        a.(cut := b.cut + a.cut)
  }

  function Flush(f: Format, s: State, tail: nat): Outcome
    requires f.Valid()
  {
    if s.closed then Sent(s, [])
    else
      var out := FinishRun(f, s, tail);
      if out.Sent? then Sent(Cleared(out.s).(closed := true), out.cut) else out
  }

  function Reset(s: State): Outcome {
    if !s.closed then Raised(s, [], Closed) else Sent(Cleared(s).(closed := false), [])
  }

  datatype Step = DoPush(chunk: Chunk, tail: nat) | DoFlush(tail: nat) | DoReset

  function Do(f: Format, s: State, step: Step): Outcome
    requires f.Valid()
  {
    match step
    case DoPush(chunk, tail) => Push(f, s, chunk, tail)
    case DoFlush(tail) => Flush(f, s, tail)
    case DoReset => Reset(s)
  }

  // -------- What one output adds

  function Total(frames: seq<Frame>): nat {
    if frames == [] then 0 else frames[0].count + Total(frames[1..])
  }

  /** Consecutive frames of the run, from `sequence` and `position` on. */
  ghost predicate Block(frames: seq<Frame>, run: nat, sequence: nat, start: int) {
    frames == [] ||
    (frames[0].run == run && frames[0].sequence == sequence && frames[0].start == start && 0 < frames[0].count <= BLOCK
     && Block(frames[1..], run, sequence + 1, frames[0].End()))
  }

  ghost predicate SameRun(s: State, r: State) {
    r.run == s.run && r.anchor == s.anchor && r.input == s.input && r.last == s.last && r.closed == s.closed
  }

  ghost predicate Extends(s: State, r: State, frames: seq<Frame>)
    requires s.anchor.Some?
  {
    && SameRun(s, r) && Block(frames, s.run, s.sequence, s.anchor.value + s.position * SAMPLE_NS)
    && r.position == s.position + Total(frames) && r.sequence == s.sequence + |frames|
    && r.lastEnd == if frames == [] then s.lastEnd else r.anchor.value + r.position * SAMPLE_NS
  }

  lemma {:induction false} ChopExtends(s: State, final: bool)
    requires s.anchor.Some?
    ensures var r := Chop(s, final);
      && Extends(s, r.0, r.1) && r.0.pending + Total(r.1) == s.pending
      && r.0.pending < BLOCK && (final ==> r.0.pending == 0)
    decreases s.pending
  {
    if s.pending >= BLOCK || (final && s.pending > 0) {
      var out := Emit(s, if s.pending < BLOCK then s.pending else BLOCK);
      ChopExtends(out.0, final);
      var rest := Chop(out.0, final);
      assert ([out.1] + rest.1)[1..] == rest.1;
    }
  }

  lemma {:induction false} OutputExtends(f: Format, s: State, n: nat, final: bool)
    requires f.Valid() && s.anchor.Some?
    ensures var r := Output(f, s, n, final);
      && Extends(s, r.s, r.cut) && (r.Raised? ==> r.cut == [] && r.s == s)
      && (r.Sent? ==> r.s.pending + Total(r.cut) == s.pending + if final then Allowed(f, s, n) else n)
      && (r.Sent? && final ==> r.s.pending == 0)
  {
    hide Chop, Due;
    var r := Output(f, s, n, final);
    if r.Sent? {
      var more := if final then Allowed(f, s, n) else n;
      ChopExtends(s.(pending := s.pending + more), final);
      hide Extends, Output;
      ExtendsSame(s, s.pending + more, r.s, r.cut);
    }
  }

  /** How many of `n` last samples fit the run's completed duration. */
  function Allowed(f: Format, s: State, n: nat): int
    requires f.Valid()
  {
    var remaining := Due(f, s.input) - s.position - s.pending;
    if n < remaining then n else remaining
  }

  lemma {:induction false} FinishExtends(f: Format, s: State, tail: nat)
    requires f.Valid() && s.anchor.Some?
    ensures var r := FinishRun(f, s, tail);
      Extends(s, r.s, r.cut) && (r.Sent? ==> r.s.position == Due(f, s.input) && r.s.pending == 0)
  {
    OutputExtends(f, s, Tail(f, tail), true);
    hide Output, Extends, Due;
  }

  lemma {:induction false} ExtendsSame(s: State, pending: nat, r: State, frames: seq<Frame>)
    requires s.anchor.Some? && Extends(s.(pending := pending), r, frames)
    ensures Extends(s, r, frames)
  {
  }

  // -------- Every frame ever cut

  /** The normalizer, every frame it has cut, and the input of every finished run. */
  datatype Book = Book(s: State, cut: seq<Frame>, finished: map<nat, nat>)

  const Blank := Book(Fresh, [], map[])

  function Of(frames: seq<Frame>, run: nat): seq<Frame> {
    if frames == [] then []
    else (if frames[0].run == run then [frames[0]] else []) + Of(frames[1..], run)
  }

  /** Numbered from zero without a gap. */
  ghost predicate Numbered(frames: seq<Frame>) {
    forall k :: 0 <= k < |frames| ==> frames[k].sequence == k
  }

  /** Never overlapping, never rewinding. */
  ghost predicate Forward(frames: seq<Frame>) {
    && (forall i :: 0 <= i < |frames| ==> frames[i].start < frames[i].End())
    && (forall i, j :: 0 <= i < j < |frames| ==> frames[i].End() <= frames[j].start)
  }

  /** In each run frames are numbered from zero without a gap, whether returned or lost; a
      finished run has cut exactly its input's duration, rounded down. */
  ghost predicate RunOk(f: Format, b: Book, run: nat)
    requires f.Valid()
  {
    var mine := Of(b.cut, run);
    && Numbered(mine)
    && (run in b.finished ==> run < b.s.run && Total(mine) == Due(f, b.finished[run]))
    && (run < b.s.run && run !in b.finished ==> mine == [])
    && (run == b.s.run ==> |mine| == b.s.sequence && Total(mine) == b.s.position)
    && (run > b.s.run ==> mine == [])
  }

  /** Nothing cut lies beyond where the next frame would start. */
  ghost predicate Tidy(s: State) {
    && 0 <= s.lastEnd
    && (s.anchor.Some? ==> s.lastEnd <= s.anchor.value + s.position * SAMPLE_NS)
    && (s.anchor.None? ==> s.position == 0 && s.input == 0 && s.sequence == 0 && s.pending == 0)
    && (s.last.Some? ==> s.anchor.Some?) && (s.closed ==> s.anchor.None?)
  }

  ghost predicate Inv(f: Format, b: Book) {
    && f.Valid() && Tidy(b.s) && Forward(b.cut) && (forall run :: RunOk(f, b, run))
    && (forall i :: 0 <= i < |b.cut| ==> b.cut[i].End() <= b.s.lastEnd)
  }

  lemma {:induction false} OfAppend(a: seq<Frame>, b: seq<Frame>, run: nat)
    ensures Of(a + b, run) == Of(a, run) + Of(b, run)
  {
    if a == [] {
      assert a + b == b;
    } else {
      assert (a + b)[0] == a[0] && (a + b)[1..] == a[1..] + b;
      OfAppend(a[1..], b, run);
      var mine := if a[0].run == run then [a[0]] else [];
      assert mine + (Of(a[1..], run) + Of(b, run)) == (mine + Of(a[1..], run)) + Of(b, run);
    }
  }

  lemma {:induction false} TotalAppend(a: seq<Frame>, b: seq<Frame>)
    ensures Total(a + b) == Total(a) + Total(b)
  {
    if a == [] {
      assert a + b == b;
    } else {
      assert (a + b)[1..] == a[1..] + b;
      TotalAppend(a[1..], b);
    }
  }

  lemma {:induction false} BlockOf(frames: seq<Frame>, run: nat, sequence: nat, start: int, other: nat)
    requires Block(frames, run, sequence, start)
    ensures Of(frames, other) == if other == run then frames else []
    ensures forall k :: 0 <= k < |frames| ==> frames[k].sequence == sequence + k
  {
    if frames != [] {
      BlockOf(frames[1..], run, sequence + 1, frames[0].End(), other);
      forall k | 0 <= k < |frames|
        ensures frames[k].sequence == sequence + k
      {
        if k > 0 { assert frames[k] == frames[1..][k - 1]; }
      }
    }
  }

  lemma {:induction false} BlockForward(frames: seq<Frame>, run: nat, sequence: nat, start: int)
    requires Block(frames, run, sequence, start)
    ensures Forward(frames)
    ensures forall i :: 0 <= i < |frames| ==>
      start <= frames[i].start && frames[i].End() <= start + Total(frames) * SAMPLE_NS
  {
    if frames != [] {
      BlockForward(frames[1..], run, sequence + 1, frames[0].End());
      forall i | 0 <= i < |frames|
        ensures start <= frames[i].start < frames[i].End() <= start + Total(frames) * SAMPLE_NS
      {
        if i > 0 { assert frames[i] == frames[1..][i - 1]; }
      }
      forall i, j | 0 <= i < j < |frames|
        ensures frames[i].End() <= frames[j].start
      {
        assert frames[j] == frames[1..][j - 1];
        if i > 0 { assert frames[i] == frames[1..][i - 1]; }
      }
    }
  }

  /** More of the current run is cut. */
  lemma {:induction false} ExtendKeeps(f: Format, b: Book, r: State, frames: seq<Frame>)
    requires Inv(f, b) && b.s.anchor.Some? && Extends(b.s, r, frames)
    ensures Inv(f, b.(s := r, cut := b.cut + frames))
  {
    var y := b.(s := r, cut := b.cut + frames);
    BlockForward(frames, b.s.run, b.s.sequence, b.s.anchor.value + b.s.position * SAMPLE_NS);
    hide Due, RunOk, Block;
    forall run
      ensures RunOk(f, y, run)
    {
      RunExtends(f, b, r, frames, run);
    }
  }

  lemma {:induction false} RunExtends(f: Format, b: Book, r: State, frames: seq<Frame>, run: nat)
    requires f.Valid() && RunOk(f, b, run) && b.s.anchor.Some? && Extends(b.s, r, frames)
    ensures RunOk(f, b.(s := r, cut := b.cut + frames), run)
  {
    hide Due, Block, Of, Total;
    OfAppend(b.cut, frames, run);
    BlockOf(frames, b.s.run, b.s.sequence, b.s.anchor.value + b.s.position * SAMPLE_NS, run);
    TotalAppend(Of(b.cut, run), Of(frames, run));
    assert Of(b.cut, run) + [] == Of(b.cut, run);
  }

  /** The run is over; the next has cut nothing. A run that cut nothing of nothing may
      stay unrecorded. */
  lemma {:induction false} ClearKeeps(f: Format, b: Book, r: State)
    requires Inv(f, b) && r == Cleared(b.s).(closed := r.closed)
    requires b.s.anchor.Some? ==> b.s.position == Due(f, b.s.input)
    ensures Inv(f, b.(s := r, finished := b.finished[b.s.run := b.s.input]))
    ensures b.s.anchor.None? ==> Inv(f, b.(s := r))
  {
    DueOfNothing(f);
    var y, z := b.(s := r, finished := b.finished[b.s.run := b.s.input]), b.(s := r);
    hide Due;
    forall run
      ensures RunOk(f, y, run) && (b.s.anchor.None? ==> RunOk(f, z, run))
    {
      assert RunOk(f, b, run);
    }
  }

  /** The book after a call. */
  ghost function After(b: Book, out: Outcome): Book {
    Book(out.s, b.cut + out.cut, if out.s.run > b.s.run then b.finished[b.s.run := b.s.input] else b.finished)
  }

  lemma {:induction false} FinishKeeps(f: Format, b: Book, tail: nat, closed: bool)
    requires Inv(f, b)
    ensures var out := FinishRun(f, b.s, tail);
      && Inv(f, After(b, out)) && out.s.run == b.s.run && out.s.closed == b.s.closed
      && (out.Sent? ==> Inv(f, After(b, Sent(Cleared(out.s).(closed := closed), out.cut))))
  {
    var out := FinishRun(f, b.s, tail);
    var y := b.(s := out.s, cut := b.cut + out.cut);
    if b.s.anchor.Some? {
      FinishExtends(f, b.s, tail);
      hide FinishRun, Due;
      ExtendKeeps(f, b, out.s, out.cut);
    } else {
      assert y == b by { assert b.cut + [] == b.cut; }
    }
    hide Inv, Due;
    if out.Sent? { ClearKeeps(f, y, Cleared(out.s).(closed := closed)); }
  }

  lemma {:induction false} GapKeeps(f: Format, b: Book, tail: nat)
    requires Inv(f, b)
    ensures var out := Gap(f, b.s, tail);
      && Inv(f, After(b, out)) && out.s.closed == b.s.closed
      && out.s.run == if out.Sent? then b.s.run + 1 else b.s.run
  {
    FinishKeeps(f, b, tail, b.s.closed);
  }

  lemma {:induction false} AcceptKeeps(f: Format, b: Book, chunk: Chunk)
    requires Inv(f, b) && !b.s.closed && !Behind(f, b.s, chunk)
    ensures var out := Accepted(f, Anchored(f, b.s, chunk), chunk);
      Inv(f, b.(s := out.s, cut := b.cut + out.cut)) && out.s.run == b.s.run
  {
    var fed := Fed(f, Anchored(f, b.s, chunk), chunk);
    var out := Accepted(f, Anchored(f, b.s, chunk), chunk);
    hide Due, Output;
    InputKeeps(f, b, fed);
    OutputExtends(f, fed, Own(f, chunk), false);
    ExtendKeeps(f, b.(s := fed), out.s.(last := fed.last), out.cut);
    InputKeeps(f, b.(s := out.s.(last := fed.last), cut := b.cut + out.cut), out.s);
  }

  /** Only the anchor, the input count and what was last seen change. */
  lemma {:induction false} InputKeeps(f: Format, b: Book, r: State)
    requires Inv(f, b) && r.run == b.s.run && r.position == b.s.position && r.sequence == b.s.sequence
    requires r.lastEnd == b.s.lastEnd && r.anchor.Some? && !r.closed
    requires r.anchor == b.s.anchor || (b.s.anchor.None? && r.anchor.value >= b.s.lastEnd)
    ensures Inv(f, b.(s := r))
  {
    hide Due;
    forall run
      ensures RunOk(f, b.(s := r), run)
    {
      assert RunOk(f, b, run);
    }
  }

  lemma {:induction false} BrokenKeeps(f: Format, b: Book, chunk: Chunk, tail: nat)
    requires Inv(f, b)
    ensures var out := Broken(f, b.s, chunk, tail);
      && Inv(f, After(b, out)) && out.s.closed == b.s.closed && b.s.run <= out.s.run
      && (out.s.run == b.s.run && out.Sent? ==> out == Sent(b.s, []))
  {
    assert f.Valid();
    hide Inv, Gap, Breaks;
    GapKeeps(f, b, tail);
    assert After(b, Sent(b.s, [])) == b by { assert b.cut + [] == b.cut; }
  }

  /** A chunk keeps the record of every frame cut, whether the call returns or raises. */
  lemma {:induction false} PushKeeps(f: Format, b: Book, chunk: Chunk, tail: nat)
    requires Inv(f, b)
    ensures Inv(f, After(b, Push(f, b.s, chunk, tail)))
  {
    assert f.Valid();
    hide Inv, Gap, Accepted, Breaks, Due, Broken, Behind;
    GapKeeps(f, b, tail);
    BrokenKeeps(f, b, chunk, tail);
    assert After(b, Raised(b.s, [], Closed)) == b by { assert b.cut + [] == b.cut; }
    var t := Broken(f, b.s, chunk, tail);
    if !b.s.closed && Decodable(f, chunk) && !chunk.timestampError && t.Sent? {
      AfterBreak(f, b, t, chunk, tail);
    }
  }

  /** The rest of a chunk, once any gap before it is over. */
  lemma {:induction false} AfterBreak(f: Format, b: Book, t: Outcome, chunk: Chunk, tail: nat)
    requires Inv(f, b) && t.Sent? && Inv(f, After(b, t)) && t.s.closed == b.s.closed == false && b.s.run <= t.s.run
    requires t.s.run == b.s.run ==> t == Sent(b.s, [])
    ensures Behind(f, t.s, chunk) ==> Inv(f, After(b, Sent(Cleared(t.s), t.cut)))
    ensures !Behind(f, t.s, chunk) ==>
      var a := Accepted(f, Anchored(f, t.s, chunk), chunk); Inv(f, After(b, a.(cut := t.cut + a.cut)))
  {
    assert f.Valid();
    hide Inv, Accepted, Due;
    if Behind(f, t.s, chunk) {
      ClearKeeps(f, After(b, t), Cleared(t.s));
    } else {
      var a := Accepted(f, Anchored(f, t.s, chunk), chunk);
      AcceptKeeps(f, After(b, t), chunk);
      assert (b.cut + t.cut) + a.cut == b.cut + (t.cut + a.cut);
    }
  }

  lemma {:induction false} FlushKeeps(f: Format, b: Book, tail: nat)
    requires Inv(f, b)
    ensures Inv(f, After(b, Flush(f, b.s, tail)))
  {
    assert f.Valid();
    hide Inv, FinishRun;
    FinishKeeps(f, b, tail, true);
    assert b.cut + [] == b.cut;
  }

  lemma {:induction false} ResetKeeps(f: Format, b: Book)
    requires Inv(f, b)
    ensures Inv(f, After(b, Reset(b.s)))
  {
    assert b.cut + [] == b.cut;
    if b.s.closed { ClearKeeps(f, b, Reset(b.s).s); }
  }

  lemma {:induction false} DueOfNothing(f: Format)
    requires f.Valid()
    ensures Due(f, 0) == 0
  {
  }

  lemma {:induction false} DoKeeps(f: Format, b: Book, step: Step)
    requires Inv(f, b)
    ensures f.Valid() && Inv(f, After(b, Do(f, b.s, step)))
  {
    assert f.Valid();
    hide Inv, Push, Flush, Reset;
    match step
    case DoPush(chunk, tail) => PushKeeps(f, b, chunk, tail);
    case DoFlush(tail) => FlushKeeps(f, b, tail);
    case DoReset => ResetKeeps(f, b);
  }

  // -------- Time and numbers only move forward

  /** Time and numbers only move forward. */
  ghost predicate Later(s: State, r: State) {
    && Tidy(r) && s.lastEnd <= r.lastEnd
    && (s.run < r.run || (s.run == r.run && s.sequence <= r.sequence))
  }

  lemma {:induction false} OutputLater(f: Format, s: State, n: nat, final: bool)
    requires f.Valid() && Tidy(s) && s.anchor.Some?
    ensures Later(s, Output(f, s, n, final).s) && SameRun(s, Output(f, s, n, final).s)
  {
    OutputExtends(f, s, n, final);
  }

  lemma {:induction false} FinishLater(f: Format, s: State, tail: nat)
    requires f.Valid() && Tidy(s)
    ensures Later(s, FinishRun(f, s, tail).s) && FinishRun(f, s, tail).s.closed == s.closed
    ensures FinishRun(f, s, tail).s.run == s.run
  {
    hide Output;
    if s.anchor.Some? { OutputLater(f, s, Tail(f, tail), true); }
  }

  lemma {:induction false} BrokenLater(f: Format, s: State, chunk: Chunk, tail: nat)
    requires f.Valid() && Tidy(s)
    ensures Later(s, Broken(f, s, chunk, tail).s) && Broken(f, s, chunk, tail).s.closed == s.closed
  {
    hide FinishRun;
    FinishLater(f, s, tail);
  }

  lemma {:induction false} AcceptLater(f: Format, s: State, chunk: Chunk)
    requires f.Valid() && Tidy(s) && !s.closed && !Behind(f, s, chunk)
    ensures Later(s, Accepted(f, Anchored(f, s, chunk), chunk).s)
  {
    hide Output, Later;
    var fed := Fed(f, Anchored(f, s, chunk), chunk);
    assert Tidy(fed) && fed.anchor.Some?;
    OutputLater(f, fed, Own(f, chunk), false);
    AcceptedLater(s, fed, Output(f, fed, Own(f, chunk), false).s, chunk);
  }

  lemma {:induction false} AcceptedLater(s: State, fed: State, r: State, chunk: Chunk)
    requires fed.run == s.run && fed.sequence == s.sequence && fed.lastEnd == s.lastEnd && fed.anchor.Some?
    requires Later(fed, r) && SameRun(fed, r)
    ensures Later(s, r) && Later(s, r.(last := Some(chunk)))
  {
  }

  /** Whatever a call does, raising or not, time and numbers move forward. */
  lemma {:induction false} PushLater(f: Format, s: State, chunk: Chunk, tail: nat)
    requires f.Valid() && Tidy(s)
    ensures Later(s, Push(f, s, chunk, tail).s)
  {
    hide FinishRun, Breaks, Accepted, Behind;
    FinishLater(f, s, tail);
    BrokenLater(f, s, chunk, tail);
    var b := Broken(f, s, chunk, tail);
    if !s.closed && b.Sent? && !Behind(f, b.s, chunk) {
      AcceptLater(f, b.s, chunk);
    }
  }

  lemma {:induction false} FlushLater(f: Format, s: State, tail: nat)
    requires f.Valid() && Tidy(s)
    ensures Later(s, Flush(f, s, tail).s)
  {
    hide FinishRun;
    FinishLater(f, s, tail);
  }

  // -------- Which calls lose frames

  /** What is pending and the resampler's tail leave the run's duration incomplete. */
  predicate FallsShort(f: Format, s: State, tail: nat)
    requires f.Valid()
  {
    && s.anchor.Some? && Tail(f, tail) <= RATE * 2
    && s.position + s.pending + Tail(f, tail) < Due(f, s.input) && s.pending + Tail(f, tail) > 0
  }

  /** They complete it, with at most one sample too many from the tail. */
  predicate Completes(f: Format, s: State, tail: nat)
    requires f.Valid()
  {
    var sent, extra := s.position + s.pending, Tail(f, tail);
    s.anchor.Some? && extra <= RATE * 2 && sent <= Due(f, s.input) <= sent + extra <= Due(f, s.input) + 1
  }

  predicate Gaps(f: Format, s: State, chunk: Chunk)
    requires f.Valid()
  {
    s.last.Some? && Breaks(f, s.last.value, chunk)
  }

  /** The gap before the chunk completes a run that still owes frames, and then the chunk's
      own output is out of bounds. */
  predicate Drowns(f: Format, s: State, chunk: Chunk, tail: nat)
    requires f.Valid()
  {
    && !chunk.timestampError && Gaps(f, s, chunk) && Completes(f, s, tail) && s.position < Due(f, s.input)
    && s.anchor.value + Due(f, s.input) * SAMPLE_NS <= AnchorNs(f, chunk) && Own(f, chunk) > RATE * 2
  }

  /** The call will lose frames of the current run. */
  predicate Loses(f: Format, s: State, step: Step)
    requires f.Valid()
  {
    match step
    case DoPush(chunk, tail) =>
      && !s.closed && Decodable(f, chunk)
      && (((chunk.timestampError || Gaps(f, s, chunk)) && FallsShort(f, s, tail)) || Drowns(f, s, chunk, tail))
    case DoFlush(tail) => !s.closed && FallsShort(f, s, tail)
    case DoReset => false
  }

  lemma {:induction false} BlockTotal(frames: seq<Frame>, run: nat, sequence: nat, start: int)
    requires Block(frames, run, sequence, start)
    ensures frames != [] <==> Total(frames) > 0
  {
  }

  /** Finishing a run succeeds exactly when it completes its duration, and loses frames
      exactly when it falls short. */
  lemma {:induction false} FinishIff(f: Format, s: State, tail: nat)
    requires f.Valid() && s.anchor.Some?
    ensures var out := FinishRun(f, s, tail);
      && (out.Sent? <==> Completes(f, s, tail))
      && (out.Sent? ==> (out.cut != [] <==> s.position < Due(f, s.input)))
      && (out.Raised? && out.cut != [] <==> FallsShort(f, s, tail))
  {
    var out := FinishRun(f, s, tail);
    OutputExtends(f, s, Tail(f, tail), true);
    BlockTotal(out.cut, s.run, s.sequence, s.anchor.value + s.position * SAMPLE_NS);
    hide Due, Chop;
  }

  /** Where the clock stands after a finished run. */
  lemma {:induction false} FinishEnd(f: Format, s: State, tail: nat)
    requires f.Valid() && s.anchor.Some? && FinishRun(f, s, tail).Sent? && s.position < Due(f, s.input)
    ensures FinishRun(f, s, tail).s.lastEnd == s.anchor.value + Due(f, s.input) * SAMPLE_NS
  {
    FinishIff(f, s, tail);
    FinishExtends(f, s, tail);
    hide FinishRun, Due;
  }

  lemma {:induction false} GapIff(f: Format, s: State, tail: nat)
    requires f.Valid() && Tidy(s)
    ensures var out := Gap(f, s, tail);
      && (out.Raised? && out.cut != [] <==> FallsShort(f, s, tail))
      && (out.Sent? && out.cut != [] <==> Completes(f, s, tail) && s.position < Due(f, s.input))
      && (out.Sent? && out.cut != [] ==>
            out.s.anchor.None? && out.s.lastEnd == s.anchor.value + Due(f, s.input) * SAMPLE_NS)
  {
    hide Due;
    if s.anchor.Some? {
      FinishIff(f, s, tail);
      hide FinishRun;
      if FinishRun(f, s, tail).Sent? && s.position < Due(f, s.input) { FinishEnd(f, s, tail); }
    }
  }

  lemma {:induction false} AcceptedIff(f: Format, s: State, chunk: Chunk)
    requires f.Valid() && s.anchor.Some?
    ensures Accepted(f, s, chunk).Raised? <==> Own(f, chunk) > RATE * 2
    ensures Accepted(f, s, chunk).Raised? ==> Accepted(f, s, chunk).cut == []
  {
  }

  /** A caller can tell beforehand whether a call loses frames, and only those of the
      current run can be lost. */
  lemma {:induction false} LosesIff(f: Format, s: State, step: Step)
    requires f.Valid() && Tidy(s)
    ensures var out := Do(f, s, step); out.Raised? && out.cut != [] <==> Loses(f, s, step)
  {
    hide FinishRun, Breaks, Accepted, Due, FallsShort, Completes;
    match step
    case DoPush(chunk, tail) => PushLosesIff(f, s, chunk, tail);
    case DoFlush(tail) => FlushLosesIff(f, s, tail);
    case DoReset =>
  }

  lemma {:induction false} FlushLosesIff(f: Format, s: State, tail: nat)
    requires f.Valid()
    ensures var out := Flush(f, s, tail); out.Raised? && out.cut != [] <==> Loses(f, s, DoFlush(tail))
  {
    if s.anchor.Some? { FinishIff(f, s, tail); }
    hide Due, Output;
  }

  lemma {:induction false} PushLosesIff(f: Format, s: State, chunk: Chunk, tail: nat)
    requires f.Valid() && Tidy(s)
    ensures var out := Push(f, s, chunk, tail); out.Raised? && out.cut != [] <==> Loses(f, s, DoPush(chunk, tail))
  {
    hide Gap, Breaks, Accepted, Due, FallsShort, Completes;
    GapIff(f, s, tail);
    var b := Broken(f, s, chunk, tail);
    if !s.closed && !chunk.timestampError && b.Sent? && !Behind(f, b.s, chunk) {
      AcceptedIff(f, Anchored(f, b.s, chunk), chunk);
    }
  }

  /** All that is lost belongs to the run that was current. */
  lemma {:induction false} LostOf(f: Format, s: State, step: Step, run: nat)
    requires f.Valid() && Tidy(s) && Do(f, s, step).Raised?
    ensures Of(Do(f, s, step).cut, run) != [] <==> run == s.run && Loses(f, s, step)
  {
    LosesIff(f, s, step);
    RaisedCut(f, s, step);
    hide Do, Loses, Tidy;
    var cut := Do(f, s, step).cut;
    if cut != [] {
      BlockOf(cut, s.run, s.sequence, s.anchor.value + s.position * SAMPLE_NS, run);
    }
  }

  lemma {:induction false} RaisedCut(f: Format, s: State, step: Step)
    requires f.Valid() && Tidy(s) && Do(f, s, step).Raised?
    ensures var cut := Do(f, s, step).cut;
      cut != [] ==> s.anchor.Some? && Block(cut, s.run, s.sequence, s.anchor.value + s.position * SAMPLE_NS)
  {
    if s.anchor.Some? {
      match step
      case DoPush(_, tail) => FinishExtends(f, s, tail);
      case DoFlush(tail) => FinishExtends(f, s, tail);
      case DoReset =>
    }
    hide FinishRun, Block, Breaks, Behind, Due;
    if step.DoPush? && !s.closed && !step.chunk.timestampError {
      var b := Broken(f, s, step.chunk, step.tail);
      if b.Sent? && !Behind(f, b.s, step.chunk) {
        AcceptedIff(f, Anchored(f, b.s, step.chunk), step.chunk);
        assert b.cut + [] == b.cut;
      }
    }
  }

  // -------- Runs

  /** The book, and which of the frames cut were returned and which were lost. */
  datatype World = World(b: Book, returned: seq<Frame>, lost: seq<Frame>)

  const Start := World(Blank, [], [])

  ghost function Apply(f: Format, x: World, step: Step): World
    requires f.Valid()
  {
    var out := Do(f, x.b.s, step);
    World(After(x.b, out), x.returned + if out.Sent? then out.cut else [], x.lost + if out.Sent? then [] else out.cut)
  }

  ghost function Run(f: Format, x: World, steps: seq<Step>): World
    requires f.Valid()
    decreases |steps|
  {
    if steps == [] then x else Run(f, Apply(f, x, steps[0]), steps[1..])
  }

  /** Some call loses frames of the run. */
  ghost predicate LosesIn(f: Format, s: State, steps: seq<Step>, run: nat)
    requires f.Valid()
    decreases |steps|
  {
    steps != [] && ((run == s.run && Loses(f, s, steps[0])) || LosesIn(f, Do(f, s, steps[0]).s, steps[1..], run))
  }

  /** Some call returns a frame of the run. */
  ghost predicate Returns(f: Format, s: State, steps: seq<Step>, run: nat)
    requires f.Valid()
    decreases |steps|
  {
    && steps != []
    && var out := Do(f, s, steps[0]);
      (out.Sent? && Of(out.cut, run) != []) || Returns(f, out.s, steps[1..], run)
  }

  /** Some call loses frames of the run, and a later one returns a frame of it. */
  ghost predicate Holed(f: Format, s: State, steps: seq<Step>, run: nat)
    requires f.Valid()
    decreases |steps|
  {
    && steps != []
    && var rest := Do(f, s, steps[0]).s;
      || (run == s.run && Loses(f, s, steps[0]) && Returns(f, rest, steps[1..], run))
      || Holed(f, rest, steps[1..], run)
  }

  /** Numbers only grow. */
  ghost predicate Rising(frames: seq<Frame>) {
    forall i, j :: 0 <= i < j < |frames| ==> frames[i].sequence < frames[j].sequence
  }

  /** Every frame cut was either returned or lost. */
  ghost predicate Told(x: World, run: nat) {
    var r, l, c := Of(x.returned, run), Of(x.lost, run), Of(x.b.cut, run);
    && |r| + |l| == |c| && Total(r) + Total(l) == Total(c)
    && Rising(r) && (forall k :: 0 <= k < |r| ==> r[k].sequence < |c|)
  }

  ghost predicate Sound(f: Format, x: World) {
    && Inv(f, x.b) && Forward(x.returned) && (forall run :: Told(x, run))
    && (forall g :: g in x.returned || g in x.lost ==> g in x.b.cut)
  }

  lemma {:induction false} InvTidy(f: Format, b: Book)
    requires Inv(f, b)
    ensures f.Valid() && Tidy(b.s) && Forward(b.cut)
    ensures forall run :: Numbered(Of(b.cut, run))
  {
    forall run
      ensures Numbered(Of(b.cut, run))
    {
      assert RunOk(f, b, run);
    }
  }

  /** New frames numbered on from all that was cut keep what was returned contiguous
      exactly if nothing was lost before. */
  lemma {:induction false} NumberedOn(c: seq<Frame>, r: seq<Frame>, lost: nat, more: seq<Frame>)
    requires Numbered(c + more) && |r| + lost == |c|
    ensures Numbered(r + more) <==> Numbered(r) && (more == [] || lost == 0)
    ensures Rising(r) && (forall k :: 0 <= k < |r| ==> r[k].sequence < |c|) ==>
      Rising(r + more) && forall k :: 0 <= k < |r + more| ==> (r + more)[k].sequence < |c + more|
  {
    if Numbered(r + more) {
      forall k | 0 <= k < |r|
        ensures r[k].sequence == k
      {
        assert (r + more)[k] == r[k];
      }
      if more != [] {
        assert (r + more)[|r|] == more[0] == (c + more)[|c|];
      }
    }
    forall k | |r| <= k < |r + more|
      ensures (r + more)[k].sequence == k + lost
    {
      assert (r + more)[k] == more[k - |r|] == (c + more)[k + lost];
    }
  }

  /** A run's share of what one more call leaves. */
  ghost predicate SharesOn(x: World, y: World, run: nat, more: seq<Frame>, sent: bool) {
    && Of(y.b.cut, run) == Of(x.b.cut, run) + more
    && Of(y.returned, run) == (if sent then Of(x.returned, run) + more else Of(x.returned, run))
    && Of(y.lost, run) == (if sent then Of(x.lost, run) else Of(x.lost, run) + more)
  }

  lemma {:induction false} ApplyShares(f: Format, x: World, step: Step, run: nat)
    requires f.Valid()
    ensures var out := Do(f, x.b.s, step); SharesOn(x, Apply(f, x, step), run, Of(out.cut, run), out.Sent?)
  {
    var out := Do(f, x.b.s, step);
    hide Do, Of;
    OfAppend(x.b.cut, out.cut, run);
    if out.Sent? {
      OfAppend(x.returned, out.cut, run);
      assert x.lost + [] == x.lost;
    } else {
      OfAppend(x.lost, out.cut, run);
      assert x.returned + [] == x.returned;
    }
  }

  lemma {:induction false} ToldOn(x: World, y: World, run: nat, more: seq<Frame>, sent: bool)
    requires Told(x, run) && SharesOn(x, y, run, more, sent) && Numbered(Of(y.b.cut, run))
    ensures Told(y, run)
    ensures Numbered(Of(y.returned, run))
      <==> Numbered(Of(x.returned, run)) && !(sent && more != [] && Of(x.lost, run) != [])
  {
    hide Of, Total;
    var r, l, c := Of(x.returned, run), Of(x.lost, run), Of(x.b.cut, run);
    TotalAppend(c, more);
    TotalAppend(if sent then r else l, more);
    NumberedOn(c, r, |l|, more);
  }

  /** One call, seen from one run. */
  lemma {:induction false} ApplyTold(f: Format, x: World, step: Step, run: nat)
    requires Inv(f, x.b) && Told(x, run)
    ensures f.Valid()
    ensures var y, out := Apply(f, x, step), Do(f, x.b.s, step);
            var r, l := Of(x.returned, run), Of(x.lost, run);
      && Told(y, run)
      && (Of(y.lost, run) != [] <==> l != [] || (run == x.b.s.run && Loses(f, x.b.s, step)))
      && (Numbered(Of(y.returned, run)) <==> Numbered(r) && !(out.Sent? && Of(out.cut, run) != [] && l != []))
  {
    InvTidy(f, x.b);
    DoKeeps(f, x.b, step);
    var out := Do(f, x.b.s, step);
    InvTidy(f, After(x.b, out));
    LosesIff(f, x.b.s, step);
    if out.Raised? { LostOf(f, x.b.s, step, run); }
    hide Inv, Do, Loses, Tidy, Of, Total, Numbered, Told;
    ApplyShares(f, x, step, run);
    ToldOn(x, Apply(f, x, step), run, Of(out.cut, run), out.Sent?);
  }

  /** Returned frames never overlap or rewind, since all frames cut do not. */
  lemma {:induction false} ForwardOn(cut: seq<Frame>, returned: seq<Frame>, more: seq<Frame>)
    requires Forward(cut + more) && Forward(returned) && forall g :: g in returned ==> g in cut
    ensures Forward(returned + more)
  {
    assert forall k :: 0 <= k < |more| ==> more[k] == (cut + more)[|cut| + k];
    forall i, j | 0 <= i < |returned| && 0 <= j < |more|
      ensures returned[i].End() <= more[j].start
    {
      assert returned[i] in cut;
      var k :| 0 <= k < |cut| && cut[k] == returned[i];
      assert (cut + more)[k] == cut[k];
    }
  }

  lemma {:induction false} ApplySound(f: Format, x: World, step: Step)
    requires Sound(f, x)
    ensures f.Valid() && Sound(f, Apply(f, x, step))
  {
    InvTidy(f, x.b);
    DoKeeps(f, x.b, step);
    var out := Do(f, x.b.s, step);
    InvTidy(f, After(x.b, out));
    ForwardOn(x.b.cut, x.returned, out.cut);
    hide Inv, Do, Told, Forward;
    forall run
      ensures Told(Apply(f, x, step), run)
    {
      ApplyTold(f, x, step, run);
    }
    assert x.returned + [] == x.returned;
  }

  lemma {:induction false} RunSound(f: Format, x: World, steps: seq<Step>)
    requires Sound(f, x)
    ensures f.Valid() && Sound(f, Run(f, x, steps))
    decreases |steps|
  {
    assert f.Valid();
    hide Sound, Apply;
    if steps != [] {
      ApplySound(f, x, steps[0]);
      RunSound(f, Apply(f, x, steps[0]), steps[1..]);
    }
  }

  lemma {:induction false} RunLosses(f: Format, x: World, steps: seq<Step>, run: nat)
    requires Sound(f, x)
    ensures f.Valid()
    ensures var y, s := Run(f, x, steps), x.b.s; var l := Of(x.lost, run);
      && (Of(y.lost, run) != [] <==> l != [] || LosesIn(f, s, steps, run))
      && (!Numbered(Of(y.returned, run)) <==>
            !Numbered(Of(x.returned, run)) || (l != [] && Returns(f, s, steps, run)) || Holed(f, s, steps, run))
    decreases |steps|
  {
    SoundTold(f, x, run);
    if steps != [] {
      ApplySound(f, x, steps[0]);
      ApplyTold(f, x, steps[0], run);
      hide Sound, Inv, Told, Do, Loses, Of, Numbered;
      RunLosses(f, Apply(f, x, steps[0]), steps[1..], run);
    }
  }

  lemma {:induction false} SoundTold(f: Format, x: World, run: nat)
    requires Sound(f, x)
    ensures f.Valid() && Inv(f, x.b) && RunOk(f, x.b, run) && Told(x, run)
  {
  }

  lemma {:induction false} StartSound(f: Format)
    requires f.Valid()
    ensures Sound(f, Start)
  {
  }

  lemma {:induction false} LostTotal(cut: seq<Frame>, lost: seq<Frame>, run: nat)
    requires Forward(cut) && forall g :: g in lost ==> g in cut
    ensures Total(Of(lost, run)) > 0 <==> Of(lost, run) != []
  {
    if lost != [] {
      assert lost[0] in cut;
      var i :| 0 <= i < |cut| && cut[i] == lost[0];
      assert cut[i].start < cut[i].End();
      LostTotal(cut, lost[1..], run);
      var mine, rest := Of(lost, run), Of(lost[1..], run);
      assert mine == if lost[0].run == run then [lost[0]] + rest else rest;
      assert lost[0].run == run ==> mine[1..] == rest && mine[0] == lost[0];
    }
  }

  /** What came out of one run: numbered from zero without a gap unless a loss was followed
      by a returned frame; and, once finished, exactly its input's duration rounded down,
      less what was lost, which is nothing unless some call lost frames of it. */
  ghost predicate Story(f: Format, steps: seq<Step>, run: nat)
    requires f.Valid()
  {
    var x := Run(f, Start, steps);
    var r, l := Of(x.returned, run), Of(x.lost, run);
    && Rising(r) && (Numbered(r) <==> !Holed(f, Fresh, steps, run))
    && (l != [] <==> LosesIn(f, Fresh, steps, run))
    && (run in x.b.finished ==>
          && Total(r) + Total(l) == Due(f, x.b.finished[run])
          && (Total(r) == Due(f, x.b.finished[run]) <==> !LosesIn(f, Fresh, steps, run)))
    && (run == x.b.s.run ==> |r| + |l| == x.b.s.sequence && Total(r) + Total(l) == x.b.s.position)
    && (run < x.b.s.run && run !in x.b.finished ==> r == [] && l == [])
  }

  /** Over any chunks, gaps, drops, flushes, resets and errors: returned frames never
      overlap or rewind, numbers rise in each run, and every run tells its story. */
  lemma {:induction false} RunKeeps(f: Format, steps: seq<Step>)
    requires f.Valid()
    ensures Forward(Run(f, Start, steps).returned)
    ensures forall run :: Story(f, steps, run)
  {
    StartSound(f);
    RunSound(f, Start, steps);
    assert Forward(Run(f, Start, steps).returned);
    forall run
      ensures Story(f, steps, run)
    {
      RunStory(f, steps, run);
    }
  }

  /** What the books say of one run. */
  lemma {:induction false} Shares(f: Format, x: World, run: nat)
    requires Sound(f, x)
    ensures f.Valid()
    ensures var r, l := Of(x.returned, run), Of(x.lost, run);
      && Rising(r) && (Total(l) > 0 <==> l != [])
      && (run in x.b.finished ==> Total(r) + Total(l) == Due(f, x.b.finished[run]))
      && (run == x.b.s.run ==> |r| + |l| == x.b.s.sequence && Total(r) + Total(l) == x.b.s.position)
      && (run < x.b.s.run && run !in x.b.finished ==> r == [] && l == [])
  {
    SoundTold(f, x, run);
    assert forall g :: g in x.lost ==> g in x.b.cut;
    InvTidy(f, x.b);
    LostTotal(x.b.cut, x.lost, run);
    hide Sound, Inv, Due, Of, Total, Numbered, Rising, Forward;
  }

  lemma {:induction false} RunStory(f: Format, steps: seq<Step>, run: nat)
    requires f.Valid()
    ensures Story(f, steps, run)
  {
    StartSound(f);
    RunSound(f, Start, steps);
    NothingBefore(run);
    RunLosses(f, Start, steps, run);
    Shares(f, Run(f, Start, steps), run);
    hide Sound, Run, Holed, LosesIn, Returns, Due, Of, Total, Numbered, Rising;
  }

  lemma {:induction false} NothingBefore(run: nat)
    ensures Of(Start.returned, run) == [] && Of(Start.lost, run) == [] && Numbered(Of(Start.returned, run))
  {
  }

  // -------- A run with a hole

  const Wide := Format(48000, 0, 20000000)

  /** The resampler gives 100 samples for a second of input; the flush cuts them and then
      raises, since 16000 are due. The next second goes on with the same run. */
  function Hole(): seq<Step> {
    [DoPush(Chunk(0, 0, 0, 48000, false, false, true, 100), 0), DoFlush(0),
     DoPush(Chunk(1, 48000, 10000000, 48000, false, false, true, 512), 0)]
  }

  lemma {:induction false} OneBlock(s: State, count: nat, final: bool)
    requires s.anchor.Some? && s.pending == count && 0 < count <= BLOCK && (final || count == BLOCK)
    ensures Chop(s, final) == (Emit(s, count).0, [Emit(s, count).1])
  {
    var out := Emit(s, count);
    assert Chop(out.0, final) == (out.0, []);
    assert [out.1] + [] == [out.1];
  }

  lemma {:induction false} HoleOpens(s: State)
    requires s == Do(Wide, Fresh, Hole()[0]).s
    ensures Do(Wide, Fresh, Hole()[0]).cut == []
    ensures s == State(0, 100, Some(Hole()[0].chunk), Some(0), 0, 0, 48000, 0, 0, 0, false, false)
  {
  }

  lemma {:induction false} HoleLoses(s: State)
    requires s == State(0, 100, Some(Hole()[0].chunk), Some(0), 0, 0, 48000, 0, 0, 0, false, false)
    ensures var out := Do(Wide, s, DoFlush(0));
      out == Raised(s.(pending := 0, sequence := 1, position := 100, lastEnd := 100 * SAMPLE_NS), [Frame(0, 0, 0, 100)],
                    BadResampler)
  {
    assert Due(Wide, 48000) == 16000;
    OneBlock(s, 100, true);
    hide Chop, Due;
    assert s.(pending := s.pending + 0) == s;
  }

  lemma {:induction false} HoleGoesOn(s: State)
    requires s == State(0, 0, Some(Hole()[0].chunk), Some(0), 0, 0, 48000, 100, 1, 100 * SAMPLE_NS, false, false)
    ensures var out := Do(Wide, s, Hole()[2]); out.Sent? && out.cut == [Frame(0, 1, 100 * SAMPLE_NS, 512)]
  {
    OneBlock(Fed(Wide, s, Hole()[2].chunk).(pending := 512), 512, false);
    hide Chop;
  }

  /** Returned frames can be numbered with a hole: here the run's only frame has number 1. */
  lemma {:induction false} NumbersCanHaveAHole()
    ensures Wide.Valid() && Run(Wide, Start, Hole()).returned == [Frame(0, 1, 100 * SAMPLE_NS, 512)]
    ensures !Numbered(Of(Run(Wide, Start, Hole()).returned, 0))
  {
    hide Do;
    var x1 := Apply(Wide, Start, Hole()[0]);
    HoleOpens(x1.b.s);
    var x2 := Apply(Wide, x1, Hole()[1]);
    HoleLoses(x1.b.s);
    var x3 := Apply(Wide, x2, Hole()[2]);
    HoleGoesOn(x2.b.s);
    assert Hole()[1..][1..] == Hole()[2..] && Hole()[2..][1..] == [];
    assert Run(Wide, Start, Hole()) == Run(Wide, x1, Hole()[1..]) == Run(Wide, x2, Hole()[2..]) == Run(Wide, x3, []);
    assert x3.returned[0].sequence == 1 && Of(x3.returned, 0) == x3.returned;
  }

  // -------- When calls raise

  /** Without resampling every input sample is pending or sent. */
  ghost predicate Balanced(s: State) {
    s.anchor.Some? ==> s.position + s.pending == s.input
  }

  lemma {:induction false} OutputBalanced(f: Format, s: State, n: nat, final: bool)
    requires f.Valid() && f.rate == RATE && s.anchor.Some? && n <= RATE * 2
    requires s.position + s.pending + n == s.input
    ensures var out := Output(f, s, n, final);
      && (final ==> n == 0) ==> out.Sent? && Balanced(out.s) && SameRun(s, out.s)
                                && (final ==> out.s.position == Due(f, s.input))
  {
    assert Due(f, s.input) == s.input;
    ChopExtends(s.(pending := s.pending + n), final);
    assert s.(pending := s.pending + 0) == s;
  }

  /** At 16 kHz finishing a run always succeeds. */
  lemma {:induction false} FinishBalanced(f: Format, s: State, tail: nat)
    requires f.Valid() && f.rate == RATE && Balanced(s)
    ensures FinishRun(f, s, tail).Sent?
  {
    hide Output, Due;
    if s.anchor.Some? { OutputBalanced(f, s, 0, true); }
  }

  lemma {:induction false} PushBalanced(f: Format, s: State, chunk: Chunk, tail: nat)
    requires f.Valid() && f.rate == RATE && Tidy(s) && Balanced(s)
    ensures var r := Push(f, s, chunk, tail);
      Balanced(r.s) && (r.Raised? ==> r.error != BadResampler && r.s == s && r.cut == [])
  {
    hide FinishRun, Breaks, Output, Later;
    FinishBalanced(f, s, tail);
    BrokenLater(f, s, chunk, tail);
    var b := Broken(f, s, chunk, tail);
    assert Tidy(b.s) by { LaterTidy(s, b.s); }
    if chunk.frames <= f.rate {
      OutputBalanced(f, Fed(f, Anchored(f, b.s, chunk), chunk), chunk.frames, false);
    }
  }

  lemma {:induction false} LaterTidy(s: State, r: State)
    requires Later(s, r)
    ensures Tidy(r)
  {
  }

  lemma {:induction false} DoBalanced(f: Format, s: State, step: Step)
    requires f.Valid() && Tidy(s) && f.rate == RATE && Balanced(s)
    ensures var out := Do(f, s, step);
      Tidy(out.s) && Balanced(out.s) && (out.Raised? ==> out.error != BadResampler && out.cut == [])
  {
    hide FinishRun, Broken, Gap, Accepted, Due;
    match step
    case DoPush(chunk, tail) =>
      PushBalanced(f, s, chunk, tail);
      PushLater(f, s, chunk, tail);
    case DoFlush(tail) =>
      FinishBalanced(f, s, tail);
      FlushLater(f, s, tail);
    case DoReset =>
  }

  /** No call raises for the resampler. */
  ghost predicate Calm(f: Format, s: State, steps: seq<Step>)
    requires f.Valid()
    decreases |steps|
  {
    steps != [] ==>
      var out := Do(f, s, steps[0]);
      (out.Raised? ==> out.error != BadResampler) && Calm(f, out.s, steps[1..])
  }

  lemma {:induction false} CalmFrom(f: Format, x: World, steps: seq<Step>)
    requires f.Valid() && Tidy(x.b.s) && f.rate == RATE && Balanced(x.b.s)
    ensures Calm(f, x.b.s, steps) && Run(f, x, steps).lost == x.lost
    decreases |steps|
  {
    hide Tidy, Balanced, Do;
    if steps != [] {
      DoBalanced(f, x.b.s, steps[0]);
      assert x.lost + [] == x.lost;
      CalmFrom(f, Apply(f, x, steps[0]), steps[1..]);
    }
  }

  /** At 16 kHz nothing is resampled: no call of any run raises for the resampler, and no
      frame is ever lost. */
  lemma {:induction false} NativeRateNeverRaises(f: Format, steps: seq<Step>)
    requires f.Valid() && f.rate == RATE
    ensures Calm(f, Fresh, steps) && Run(f, Start, steps).lost == []
  {
    CalmFrom(f, Start, steps);
  }

  // -------- The normalizer itself

  lemma {:induction false} ChopOnce(s: State, final: bool, frames: seq<Frame>)
    requires s.anchor.Some? && (s.pending >= BLOCK || (final && s.pending > 0))
    ensures var out := Emit(s, if s.pending < BLOCK then s.pending else BLOCK);
      && Chop(s, final).0 == Chop(out.0, final).0
      && frames + Chop(s, final).1 == (frames + [out.1]) + Chop(out.0, final).1
  {
    var out := Emit(s, if s.pending < BLOCK then s.pending else BLOCK);
    hide Emit;
    assert frames + ([out.1] + Chop(out.0, final).1) == (frames + [out.1]) + Chop(out.0, final).1;
  }

  class StreamingNormalizer {
    const f: Format
    var run: nat
    var pending: nat
    var last: Option<Chunk>
    var anchor: Option<int>
    var anchorQpc: nat
    var anchorDevice: nat
    var input: nat
    var position: nat
    var sequence: nat
    var lastEnd: int
    var closed: bool
    var alarm: bool

    function Now(): State
      reads this
    {
      State(run, pending, last, anchor, anchorQpc, anchorDevice, input, position, sequence, lastEnd, closed, alarm)
    }

    /** The call returned or raised as `out` says, and left the state it says. */
    predicate Tells(r: Result<seq<Frame>, Error>, out: Outcome)
      reads this
    {
      Now() == out.s && r == if out.Sent? then Ok(out.cut) else Err(out.error)
    }

    constructor (f: Format)
      requires f.Valid()
      ensures Now() == Fresh && this.f == f
    {
      this.f := f;
      run, pending, last, anchor, anchorQpc, anchorDevice := 0, 0, None, None, 0, 0;
      input, position, sequence, lastEnd, closed, alarm := 0, 0, 0, 0, false, false;
    }

    method ClearRun()
      modifies this
      ensures Now() == Cleared(old(Now()))
    {
      run := run + 1;
      pending, last, anchor, anchorQpc, anchorDevice := 0, None, None, 0, 0;
      input, position, sequence, alarm := 0, 0, 0, false;
    }

    /** Cuts what is pending into blocks. */
    method Drain(final: bool) returns (frames: seq<Frame>)
      requires anchor.Some?
      modifies this`pending, this`sequence, this`position, this`lastEnd
      ensures (Now(), frames) == Chop(old(Now()), final)
    {
      frames := [];
      ghost var all := Chop(Now(), final);
      while pending >= BLOCK || (final && pending > 0)
        invariant anchor.Some?
        invariant Chop(Now(), final).0 == all.0 && frames + Chop(Now(), final).1 == all.1
        decreases pending
      {
        ChopOnce(Now(), final, frames);
        var frame := Cut(if pending < BLOCK then pending else BLOCK);
        frames := frames + [frame];
      }
      assert frames + [] == frames;
    }

    method Cut(count: nat) returns (frame: Frame)
      requires anchor.Some? && count <= pending
      modifies this`pending, this`sequence, this`position, this`lastEnd
      ensures (Now(), frame) == Emit(old(Now()), count)
    {
      frame := Frame(run, sequence, anchor.value + position * SAMPLE_NS, count);
      pending, sequence, position := pending - count, sequence + 1, position + count;
      lastEnd := frame.End();
    }

    method Put(n: nat, final: bool) returns (r: Result<seq<Frame>, Error>)
      requires f.Valid() && anchor.Some?
      modifies this`pending, this`sequence, this`position, this`lastEnd
      ensures Tells(r, Output(f, old(Now()), n, final))
    {
      if n > RATE * 2 { return Err(BadResampler); }
      var kept := n;
      if final {
        var remaining := Due(f, input) - position - pending;
        if remaining < 0 || n > remaining + 1 { return Err(BadResampler); }
        if n > remaining { kept := remaining; }
      }
      pending := pending + kept;
      var frames := Drain(final);
      return Ok(frames);
    }

    method Finish(tail: nat) returns (r: Result<seq<Frame>, Error>)
      requires f.Valid()
      modifies this`pending, this`sequence, this`position, this`lastEnd
      ensures Tells(r, FinishRun(f, old(Now()), tail))
    {
      hide Output;
      if anchor.None? { return Ok([]); }
      r := Put(Tail(f, tail), true);
      if r.Ok? && position != Due(f, input) { return Err(BadResampler); }
    }

    method BeginGap(tail: nat) returns (r: Result<seq<Frame>, Error>)
      requires f.Valid()
      modifies this
      ensures Tells(r, Gap(f, old(Now()), tail))
    {
      hide FinishRun;
      r := Finish(tail);
      if r.Ok? { ClearRun(); }
    }

    method PushChunk(chunk: Chunk, tail: nat) returns (r: Result<seq<Frame>, Error>)
      requires f.Valid()
      modifies this
      ensures Tells(r, Push(f, old(Now()), chunk, tail))
    {
      hide Gap, Accepted, Breaks;
      if closed { return Err(Closed); }
      if !chunk.decodable || chunk.frames == 0 || chunk.frames > f.rate { return Err(Undecodable); }
      if chunk.timestampError {
        r := BeginGap(tail);
        return;
      }
      var frames: seq<Frame> := [];
      if last.Some? && Breaks(f, last.value, chunk) {
        var gap := BeginGap(tail);
        if gap.Err? { return gap; }
        frames := gap.value;
      }
      if anchor.None? {
        var anchorNs := (chunk.qpc - f.origin) * 100;
        if anchorNs < lastEnd {
          ClearRun();
          return Ok(frames);
        }
        anchor, anchorQpc, anchorDevice := Some(anchorNs), chunk.qpc, chunk.device;
      }
      var more := Accept(chunk);
      if more.Err? { return more; }
      return Ok(frames + more.value);
    }

    method Accept(chunk: Chunk) returns (r: Result<seq<Frame>, Error>)
      requires f.Valid() && anchor.Some?
      modifies this
      ensures Tells(r, Accepted(f, old(Now()), chunk))
    {
      hide Output;
      var drift := (chunk.qpc - anchorQpc) * 100 - (chunk.device - anchorDevice) * NS / f.rate;
      alarm := Abs(drift) > f.maxDrift;
      input := input + chunk.frames;
      r := Put(Own(f, chunk), false);
      if r.Ok? { last := Some(chunk); }
    }

    method FlushAll(tail: nat) returns (r: Result<seq<Frame>, Error>)
      requires f.Valid()
      modifies this
      ensures Tells(r, Flush(f, old(Now()), tail))
    {
      hide FinishRun;
      if closed { return Ok([]); }
      r := Finish(tail);
      if r.Err? { return; }
      closed := true;
      ClearRun();
    }

    method ResetEpoch() returns (r: Result<seq<Frame>, Error>)
      modifies this
      ensures Tells(r, Reset(old(Now())))
    {
      if !closed { return Err(Closed); }
      closed := false;
      ClearRun();
      return Ok([]);
    }
  }
}
