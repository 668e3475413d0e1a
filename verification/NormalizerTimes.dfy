/** When normalised frames start and when a run of them ends, told from the chunks pushed
    (dsp.py). */
module NormalizerTimes {
  import opened Wrappers
  import opened Normalizer

  // -------- When a run ends

  /** The chunk does not go on where the one before it ended: by its flags, its number, the
      device's sample counter, or a clock step beyond the allowed drift. */
  ghost predicate Departs(f: Format, before: Chunk, chunk: Chunk)
    requires f.Valid()
  {
    || chunk.discontinuity || chunk.sequence != before.sequence + 1
    || chunk.device != before.device + before.frames
    || !(0 - f.maxDrift <= Slip(chunk.qpc - before.qpc, chunk.device - before.device, f.rate) <= f.maxDrift)
  }

  /** By how many nanoseconds the clock, in units of 100, has run ahead of the device's
      samples. */
  function Slip(ticks: int, samples: int, rate: nat): int
    requires rate > 0
  {
    ticks * 100 - samples * NS / rate
  }

  /** A run ends exactly at a chunk with a bad time stamp or one that departs from the chunk
      before it; and where no run has begun, a chunk from before the last frame's end is
      dropped with its run. If ending the run raises, the run stays. */
  lemma {:induction false} RunEndsIff(f: Format, s: State, chunk: Chunk, tail: nat)
    requires f.Valid() && Tidy(s) && !s.closed && Decodable(f, chunk)
    ensures var out := Push(f, s, chunk, tail);
            var ends := chunk.timestampError || (s.last.Some? && Departs(f, s.last.value, chunk));
      && (!ends && s.anchor.Some? ==> out.s.run == s.run)
      && (!ends && s.anchor.None? ==>
            (out.s.run > s.run <==> (chunk.qpc - f.origin) * 100 < s.lastEnd))
      && (ends ==> (out.s.run > s.run <==> FinishRun(f, s, tail).Sent?))
  {
    hide FinishRun, Output;
    FinishLater(f, s, tail);
    var b := Broken(f, s, chunk, tail);
    if b.Sent? && !Behind(f, b.s, chunk) { AcceptedRun(f, Anchored(f, b.s, chunk), chunk); }
  }

  lemma {:induction false} AcceptedRun(f: Format, s: State, chunk: Chunk)
    requires f.Valid() && s.anchor.Some?
    ensures Accepted(f, s, chunk).s.run == s.run
  {
    OutputExtends(f, Fed(f, s, chunk), Own(f, chunk), false);
    hide Output, Due;
  }

  /** Once a chunk is taken in, the drift alarm says whether the clock has slipped too far
      since the chunk that began the run. */
  lemma {:induction false} AlarmIff(f: Format, s: State, chunk: Chunk, tail: nat)
    requires f.Valid() && Tidy(s) && Push(f, s, chunk, tail).Sent? && Push(f, s, chunk, tail).s.last == Some(chunk)
    requires !s.closed && Decodable(f, chunk) && (s.last.Some? ==> s.last.value.sequence < chunk.sequence)
    ensures var r := Push(f, s, chunk, tail).s;
      && (r.alarm <==>
            !(0 - f.maxDrift <= Slip(chunk.qpc - r.anchorQpc, chunk.device - r.anchorDevice, f.rate) <= f.maxDrift))
      && (if r.run == s.run && s.anchor.Some? then r.anchorQpc == s.anchorQpc && r.anchorDevice == s.anchorDevice
          else r.anchorQpc == chunk.qpc && r.anchorDevice == chunk.device)
  {
    hide FinishRun, Output, Breaks;
    FinishLater(f, s, tail);
    var b := Broken(f, s, chunk, tail);
    FinishSplits(f, s, tail);
    if b.Sent? && !Behind(f, b.s, chunk) {
      AcceptedAlarm(f, Anchored(f, b.s, chunk), chunk);
    }
  }

  lemma {:induction false} AcceptedAlarm(f: Format, s: State, chunk: Chunk)
    requires f.Valid() && s.anchor.Some?
    ensures var r := Accepted(f, s, chunk).s;
      && r.run == s.run && r.anchorQpc == s.anchorQpc && r.anchorDevice == s.anchorDevice
      && (r.alarm <==>
            !(0 - f.maxDrift <= Slip(chunk.qpc - s.anchorQpc, chunk.device - s.anchorDevice, f.rate) <= f.maxDrift))
  {
    OutputKeeps(f, Fed(f, s, chunk), Own(f, chunk), false);
    hide Output;
  }

  lemma {:induction false} OutputKeeps(f: Format, s: State, n: nat, final: bool)
    requires f.Valid() && s.anchor.Some?
    ensures var r := Output(f, s, n, final).s;
      r.run == s.run && r.alarm == s.alarm && r.anchorQpc == s.anchorQpc && r.anchorDevice == s.anchorDevice
  {
    hide Due;
    if Output(f, s, n, final).Sent? {
      ChopKeeps(s.(pending := s.pending + if final then Allowed(f, s, n) else n), final);
    }
  }

  lemma {:induction false} ChopKeeps(s: State, final: bool)
    requires s.anchor.Some?
    ensures var r := Chop(s, final).0;
      r.run == s.run && r.alarm == s.alarm && r.anchorQpc == s.anchorQpc && r.anchorDevice == s.anchorDevice
    decreases s.pending
  {
    if s.pending >= BLOCK || (final && s.pending > 0) {
      ChopKeeps(Emit(s, if s.pending < BLOCK then s.pending else BLOCK).0, final);
    }
  }

  // -------- When a frame starts

  /** The frames of one run follow each other from `base` on, sample by sample. */
  ghost predicate Placed(frames: seq<Frame>, base: int) {
    forall k :: 0 <= k < |frames| ==> frames[k].start == base + Total(frames[..k]) * SAMPLE_NS
  }

  lemma {:induction false} BlockPlaced(frames: seq<Frame>, run: nat, sequence: nat, start: int)
    requires Block(frames, run, sequence, start)
    ensures Placed(frames, start)
  {
    if frames != [] {
      BlockPlaced(frames[1..], run, sequence + 1, frames[0].End());
      forall k | 0 <= k < |frames|
        ensures frames[k].start == start + Total(frames[..k]) * SAMPLE_NS
      {
        if k > 0 {
          assert frames[k] == frames[1..][k - 1] && frames[..k][1..] == frames[1..][..k - 1];
        }
      }
    }
  }

  lemma {:induction false} PlacedMore(a: seq<Frame>, b: seq<Frame>, base: int)
    requires Placed(a, base) && Placed(b, base + Total(a) * SAMPLE_NS)
    ensures Placed(a + b, base)
  {
    forall k | 0 <= k < |a + b|
      ensures (a + b)[k].start == base + Total((a + b)[..k]) * SAMPLE_NS
    {
      if k < |a| {
        assert (a + b)[..k] == a[..k];
      } else {
        assert (a + b)[..k] == a + b[..k - |a|];
        TotalAppend(a, b[..k - |a|]);
      }
    }
  }

  /** What a call cuts: more of the current run, then the beginning of another. */
  ghost predicate Splits(s: State, out: Outcome, more: seq<Frame>, next: seq<Frame>) {
    && out.cut == more + next
    && (more != [] ==> s.anchor.Some? && Block(more, s.run, s.sequence, s.anchor.value + s.position * SAMPLE_NS))
    && (next != [] ==>
          && out.s.anchor.Some? && Block(next, out.s.run, 0, out.s.anchor.value)
          && (out.s.run > s.run || s.anchor.None?))
  }

  /** A run is anchored at the capture time of the chunk that begins it, and stays so. */
  ghost predicate AnchorsAt(f: Format, s: State, step: Step, out: Outcome) {
    && s.run <= out.s.run && (out.s.run == s.run ==> s.anchor.Some? ==> out.s.anchor == s.anchor)
    && (out.s.anchor.Some? && (out.s.run > s.run || s.anchor.None?) ==>
          step.DoPush? && out.s.anchor.value == (step.chunk.qpc - f.origin) * 100)
  }

  lemma {:induction false} FinishSplits(f: Format, s: State, tail: nat)
    requires f.Valid() && Tidy(s)
    ensures var out := FinishRun(f, s, tail);
      && Splits(s, out, out.cut, []) && out.s.run == s.run && out.s.anchor == s.anchor
  {
    var out := FinishRun(f, s, tail);
    assert out.cut + [] == out.cut;
    if s.anchor.Some? { FinishExtends(f, s, tail); }
    hide FinishRun, Block;
  }

  lemma {:induction false} AcceptedSplits(f: Format, s: State, chunk: Chunk)
    requires f.Valid() && Tidy(s)
    ensures var a := Anchored(f, s, chunk); var out := Accepted(f, a, chunk);
      && out.s.run == s.run && out.s.anchor == a.anchor
      && Block(out.cut, s.run, s.sequence, a.anchor.value + s.position * SAMPLE_NS)
  {
    var a := Anchored(f, s, chunk);
    OutputExtends(f, Fed(f, a, chunk), Own(f, chunk), false);
    hide Output, Due, Block;
  }

  lemma {:induction false} PushSplits(f: Format, s: State, chunk: Chunk, tail: nat)
      returns (more: seq<Frame>, next: seq<Frame>)
    requires f.Valid() && Tidy(s)
    ensures Splits(s, Push(f, s, chunk, tail), more, next)
    ensures AnchorsAt(f, s, DoPush(chunk, tail), Push(f, s, chunk, tail))
  {
    var out := Push(f, s, chunk, tail);
    more, next := out.cut, [];
    assert more + next == out.cut;
    FinishSplits(f, s, tail);
    FinishLater(f, s, tail);
    BrokenLater(f, s, chunk, tail);
    var b := Broken(f, s, chunk, tail);
    hide FinishRun, Breaks, Accepted, Block;
    if !s.closed && Decodable(f, chunk) && !chunk.timestampError && b.Sent? && !Behind(f, b.s, chunk) {
      AcceptedSplits(f, b.s, chunk);
      var a := Accepted(f, Anchored(f, b.s, chunk), chunk);
      if b.s.anchor.None? {
        more, next := b.cut, a.cut;
      } else {
        assert b == Sent(s, []) && [] + a.cut == a.cut;
      }
    }
  }

  lemma {:induction false} DoSplits(f: Format, s: State, step: Step) returns (more: seq<Frame>, next: seq<Frame>)
    requires f.Valid() && Tidy(s)
    ensures Splits(s, Do(f, s, step), more, next) && AnchorsAt(f, s, step, Do(f, s, step))
  {
    hide Push, FinishRun, Block;
    match step
    case DoPush(chunk, tail) => more, next := PushSplits(f, s, chunk, tail);
    case DoFlush(tail) =>
      FinishSplits(f, s, tail);
      FinishLater(f, s, tail);
      more, next := Do(f, s, step).cut, [];
      assert more + next == more;
    case DoReset => more, next := [], [];
  }

  // -------- In every run

  /** When each run began, by the capture time of the chunk that began it. */
  ghost function Began(f: Format, began: map<nat, int>, s: State, step: Step): map<nat, int>
    requires f.Valid()
  {
    var out := Do(f, s, step);
    if step.DoPush? && out.s.anchor.Some? && out.s.run !in began
    then began[out.s.run := (step.chunk.qpc - f.origin) * 100] else began
  }

  ghost function Beginnings(f: Format, began: map<nat, int>, s: State, steps: seq<Step>): map<nat, int>
    requires f.Valid()
    decreases |steps|
  {
    if steps == [] then began
    else Beginnings(f, Began(f, began, s, steps[0]), Do(f, s, steps[0]).s, steps[1..])
  }

  ghost predicate RunTimed(cut: seq<Frame>, began: map<nat, int>, run: nat) {
    if run in began then Placed(Of(cut, run), began[run]) else Of(cut, run) == []
  }

  ghost predicate Timed(b: Book, began: map<nat, int>) {
    && (b.s.anchor.Some? <==> b.s.run in began) && (b.s.anchor.Some? ==> began[b.s.run] == b.s.anchor.value)
    && (forall run :: run in began ==> run <= b.s.run)
    && (forall run :: RunTimed(b.cut, began, run))
  }

  lemma {:induction false} MoreTimed(cut: seq<Frame>, began: map<nat, int>, more: seq<Frame>, of: nat, sequence: nat,
                                     run: nat)
    requires RunTimed(cut, began, run) && of in began
    requires more != [] ==> Block(more, of, sequence, began[of] + Total(Of(cut, of)) * SAMPLE_NS)
    ensures RunTimed(cut + more, began, run)
  {
    OfAppend(cut, more, run);
    if more != [] {
      BlockOf(more, of, sequence, began[of] + Total(Of(cut, of)) * SAMPLE_NS, run);
      BlockPlaced(more, of, sequence, began[of] + Total(Of(cut, of)) * SAMPLE_NS);
      hide Block, Of, Total;
      if run == of { PlacedMore(Of(cut, run), more, began[run]); }
    }
    assert Of(cut, run) + [] == Of(cut, run);
  }

  lemma {:induction false} CutTimed(b: Book, began: map<nat, int>, later: map<nat, int>, out: Outcome,
                                    more: seq<Frame>, next: seq<Frame>, run: nat)
    requires Timed(b, began) && Splits(b.s, out, more, next) && b.s.run <= out.s.run
    requires b.s.anchor.Some? ==> Total(Of(b.cut, b.s.run)) == b.s.position
    requires forall r :: r in began ==> r in later && later[r] == began[r]
    requires forall r :: r in later && r !in began ==> r == out.s.run
    requires out.s.anchor.Some? ==> out.s.run in later && later[out.s.run] == out.s.anchor.value
    ensures RunTimed(b.cut + out.cut, later, run)
  {
    hide Block, Of, Total, Placed;
    forall r
      ensures RunTimed(b.cut + more, began, r)
    {
      assert RunTimed(b.cut, began, r);
      if more == [] {
        assert b.cut + more == b.cut;
      } else {
        MoreTimed(b.cut, began, more, b.s.run, b.s.sequence, r);
      }
    }
    assert RunTimed(b.cut + more, began, run) && RunTimed(b.cut + more, began, out.s.run);
    NothingPlaced(later, run);
    assert b.cut + out.cut == b.cut + more + next;
    if next == [] {
      assert b.cut + more + next == b.cut + more;
    } else {
      NothingTotal();
      assert out.s.run !in began && Of(b.cut + more, out.s.run) == [];
      MoreTimed(b.cut + more, later, next, out.s.run, 0, run);
    }
  }

  lemma {:induction false} NothingPlaced(began: map<nat, int>, run: nat)
    ensures run in began ==> Placed([], began[run])
  {
  }

  lemma {:induction false} NothingTotal()
    ensures Total([]) == 0
  {
  }

  lemma {:induction false} StepTimed(f: Format, b: Book, began: map<nat, int>, step: Step)
    requires Inv(f, b) && Timed(b, began)
    ensures f.Valid() && Timed(After(b, Do(f, b.s, step)), Began(f, began, b.s, step))
  {
    assert f.Valid() && Tidy(b.s) && RunOk(f, b, b.s.run);
    var out := Do(f, b.s, step);
    var more, next := DoSplits(f, b.s, step);
    var later := Began(f, began, b.s, step);
    hide Inv, Do, Block, Of, Total, Due;
    assert b.s.anchor.Some? ==> Total(Of(b.cut, b.s.run)) == b.s.position;
    forall run
      ensures RunTimed(b.cut + out.cut, later, run)
    {
      assert RunTimed(b.cut, began, run);
      CutTimed(b, began, later, out, more, next, run);
    }
  }

  lemma {:induction false} RunKeepsTimes(f: Format, x: World, began: map<nat, int>, steps: seq<Step>)
    requires Inv(f, x.b) && Timed(x.b, began)
    ensures f.Valid() && Timed(Run(f, x, steps).b, Beginnings(f, began, x.b.s, steps))
    decreases |steps|
  {
    assert f.Valid();
    hide Inv, Timed, Do, Began;
    if steps != [] {
      DoKeeps(f, x.b, steps[0]);
      StepTimed(f, x.b, began, steps[0]);
      RunKeepsTimes(f, Apply(f, x, steps[0]), Began(f, began, x.b.s, steps[0]), steps[1..]);
    }
  }

  /** In any run of the normaliser, the frames of each continuous run, returned or lost,
      start one after the other, sample by sample, from the capture time of the chunk that
      began it. */
  lemma {:induction false} FramesStartOnTime(f: Format, steps: seq<Step>, run: nat)
    requires f.Valid()
    ensures RunTimed(Run(f, Start, steps).b.cut, Beginnings(f, map[], Fresh, steps), run)
  {
    StartSound(f);
    assert Timed(Blank, map[]);
    RunKeepsTimes(f, Start, map[], steps);
    hide Run, Beginnings, RunTimed, Inv;
  }
}
