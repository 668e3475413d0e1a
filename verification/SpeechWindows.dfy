/** Endpointed speech windows over one continuous stream (`SpeechWindowBuilder` in
    audio.py), in samples counted from the stream's first. */
module SpeechWindows {
  import opened Wrappers
  import opened Common

  const SAMPLE_NS := 62500

  datatype Config = Config(
    step: nat, minWindow: nat, endpoint: nat, preRoll: nat, pad: nat, maxWindow: nat, overlap: nat,
    threshold: real, negative: real)
  {
    /** What the constructor demands, once durations are rounded to samples. */
    predicate Valid() {
      && 1 <= step <= maxWindow && 1 <= minWindow <= maxWindow && 1 <= endpoint && pad <= endpoint
      && overlap < maxWindow && preRoll < maxWindow && 0.0 <= negative <= threshold <= 1.0
    }
  }

  datatype Frame = Frame(track: string, epoch: string, sequence: nat, startNs: int, samples: seq<real>)
  {
    function EndNs(): int {
      startNs + |samples| * SAMPLE_NS
    }
  }

  datatype Window = Window(
    segment: nat, start: int, end: int, samples: seq<real>, final: bool, reason: string, emit: int, lastSpeech: int)

  datatype Error = Flushed | BadProbability | Discontinuous

  datatype Builder = Builder(
    last: Option<Frame>, broken: bool, origin: int, position: nat, recent: seq<real>, samples: seq<real>,
    start: int, emitStart: int, segment: Option<nat>, lastSpeech: int, lastOutput: int, lastFinal: int,
    closed: bool, counter: nat)

  /** After construction, or a reset that keeps the counter. */
  function Fresh(counter: nat): Builder {
    Builder(None, false, 0, 0, [], [], 0, 0, None, 0, 0, 0, false, counter)
  }

  function Time(b: Builder, position: int): int {
    b.origin + position * SAMPLE_NS
  }

  // -------- Steps

  predicate Continues(last: Option<Frame>, frame: Frame) {
    last.Some? ==>
      frame.track == last.value.track && frame.epoch == last.value.epoch
      && frame.sequence == last.value.sequence + 1 && frame.startNs == last.value.EndNs()
  }

  /** The last `limit` samples. */
  function Tail(samples: seq<real>, limit: nat): (r: seq<real>)
    ensures |r| == Min(limit, |samples|)
  {
    if |samples| <= limit then samples else samples[|samples| - limit..]
  }

  function NewSegment(b: Builder, start: int, emit: int, samples: seq<real>): Builder {
    b.(counter := b.counter + 1, segment := Some(b.counter + 1), start := start, emitStart := emit,
       samples := samples, lastOutput := emit)
  }

  /** The buffer holds the samples from `start` on, and emission starts inside it. */
  ghost predicate Shaped(b: Builder) {
    && |b.recent| <= b.position
    && (b.segment.Some? ==> |b.samples| == b.position - b.start && b.start <= b.emitStart)
  }

  /** A window that ends at `end`, and the builder once it is out. */
  function Put(b: Builder, end: int, final: bool, reason: string): (Builder, Window)
    requires b.segment.Some? && 0 <= end - b.start <= |b.samples|
  {
    (b.(lastOutput := Max(b.lastOutput, end), lastFinal := if final then Max(b.lastFinal, end) else b.lastFinal),
     Window(b.segment.value, b.start, end, b.samples[..end - b.start], final, reason, b.emitStart,
            Min(end, b.lastSpeech)))
  }

  predicate Speech(c: Config, b: Builder, probability: real) {
    probability >= if b.segment.Some? then c.negative else c.threshold
  }

  /** Speech onset: the segment starts with the audio just before. */
  function Onset(b: Builder, speech: bool): Builder {
    if speech && b.segment.None? then
      NewSegment(b, b.position - |b.recent|, Max(b.position - |b.recent|, b.lastFinal), b.recent)
    else b
  }

  /** The first frame sets the clock. */
  function Anchored(b: Builder, frame: Frame): Builder {
    if b.last.None? then b.(origin := frame.startNs) else b
  }

  /** The frame's samples are taken in. */
  function Extended(c: Config, b: Builder, frame: Frame, speech: bool): Builder {
    var end := b.position + |frame.samples|;
    var grown := if b.segment.None? then b
                 else b.(samples := b.samples + frame.samples, lastSpeech := if speech then end else b.lastSpeech);
    grown.(recent := Tail(b.recent + frame.samples, c.preRoll), position := end, last := Some(frame))
  }

  function Visible(c: Config, b: Builder, speech: bool): int {
    if speech then b.position else Min(b.position, b.lastSpeech + c.pad)
  }

  /** One full window goes out and a new segment keeps some overlap as context. */
  function Cut(c: Config, b: Builder): (Builder, Window)
    requires c.Valid() && b.segment.Some? && Shaped(b) && c.maxWindow <= b.position - b.start
  {
    var boundary := b.start + c.maxWindow;
    var out := Put(b, boundary, true, "max_window");
    (NewSegment(out.0, boundary - c.overlap, boundary, b.samples[c.maxWindow - c.overlap..]), out.1)
  }

  /** Full windows are split off while too much is visible. */
  function Split(c: Config, b: Builder, visible: int): (r: (Builder, seq<Window>))
    requires c.Valid() && b.segment.Some? && Shaped(b) && visible <= b.position
    ensures r.0.segment.Some? && Shaped(r.0) && r.0.position == b.position && r.0.lastSpeech == b.lastSpeech
    ensures r.0.closed == b.closed && r.0.recent == b.recent && r.0.last == b.last && r.0.broken == b.broken
    ensures visible - r.0.start < c.maxWindow
    decreases visible - b.start
  {
    if visible - b.start < c.maxWindow then (b, [])
    else
      var cut := Cut(c, b);
      var r := Split(c, cut.0, visible);
      (r.0, [cut.1] + r.1)
  }

  function Quiet(b: Builder): Builder {
    b.(samples := [], segment := None)
  }

  /** The end of a segment, if anything is left to emit. */
  function Close(b: Builder, visible: int, reason: string): (Builder, seq<Window>)
    requires b.segment.Some? && Shaped(b) && visible <= b.position
  {
    if visible > b.emitStart then
      var out := Put(b, visible, true, reason);
      (Quiet(out.0), [out.1])
    else (Quiet(b), [])
  }

  /** What comes out of an active segment after one frame. */
  function Emitted(c: Config, b: Builder, speech: bool): (Builder, seq<Window>)
    requires c.Valid() && b.segment.Some? && Shaped(b)
  {
    var endpoint := !speech && b.position - b.lastSpeech >= c.endpoint;
    var visible := Visible(c, b, speech);
    var split := Split(c, b, visible);
    var s := split.0;
    if endpoint then
      var closed := Close(s, visible, "endpoint");
      (closed.0, split.1 + closed.1)
    else if visible - s.start >= c.minWindow && visible - s.lastOutput >= c.step && visible > s.emitStart then
      var out := Put(s, visible, false, "incremental");
      (out.0, split.1 + [out.1])
    else split
  }

  datatype Pushed = Accepted(builder: Builder, windows: seq<Window>) | Refused(error: Error, builder: Builder)

  function Push(c: Config, b: Builder, frame: Frame, probability: real): Pushed
    requires c.Valid() && Shaped(b)
  {
    if b.closed then Refused(Flushed, b)
    else if !(0.0 <= probability <= 1.0) then Refused(BadProbability, b)
    else if b.broken then Refused(Discontinuous, b)
    else if !Continues(b.last, frame) then Refused(Discontinuous, b.(broken := true))
    else
      var named := Anchored(b, frame);
      var speech := Speech(c, named, probability);
      var taken := Extended(c, Onset(named, speech), frame, speech);
      if taken.segment.None? then Accepted(taken, [])
      else
        var r := Emitted(c, taken, speech);
        Accepted(r.0, r.1)
  }

  function Flush(c: Config, b: Builder, reason: string): (Builder, seq<Window>)
    requires c.Valid() && Shaped(b)
  {
    if b.closed then (b, [])
    else if b.segment.None? then (Quiet(b).(closed := true, recent := []), [])
    else
      var r := Close(b, Visible(c, b, false), reason);
      (r.0.(closed := true, recent := []), r.1)
  }

  // -------- What has been heard so far

  /** Every sample since the reset, whether its frame was speech, and the windows put out. */
  datatype History = History(heard: seq<real>, voiced: seq<bool>, windows: seq<Window>)

  ghost predicate Emits(w: Window, x: int) {
    w.final && w.emit <= x < w.end
  }

  ghost predicate Emitted1(windows: seq<Window>, x: int) {
    exists i :: 0 <= i < |windows| && Emits(windows[i], x)
  }

  /** An exact slice of the stream, not longer than a full window. */
  ghost predicate Slice(c: Config, heard: seq<real>, w: Window) {
    0 <= w.start <= w.emit < w.end <= |heard| && w.end - w.start <= c.maxWindow && w.samples == heard[w.start..w.end]
  }

  /** Final emit intervals come in order and never overlap. */
  ghost predicate InOrder(windows: seq<Window>, limit: int) {
    && (forall i, j :: 0 <= i < j < |windows| && windows[i].final && windows[j].final ==>
          windows[i].end <= windows[j].emit)
    && (forall i :: 0 <= i < |windows| && windows[i].final ==> windows[i].end <= limit)
  }

  ghost predicate Recorded(c: Config, b: Builder, h: History) {
    && |h.heard| == |h.voiced| == b.position
    && |b.recent| <= c.preRoll && |b.recent| <= b.position && b.recent == h.heard[b.position - |b.recent|..]
    && (forall i :: 0 <= i < |h.windows| ==> Slice(c, h.heard, h.windows[i]))
    && InOrder(h.windows, b.lastFinal) && 0 <= b.lastFinal <= b.position
    && b.lastSpeech <= b.position && (forall x :: 0 <= x < |h.voiced| && h.voiced[x] ==> x < b.lastSpeech)
    && (if b.last.None? then b.position == 0 else Time(b, b.position) == b.last.value.EndNs())
  }

  /** Everything spoken before `from` has been emitted in a final window. */
  ghost predicate Settled(h: History, from: int) {
    forall x :: 0 <= x < |h.voiced| && x < from && h.voiced[x] ==> Emitted1(h.windows, x)
  }

  /** The open segment: what is still owed lies between `emitStart` and the last speech. */
  ghost predicate Pending(c: Config, b: Builder, h: History) {
    && |h.heard| == b.position && 0 <= b.start <= b.emitStart <= b.position && b.emitStart < b.start + c.maxWindow
    && b.lastFinal <= b.emitStart && b.samples == h.heard[b.start..] && Settled(h, b.emitStart)
  }

  ghost predicate Inv(c: Config, b: Builder, h: History) {
    && c.Valid() && Recorded(c, b, h)
    && if b.segment.None? then Settled(h, b.position) && b.samples == []
       else Pending(c, b, h) && b.position - b.lastSpeech < c.endpoint
            && Visible(c, b, false) - b.start < c.maxWindow
  }

  lemma {:induction false} InvShaped(c: Config, b: Builder, h: History)
    requires Inv(c, b, h)
    ensures Shaped(b) && c.Valid()
  {
  }

  // -------- Each stage of a push

  lemma {:induction false} OnsetKeeps(c: Config, b: Builder, h: History, speech: bool)
    requires c.Valid() && Recorded(c, b, h) && (b.segment.None? ==> Settled(h, b.position))
    requires b.segment.Some? ==> Pending(c, b, h)
    ensures var r := Onset(b, speech);
      Recorded(c, r, h) && (r.segment.Some? ==> Pending(c, r, h)) && (speech ==> r.segment.Some?)
      && (r.segment.None? ==> r == b)
  {
  }

  function Took(h: History, frame: Frame, speech: bool): History {
    History(h.heard + frame.samples, h.voiced + seq(|frame.samples|, i => speech), h.windows)
  }

  lemma {:induction false} TookSettled(h: History, frame: Frame, speech: bool, from: int)
    requires Settled(h, from) && (from <= |h.voiced| || !speech)
    ensures Settled(Took(h, frame, speech), from)
  {
    var r := Took(h, frame, speech);
    forall x | 0 <= x < |r.voiced| && x < from && r.voiced[x]
      ensures Emitted1(r.windows, x)
    {
      assert x < |h.voiced| && h.voiced[x];
    }
  }

  lemma {:induction false} TookSlices(c: Config, h: History, frame: Frame, speech: bool)
    requires forall i :: 0 <= i < |h.windows| ==> Slice(c, h.heard, h.windows[i])
    ensures var r := Took(h, frame, speech); forall i :: 0 <= i < |r.windows| ==> Slice(c, r.heard, r.windows[i])
  {
    var r := Took(h, frame, speech);
    forall i | 0 <= i < |r.windows|
      ensures Slice(c, r.heard, r.windows[i])
    {
      var w := h.windows[i];
      assert Slice(c, h.heard, w);
      assert r.heard[w.start..w.end] == h.heard[w.start..w.end];
    }
  }

  lemma {:induction false} RecentKept(heard: seq<real>, recent: seq<real>, more: seq<real>, limit: nat)
    requires |recent| <= |heard| && recent == heard[|heard| - |recent|..]
    ensures var r, all := Tail(recent + more, limit), heard + more; r == all[|all| - |r|..]
  {
    var all := heard + more;
    assert recent + more == all[|heard| - |recent|..];
  }

  lemma {:induction false} ExtendedKeeps(c: Config, b: Builder, h: History, frame: Frame, speech: bool)
    requires c.Valid() && Recorded(c, b, h) && (b.segment.Some? ==> Pending(c, b, h))
    requires b.segment.None? ==> Settled(h, b.position) && !speech
    requires |frame.samples| > 0 && Time(b, b.position) == frame.startNs
    ensures var r, k := Extended(c, b, frame, speech), Took(h, frame, speech);
      && Recorded(c, r, k) && r.segment == b.segment
      && (r.segment.Some? ==> Pending(c, r, k) && (speech ==> r.lastSpeech == r.position))
      && (r.segment.None? ==> Settled(k, r.position) && r.samples == b.samples)
  {
    var r, k := Extended(c, b, frame, speech), Took(h, frame, speech);
    TookSlices(c, h, frame, speech);
    RecentKept(h.heard, b.recent, frame.samples, c.preRoll);
    if b.segment.Some? {
      TookSettled(h, frame, speech, b.emitStart);
      assert k.heard[b.start..] == h.heard[b.start..] + frame.samples;
    } else {
      TookSettled(h, frame, speech, b.position);
      assert Settled(k, r.position) by {
        forall x | 0 <= x < |k.voiced| && k.voiced[x]
          ensures Emitted1(k.windows, x)
        {
          assert x < |h.voiced|;
        }
      }
    }
    assert Time(r, r.position) == frame.EndNs();
  }

  function With(h: History, ws: seq<Window>): History {
    h.(windows := h.windows + ws)
  }

  lemma {:induction false} WithSettled(h: History, w: Window, from: int, upto: int)
    requires Settled(h, from)
    requires upto <= from || (w.final && w.emit <= from && upto <= w.end)
    ensures Settled(With(h, [w]), upto)
  {
    var k := With(h, [w]);
    forall x | 0 <= x < |k.voiced| && x < upto && k.voiced[x]
      ensures Emitted1(k.windows, x)
    {
      if x < from {
        var i :| 0 <= i < |h.windows| && Emits(h.windows[i], x);
        assert Emits(k.windows[i], x);
      } else {
        assert Emits(k.windows[|h.windows|], x);
      }
    }
  }

  /** One more window keeps the record straight. */
  lemma {:induction false} PutKeeps(c: Config, b: Builder, h: History, end: int, final: bool, reason: string)
    requires c.Valid() && Recorded(c, b, h) && b.segment.Some? && Shaped(b) && Pending(c, b, h)
    requires b.emitStart < end <= b.position && end - b.start <= c.maxWindow
    ensures var r := Put(b, end, final, reason);
      && Recorded(c, r.0, With(h, [r.1])) && r.1.emit == b.emitStart && r.1.end == end && r.1.final == final
      && r.0.lastFinal == if final then end else b.lastFinal
  {
    var r := Put(b, end, final, reason);
    var k := With(h, [r.1]);
    assert r.1.samples == h.heard[b.start..end];
    forall i | 0 <= i < |k.windows|
      ensures Slice(c, k.heard, k.windows[i])
    {
      if i < |h.windows| { assert Slice(c, h.heard, h.windows[i]); }
    }
  }

  lemma {:induction false} CutKeeps(c: Config, b: Builder, h: History)
    requires c.Valid() && Recorded(c, b, h) && b.segment.Some? && Shaped(b) && Pending(c, b, h)
    requires c.maxWindow <= b.position - b.start
    ensures var r := Cut(c, b); Recorded(c, r.0, With(h, [r.1])) && Pending(c, r.0, With(h, [r.1]))
  {
    hide Recorded;
    var boundary := b.start + c.maxWindow;
    RecordedSize(c, b, h);
    PutKeeps(c, b, h, boundary, true, "max_window");
    var out := Put(b, boundary, true, "max_window");
    var r, k := Cut(c, b), With(h, [out.1]);
    WithSettled(h, out.1, b.emitStart, boundary);
    assert b.samples[c.maxWindow - c.overlap..] == h.heard[boundary - c.overlap..];
    NewKeeps(c, out.0, k, boundary - c.overlap, boundary, b.samples[c.maxWindow - c.overlap..]);
  }

  lemma {:induction false} RecordedSize(c: Config, b: Builder, h: History)
    requires Recorded(c, b, h)
    ensures |h.heard| == |h.voiced| == b.position
  {
  }

  lemma {:induction false} NewKeeps(c: Config, b: Builder, h: History, start: int, emit: int, samples: seq<real>)
    requires Recorded(c, b, h)
    ensures Recorded(c, NewSegment(b, start, emit, samples), h)
  {
  }

  lemma {:induction false} SplitKeeps(c: Config, b: Builder, h: History, visible: int)
    requires c.Valid() && Recorded(c, b, h) && b.segment.Some? && Shaped(b) && Pending(c, b, h) && visible <= b.position
    ensures var r := Split(c, b, visible); Recorded(c, r.0, With(h, r.1)) && Pending(c, r.0, With(h, r.1))
    decreases visible - b.start
  {
    hide Recorded, Pending;
    if visible - b.start < c.maxWindow {
      assert h.windows + [] == h.windows;
    } else {
      CutKeeps(c, b, h);
      var cut := Cut(c, b);
      SplitKeeps(c, cut.0, With(h, [cut.1]), visible);
      var r := Split(c, cut.0, visible);
      assert h.windows + ([cut.1] + r.1) == (h.windows + [cut.1]) + r.1;
    }
  }

  lemma {:induction false} CloseKeeps(c: Config, b: Builder, h: History, visible: int, reason: string)
    requires c.Valid() && Recorded(c, b, h) && b.segment.Some? && Shaped(b) && Pending(c, b, h)
    requires b.lastSpeech <= visible <= b.position && visible - b.start <= c.maxWindow
    ensures var r := Close(b, visible, reason);
      && Recorded(c, r.0, With(h, r.1)) && Settled(With(h, r.1), b.position)
      && r.0.segment.None? && r.0.samples == [] && r.0.position == b.position
  {
    if visible > b.emitStart {
      PutKeeps(c, b, h, visible, true, reason);
      WithSettled(h, Put(b, visible, true, reason).1, b.emitStart, visible);
    } else {
      assert h.windows + [] == h.windows;
    }
  }

  lemma {:induction false} EmittedKeeps(c: Config, b: Builder, h: History, speech: bool)
    requires c.Valid() && Recorded(c, b, h) && b.segment.Some? && Shaped(b) && Pending(c, b, h)
    requires speech ==> b.lastSpeech == b.position
    ensures var r := Emitted(c, b, speech); Inv(c, r.0, With(h, r.1)) && r.0.position == b.position
  {
    hide Recorded, Pending, Split;
    RecordedSpeech(c, b, h);
    var visible := Visible(c, b, speech);
    var split := Split(c, b, visible);
    var s, k := split.0, With(h, split.1);
    SplitKeeps(c, b, h, visible);
    RecordedSpeech(c, s, k);
    if !speech && b.position - b.lastSpeech >= c.endpoint {
      CloseKeeps(c, s, k, visible, "endpoint");
      var closed := Close(s, visible, "endpoint");
      assert With(k, closed.1) == With(h, split.1 + closed.1);
    } else if visible - s.start >= c.minWindow && visible - s.lastOutput >= c.step && visible > s.emitStart {
      PutKeeps(c, s, k, visible, false, "incremental");
      var out := Put(s, visible, false, "incremental");
      PendingAfterPut(c, s, k, visible, out.1);
      assert With(k, [out.1]) == With(h, split.1 + [out.1]);
    }
  }

  lemma {:induction false} PendingAfterPut(c: Config, b: Builder, h: History, end: int, w: Window)
    requires b.segment.Some? && Shaped(b) && Pending(c, b, h) && 0 <= end - b.start <= |b.samples|
    requires w == Put(b, end, false, "incremental").1
    ensures Pending(c, Put(b, end, false, "incremental").0, With(h, [w]))
  {
    WithSettled(h, w, b.emitStart, b.emitStart);
  }

  lemma {:induction false} RecordedSpeech(c: Config, b: Builder, h: History)
    requires Recorded(c, b, h)
    ensures b.lastSpeech <= b.position
  {
  }

  // -------- Whole calls

  lemma {:induction false} PushKeeps(c: Config, b: Builder, h: History, frame: Frame, probability: real)
    requires Inv(c, b, h) && |frame.samples| > 0 && Shaped(b)
    ensures match Push(c, b, frame, probability)
      case Accepted(r, ws) => Inv(c, r, With(Took(h, frame, Speech(c, b, probability)), ws))
      case Refused(_, r) => Inv(c, r, h)
  {
    if Push(c, b, frame, probability).Accepted? {
      hide Recorded, Settled, Emitted, Pending, Time, Onset, Extended, Anchored, Continues, Took;
      var named := Anchored(b, frame);
      var speech := Speech(c, named, probability);
      AnchoredKeeps(c, b, h, frame);
      var on := Onset(named, speech);
      OnsetKeeps(c, named, h, speech);
      OnsetTime(named, speech);
      ExtendedKeeps(c, on, h, frame, speech);
      var taken, k := Extended(c, on, frame, speech), Took(h, frame, speech);
      if taken.segment.Some? {
        EmittedShaped(c, taken, k);
        EmittedKeeps(c, taken, k, speech);
      } else {
        assert With(k, []) == k by { assert k.windows + [] == k.windows; }
      }
    }
  }

  lemma {:induction false} AnchoredKeeps(c: Config, b: Builder, h: History, frame: Frame)
    requires Inv(c, b, h) && Continues(b.last, frame)
    ensures var r := Anchored(b, frame);
      && Inv(c, r, h) && r.segment == b.segment && Time(r, r.position) == frame.startNs && r.position == b.position
  {
  }

  lemma {:induction false} OnsetTime(b: Builder, speech: bool)
    ensures Time(Onset(b, speech), Onset(b, speech).position) == Time(b, b.position)
    ensures speech || Onset(b, speech) == b
    ensures Onset(b, speech).position == b.position
  {
  }

  lemma {:induction false} EmittedShaped(c: Config, b: Builder, h: History)
    requires Recorded(c, b, h) && Pending(c, b, h)
    ensures Shaped(b)
  {
  }

  lemma {:induction false} FlushKeeps(c: Config, b: Builder, h: History, reason: string)
    requires Inv(c, b, h) && Shaped(b) && !b.closed
    ensures var r := Flush(c, b, reason);
      Inv(c, r.0, With(h, r.1)) && Settled(With(h, r.1), |h.voiced|)
  {
    if b.segment.Some? {
      CloseKeeps(c, b, h, Visible(c, b, false), reason);
    } else {
      assert h.windows + [] == h.windows;
    }
  }

  /** Held audio never reaches a full window plus the endpoint silence plus the pre-roll. */
  lemma {:induction false} HeldIsBounded(c: Config, b: Builder, h: History)
    requires Inv(c, b, h)
    ensures |b.samples| + |b.recent| < c.maxWindow + c.endpoint + c.preRoll
  {
  }

  /** The buffer is never off by a sample: the next frame must start exactly where the
      samples counted so far end on the capture clock. */
  lemma {:induction false} ClockIsExact(c: Config, b: Builder, h: History, frame: Frame, probability: real)
    requires Inv(c, b, h) && Shaped(b) && Push(c, b, frame, probability).Accepted? && |frame.samples| > 0
    ensures b.last.Some? ==> frame.startNs == Time(b, |h.heard|)
  {
  }

  /** A frame is accepted exactly when the builder is open, the probability is one, nothing
      has broken the stream, and the frame goes on where the last one ended; once broken, the
      stream accepts nothing. */
  lemma {:induction false} AcceptedIff(c: Config, b: Builder, frame: Frame, probability: real)
    requires c.Valid() && Shaped(b)
    ensures var last, p := b.last, Push(c, b, frame, probability);
      && (p.Accepted? <==>
            !b.closed && 0.0 <= probability <= 1.0 && !b.broken
            && (last.Some? ==>
                  (frame.track, frame.epoch, frame.sequence, frame.startNs)
                  == (last.value.track, last.value.epoch, last.value.sequence + 1, last.value.EndNs())))
      && (p.Refused? ==> p.builder == b.(broken := p.builder.broken) && (b.broken ==> p.builder.broken))
      && (p.Refused? && p.error == Discontinuous ==> p.builder.broken)
      && (p.Accepted? ==> p.builder.last == Some(frame) && !p.builder.broken)
  {
    if Push(c, b, frame, probability).Accepted? { PushLast(c, b, frame, probability); }
    hide Split, Emitted;
  }

  lemma {:induction false} PushLast(c: Config, b: Builder, frame: Frame, probability: real)
    requires c.Valid() && Shaped(b) && Push(c, b, frame, probability).Accepted?
    ensures var r := Push(c, b, frame, probability).builder; r.last == Some(frame) && r.broken == b.broken
  {
    hide Split;
  }

  // -------- Runs

  datatype Input = Input(frame: Frame, probability: real)

  /** The builder and its history after a run of pushes; refused ones change no history. */
  ghost function Run(c: Config, b: Builder, h: History, inputs: seq<Input>): (Builder, History)
    requires Inv(c, b, h) && forall i :: i in inputs ==> |i.frame.samples| > 0
    decreases |inputs|
  {
    if inputs == [] then (b, h)
    else
      InvShaped(c, b, h);
      assert inputs[0] in inputs;
      PushKeeps(c, b, h, inputs[0].frame, inputs[0].probability);
      assert forall i :: i in inputs[1..] ==> i in inputs;
      match Push(c, b, inputs[0].frame, inputs[0].probability)
      case Refused(_, r) => Run(c, r, h, inputs[1..])
      case Accepted(r, ws) =>
        Run(c, r, With(Took(h, inputs[0].frame, Speech(c, b, inputs[0].probability)), ws), inputs[1..])
  }

  /** Only a flush closes the builder. */
  lemma {:induction false} PushOpen(c: Config, b: Builder, frame: Frame, probability: real)
    requires c.Valid() && Shaped(b)
    ensures Push(c, b, frame, probability).builder.closed == b.closed
  {
    hide Split;
  }

  lemma {:induction false} RunKeeps(c: Config, b: Builder, h: History, inputs: seq<Input>)
    requires Inv(c, b, h) && forall i :: i in inputs ==> |i.frame.samples| > 0
    ensures var r := Run(c, b, h, inputs); Inv(c, r.0, r.1) && r.0.closed == b.closed
    decreases |inputs|
  {
    hide Inv, Push, Took;
    if inputs != [] {
      InvShaped(c, b, h);
      assert inputs[0] in inputs;
      PushKeeps(c, b, h, inputs[0].frame, inputs[0].probability);
      PushOpen(c, b, inputs[0].frame, inputs[0].probability);
      assert forall i :: i in inputs[1..] ==> i in inputs;
      match Push(c, b, inputs[0].frame, inputs[0].probability)
      case Refused(_, r) => RunKeeps(c, r, h, inputs[1..]);
      case Accepted(r, ws) =>
        RunKeeps(c, r, With(Took(h, inputs[0].frame, Speech(c, b, inputs[0].probability)), ws), inputs[1..]);
    }
  }

  const Nothing := History([], [], [])

  lemma {:induction false} FreshHolds(c: Config, counter: nat)
    requires c.Valid()
    ensures Inv(c, Fresh(counter), Nothing)
  {
  }

  /** Over any stream, once flushed: every spoken sample is emitted by exactly one final
      window; final emit intervals are ordered and disjoint; and every window, final or
      not, is the exact slice of the stream it claims, at most one full window long. */
  lemma {:induction false} SpeechEmittedOnce(c: Config, counter: nat, inputs: seq<Input>, reason: string)
    requires c.Valid() && forall i :: i in inputs ==> |i.frame.samples| > 0
    ensures Inv(c, Fresh(counter), Nothing)
    ensures var run := Run(c, Fresh(counter), Nothing, inputs);
      && Shaped(run.0)
      && var ws := run.1.windows + Flush(c, run.0, reason).1;
      && (forall x :: 0 <= x < |run.1.voiced| && run.1.voiced[x] ==> EmittedOnce(ws, x))
      && (forall i :: 0 <= i < |ws| ==> Slice(c, run.1.heard, ws[i]))
      && (forall i, j :: 0 <= i < j < |ws| && ws[i].final && ws[j].final ==> ws[i].end <= ws[j].emit)
  {
    FreshHolds(c, counter);
    RunKeeps(c, Fresh(counter), Nothing, inputs);
    var run := Run(c, Fresh(counter), Nothing, inputs);
    InvShaped(c, run.0, run.1);
    FlushKeeps(c, run.0, run.1, reason);
    var out := Flush(c, run.0, reason);
    var h := With(run.1, out.1);
    InvSlices(c, out.0, h);
    forall x | 0 <= x < |h.voiced| && h.voiced[x]
      ensures EmittedOnce(h.windows, x)
    {
      OnceOnly(h.windows, out.0.lastFinal, x);
    }
  }

  lemma {:induction false} InvSlices(c: Config, b: Builder, h: History)
    requires Inv(c, b, h)
    ensures forall i :: 0 <= i < |h.windows| ==> Slice(c, h.heard, h.windows[i])
    ensures InOrder(h.windows, b.lastFinal) && |h.heard| == |h.voiced|
  {
  }

  ghost predicate EmittedOnce(windows: seq<Window>, x: int) {
    exists i :: 0 <= i < |windows| && Emits(windows[i], x)
      && forall j :: 0 <= j < |windows| && Emits(windows[j], x) ==> j == i
  }

  lemma {:induction false} OnceOnly(windows: seq<Window>, limit: int, x: int)
    requires InOrder(windows, limit) && Emitted1(windows, x)
    ensures EmittedOnce(windows, x)
  {
    var i :| 0 <= i < |windows| && Emits(windows[i], x);
    forall j | 0 <= j < |windows| && Emits(windows[j], x)
      ensures j == i
    {
    }
  }

  // -------- When a segment is open and what it shows

  /** How far a segment that emits from `emit` has been shown by the windows put out. */
  ghost function ShownUpto(windows: seq<Window>, segment: nat, emit: int): int {
    if windows == [] then emit
    else
      var front, w := windows[..|windows| - 1], windows[|windows| - 1];
      Max(ShownUpto(front, segment, emit), if w.segment == segment then w.end else emit)
  }

  /** How far the stream has been finalised. */
  ghost function FinalUpto(windows: seq<Window>): int {
    if windows == [] then 0
    else
      var front, w := windows[..|windows| - 1], windows[|windows| - 1];
      Max(FinalUpto(front), if w.final then w.end else 0)
  }

  /** Some sample among the last `silence` was spoken. */
  ghost predicate SpokenWithin(voiced: seq<bool>, silence: nat) {
    exists x :: 0 <= x < |voiced| && voiced[x] && |voiced| - (x + 1) < silence
  }

  ghost predicate Tracked(c: Config, b: Builder, h: History) {
    && |h.voiced| == b.position && 0 <= b.lastSpeech <= b.position
    && (b.lastSpeech > 0 ==> h.voiced[b.lastSpeech - 1])
    && (!b.closed ==> |b.recent| == Min(c.preRoll, b.position))
    && (!b.closed ==> (b.segment.Some? <==> 0 < b.lastSpeech && b.position - b.lastSpeech < c.endpoint))
    && Numbered(b, h)
  }

  ghost predicate Numbered(b: Builder, h: History) {
    && (forall i :: 0 <= i < |h.windows| ==> h.windows[i].segment <= b.counter)
    && b.lastFinal == FinalUpto(h.windows)
    && (b.segment.Some? ==> b.segment.value == b.counter
                            && b.lastOutput == ShownUpto(h.windows, b.counter, b.emitStart))
  }

  lemma {:induction false} NothingShown(windows: seq<Window>, segment: nat, emit: int)
    requires forall i :: 0 <= i < |windows| ==> windows[i].segment < segment
    ensures ShownUpto(windows, segment, emit) == emit
  {
    if windows != [] { NothingShown(windows[..|windows| - 1], segment, emit); }
  }

  lemma {:induction false} OneMoreShown(windows: seq<Window>, w: Window, segment: nat, emit: int)
    ensures ShownUpto(windows + [w], segment, emit)
         == Max(ShownUpto(windows, segment, emit), if w.segment == segment then w.end else emit)
    ensures FinalUpto(windows + [w]) == Max(FinalUpto(windows), if w.final then w.end else 0)
  {
    assert (windows + [w])[..|windows|] == windows;
  }

  lemma {:induction false} ShownAtLeast(windows: seq<Window>, segment: nat, emit: int)
    ensures emit <= ShownUpto(windows, segment, emit) && 0 <= FinalUpto(windows)
  {
    if windows != [] { ShownAtLeast(windows[..|windows| - 1], segment, emit); }
  }

  lemma {:induction false} PutNumbered(b: Builder, h: History, end: int, final: bool, reason: string)
    requires Numbered(b, h) && b.segment.Some? && 0 <= end - b.start <= |b.samples|
    ensures var r := Put(b, end, final, reason); Numbered(r.0, With(h, [r.1]))
  {
    var w := Put(b, end, final, reason).1;
    OneMoreShown(h.windows, w, b.counter, b.emitStart);
    ShownAtLeast(h.windows, b.counter, b.emitStart);
  }

  lemma {:induction false} BeginNumbered(b: Builder, h: History, start: int, emit: int, samples: seq<real>)
    requires Numbered(b, h)
    ensures Numbered(NewSegment(b, start, emit, samples), h)
  {
    NothingShown(h.windows, b.counter + 1, emit);
  }

  lemma {:induction false} SplitNumbered(c: Config, b: Builder, h: History, visible: int)
    requires c.Valid() && b.segment.Some? && Shaped(b) && visible <= b.position && Numbered(b, h)
    ensures var r := Split(c, b, visible); Numbered(r.0, With(h, r.1))
    decreases visible - b.start
  {
    hide Numbered;
    if visible - b.start < c.maxWindow {
      assert With(h, []) == h by { assert h.windows + [] == h.windows; }
    } else {
      var boundary, cut := b.start + c.maxWindow, Cut(c, b);
      PutNumbered(b, h, boundary, true, "max_window");
      BeginNumbered(Put(b, boundary, true, "max_window").0, With(h, [cut.1]), boundary - c.overlap, boundary,
                    b.samples[c.maxWindow - c.overlap..]);
      SplitNumbered(c, cut.0, With(h, [cut.1]), visible);
      var r := Split(c, cut.0, visible);
      assert h.windows + ([cut.1] + r.1) == (h.windows + [cut.1]) + r.1;
    }
  }

  lemma {:induction false} CloseNumbered(b: Builder, h: History, visible: int, reason: string)
    requires b.segment.Some? && Shaped(b) && visible <= b.position && Numbered(b, h)
    ensures var r := Close(b, visible, reason); Numbered(r.0, With(h, r.1))
  {
    if visible > b.emitStart {
      PutNumbered(b, h, visible, true, reason);
    } else {
      assert h.windows + [] == h.windows;
    }
  }

  lemma {:induction false} EmittedNumbered(c: Config, b: Builder, h: History, speech: bool)
    requires c.Valid() && b.segment.Some? && Shaped(b) && Numbered(b, h) && b.lastSpeech <= b.position
    ensures var r := Emitted(c, b, speech); Numbered(r.0, With(h, r.1))
  {
    hide Numbered, Split;
    var visible := Visible(c, b, speech);
    var split := Split(c, b, visible);
    var s, k := split.0, With(h, split.1);
    SplitNumbered(c, b, h, visible);
    if !speech && b.position - b.lastSpeech >= c.endpoint {
      CloseNumbered(s, k, visible, "endpoint");
      assert With(k, Close(s, visible, "endpoint").1) == With(h, split.1 + Close(s, visible, "endpoint").1);
    } else if visible - s.start >= c.minWindow && visible - s.lastOutput >= c.step && visible > s.emitStart {
      PutNumbered(s, k, visible, false, "incremental");
      var out := Put(s, visible, false, "incremental");
      assert With(k, [out.1]) == With(h, split.1 + [out.1]);
    }
  }

  /** What the frame is, by the thresholds: speech opens a segment at one and keeps an
      open one going at the other. */
  ghost predicate Speaks(c: Config, b: Builder, probability: real) {
    probability >= c.threshold || (b.segment.Some? && probability >= c.negative)
  }

  lemma {:induction false} PushFacts(c: Config, b: Builder, frame: Frame, probability: real)
    requires c.Valid() && Shaped(b) && Push(c, b, frame, probability).Accepted?
    ensures var r, speech := Push(c, b, frame, probability).builder, Speaks(c, b, probability);
      && speech == Speech(c, b, probability)
      && r.position == b.position + |frame.samples| && r.recent == Tail(b.recent + frame.samples, c.preRoll)
      && r.lastSpeech == (if speech then r.position else b.lastSpeech)
      && r.closed == b.closed
      && (r.segment.Some? <==> (speech || b.segment.Some?) && (speech || r.position - b.lastSpeech < c.endpoint))
  {
    hide Split;
  }

  lemma {:induction false} PushNumbered(c: Config, b: Builder, h: History, frame: Frame, probability: real)
    requires c.Valid() && Shaped(b) && Numbered(b, h) && b.lastSpeech <= b.position
    requires Push(c, b, frame, probability).Accepted?
    ensures var r := Push(c, b, frame, probability);
      Numbered(r.builder, With(Took(h, frame, Speech(c, b, probability)), r.windows))
  {
    var named := Anchored(b, frame);
    var speech := Speech(c, named, probability);
    var on := Onset(named, speech);
    if speech && named.segment.None? {
      BeginNumbered(named, h, b.position - |b.recent|, Max(b.position - |b.recent|, b.lastFinal), b.recent);
    }
    var taken, k := Extended(c, on, frame, speech), Took(h, frame, speech);
    assert Numbered(taken, k);
    hide Numbered, Emitted, Onset, Extended, Anchored, Took;
    if taken.segment.Some? {
      EmittedNumbered(c, taken, k, speech);
    } else {
      assert With(k, []) == k by { assert k.windows + [] == k.windows; }
    }
  }

  lemma {:induction false} PushTracks(c: Config, b: Builder, h: History, frame: Frame, probability: real)
    requires c.Valid() && Shaped(b) && Tracked(c, b, h) && |frame.samples| > 0
    ensures match Push(c, b, frame, probability)
      case Accepted(r, ws) => Tracked(c, r, With(Took(h, frame, Speech(c, b, probability)), ws))
      case Refused(_, r) => Tracked(c, r, h)
  {
    if Push(c, b, frame, probability).Accepted? {
      PushFacts(c, b, frame, probability);
      PushNumbered(c, b, h, frame, probability);
      hide Numbered, Push;
    }
  }

  /** Where the last spoken sample ends. */
  ghost function SpokenUpto(voiced: seq<bool>): (n: nat)
    ensures n <= |voiced| && (n > 0 ==> voiced[n - 1])
    ensures forall x :: n <= x < |voiced| ==> !voiced[x]
  {
    if voiced == [] then 0
    else if voiced[|voiced| - 1] then |voiced| else SpokenUpto(voiced[..|voiced| - 1])
  }

  /** A segment is open exactly while there was speech within the endpoint silence. */
  lemma {:induction false} OpenIff(c: Config, b: Builder, h: History)
    requires Inv(c, b, h) && Tracked(c, b, h) && !b.closed
    ensures b.segment.Some? <==> SpokenWithin(h.voiced, c.endpoint)
    ensures b.lastSpeech == SpokenUpto(h.voiced)
  {
    if b.lastSpeech > 0 { assert h.voiced[b.lastSpeech - 1]; }
  }

  /** A piece of the stream: which segment it is, where it starts and from where it emits. */
  datatype Piece = Piece(segment: nat, start: int, emit: int)

  /** What may be shown of it: up to where, where the last speech ends, and why it is over
      if it is. */
  datatype View = View(end: int, spoken: int, over: Option<string>)

  ghost predicate WindowOf(w: Window, p: Piece, end: int, spoken: int) {
    (w.segment, w.start, w.emit, w.end, w.lastSpeech) == (p.segment, p.start, p.emit, end, Min(end, spoken))
  }

  /** The windows that come out of a piece: full ones while too much may be shown, each
      leaving some overlap to the next segment; then, if it is over, what is left; if not,
      at most one incremental window, and that exactly when it is due. */
  ghost predicate Laid(c: Config, ws: seq<Window>, p: Piece, v: View, shown: seq<Window>, r: Builder)
    requires c.Valid()
    decreases v.end - p.start
  {
    if v.end - p.start >= c.maxWindow then
      var end := p.start + c.maxWindow;
      && ws != [] && WindowOf(ws[0], p, end, v.spoken) && ws[0].final && ws[0].reason == "max_window"
      && Laid(c, ws[1..], Piece(p.segment + 1, end - c.overlap, end), v, shown, r)
    else if v.over.Some? then
      if p.emit < v.end
      then |ws| == 1 && WindowOf(ws[0], p, v.end, v.spoken) && ws[0].final && ws[0].reason == v.over.value
      else ws == []
    else
      && (r.segment, r.start, r.emitStart) == (Some(p.segment), p.start, p.emit) && |ws| <= 1
      && (|ws| == 1 <==> Due(c, p.start, p.emit, v.end, ShownUpto(shown, p.segment, p.emit)))
      && (|ws| == 1 ==> WindowOf(ws[0], p, v.end, v.spoken) && !ws[0].final)
  }

  /** An incremental window is due: long enough, something new to emit, and a step beyond
      what was shown before. */
  ghost predicate Due(c: Config, start: int, emit: int, end: int, shown: int) {
    end - start >= c.minWindow && end > emit && end - shown >= c.step
  }

  ghost function PieceOf(b: Builder): Piece {
    Piece(b.counter, b.start, b.emitStart)
  }

  /** What follows the full windows: the end of a segment, or what it shows meanwhile. */
  ghost predicate LaidLast(c: Config, ws: seq<Window>, s: Builder, v: View, shown: seq<Window>, r: Builder)
    requires c.Valid() && v.end - s.start < c.maxWindow
  {
    Laid(c, ws, PieceOf(s), v, shown, r)
  }

  lemma {:induction false} SplitLaid(c: Config, b: Builder, rest: seq<Window>, v: View, shown: seq<Window>, r: Builder)
    requires c.Valid() && b.segment == Some(b.counter) && Shaped(b) && v.end <= b.position && v.spoken == b.lastSpeech
    requires LaidLast(c, rest, Split(c, b, v.end).0, v, shown, r)
    ensures Laid(c, Split(c, b, v.end).1 + rest, PieceOf(b), v, shown, r)
    decreases v.end - b.start
  {
    if v.end - b.start < c.maxWindow {
      assert [] + rest == rest;
    } else {
      var cut := Cut(c, b);
      SplitLaid(c, cut.0, rest, v, shown, r);
      var more := Split(c, cut.0, v.end).1;
      assert ([cut.1] + more + rest)[1..] == more + rest;
      assert [cut.1] + more + rest == Split(c, b, v.end).1 + rest;
    }
  }

  lemma {:induction false} SplitIds(c: Config, b: Builder, visible: int)
    requires c.Valid() && b.segment == Some(b.counter) && Shaped(b) && visible <= b.position
    ensures var r := Split(c, b, visible);
      && r.0.segment == Some(r.0.counter)
      && (if r.1 == [] then r.0 == b else b.counter < r.0.counter)
      && (forall i :: 0 <= i < |r.1| ==> r.1[i].segment < r.0.counter)
    decreases visible - b.start
  {
    if visible - b.start >= c.maxWindow {
      SplitIds(c, Cut(c, b).0, visible);
    }
  }

  /** Earlier segments' windows show nothing of a new one. */
  lemma {:induction false} SplitShown(c: Config, b: Builder, h: History, visible: int)
    requires c.Valid() && b.segment.Some? && Shaped(b) && visible <= b.position && Numbered(b, h)
    ensures var s := Split(c, b, visible).0; s.lastOutput == ShownUpto(h.windows, s.counter, s.emitStart)
  {
    SplitIds(c, b, visible);
    SplitNumbered(c, b, h, visible);
    var r := Split(c, b, visible);
    if r.1 != [] {
      NothingShown(h.windows, r.0.counter, r.0.emitStart);
      NothingShown(h.windows + r.1, r.0.counter, r.0.emitStart);
    }
  }

  lemma {:induction false} EmittedLaid(c: Config, b: Builder, h: History, speech: bool)
    requires c.Valid() && b.segment.Some? && Shaped(b) && Numbered(b, h) && b.lastSpeech <= b.position
    ensures var r := Emitted(c, b, speech);
      Laid(c, r.1, PieceOf(b), View(Visible(c, b, speech), b.lastSpeech, Over(r.0)), h.windows, r.0)
  {
    var visible := Visible(c, b, speech);
    var r, s := Emitted(c, b, speech), Split(c, b, visible).0;
    SplitShown(c, b, h, visible);
    SplitIds(c, b, visible);
    var rest := Rest(c, b, s, speech, visible);
    EmittedIs(c, b, speech);
    var v := View(visible, b.lastSpeech, Over(r.0));
    RestLaid(c, b, h, s, r.0, speech, visible);
    hide Split, Numbered, Emitted, Rest, Laid, LaidLast, Visible;
    SplitLaid(c, b, rest, v, h.windows, r.0);
  }

  /** What comes out of the last piece of a segment. */
  function Rest(c: Config, b: Builder, s: Builder, speech: bool, visible: int): seq<Window>
    requires c.Valid() && s.segment.Some? && Shaped(s) && visible <= s.position && visible - s.start < c.maxWindow
  {
    if !speech && b.position - b.lastSpeech >= c.endpoint then Close(s, visible, "endpoint").1
    else if visible - s.start >= c.minWindow && visible - s.lastOutput >= c.step && visible > s.emitStart
    then [Put(s, visible, false, "incremental").1] else []
  }

  lemma {:induction false} EmittedIs(c: Config, b: Builder, speech: bool)
    requires c.Valid() && b.segment.Some? && Shaped(b) && b.lastSpeech <= b.position
    ensures var visible := Visible(c, b, speech); var split, r := Split(c, b, visible), Emitted(c, b, speech);
      && r.1 == split.1 + Rest(c, b, split.0, speech, visible)
      && (r.0.segment.None? <==> !speech && b.position - b.lastSpeech >= c.endpoint)
      && (r.0.segment.Some? ==>
            r.0.segment == split.0.segment && r.0.start == split.0.start && r.0.emitStart == split.0.emitStart)
  {
    hide Split;
    var split := Split(c, b, Visible(c, b, speech));
    assert split.1 + [] == split.1;
  }

  lemma {:induction false} RestLaid(c: Config, b: Builder, h: History, s: Builder, r: Builder, speech: bool,
                                    visible: int)
    requires c.Valid() && s.segment == Some(s.counter) && Shaped(s)
    requires visible <= s.position && visible - s.start < c.maxWindow
    requires s.lastOutput == ShownUpto(h.windows, s.counter, s.emitStart) && s.lastSpeech == b.lastSpeech
    requires r.segment.None? <==> !speech && b.position - b.lastSpeech >= c.endpoint
    requires r.segment.Some? ==> r.segment == s.segment && r.start == s.start && r.emitStart == s.emitStart
    ensures LaidLast(c, Rest(c, b, s, speech, visible), s, View(visible, b.lastSpeech, Over(r)), h.windows, r)
  {
    hide ShownUpto;
  }

  /** Where the audio that a frame adds to belongs: to the open segment, or to a new one
      that reaches back by the pre-roll but emits nothing twice. */
  ghost function Joins(c: Config, b: Builder, h: History): Piece {
    var back := |h.heard| - Min(c.preRoll, |h.heard|);
    if SpokenWithin(h.voiced, c.endpoint) then PieceOf(b)
    else Piece(b.counter + 1, back, Max(back, FinalUpto(h.windows)))
  }

  /** Whether a frame counts as speech, from what was heard before it. */
  ghost predicate Counts(c: Config, h: History, probability: real) {
    probability >= c.threshold || (probability >= c.negative && SpokenWithin(h.voiced, c.endpoint))
  }

  lemma {:induction false} PushLaid(c: Config, b: Builder, h: History, frame: Frame, probability: real)
    requires Inv(c, b, h) && Shaped(b) && Tracked(c, b, h) && !b.closed && |frame.samples| > 0
    requires Push(c, b, frame, probability).Accepted?
    ensures var r, counts := Push(c, b, frame, probability), Counts(c, h, probability);
            var voiced := Took(h, frame, counts).voiced;
      && Speech(c, b, probability) == counts
      && (r.builder.segment.Some? <==> SpokenWithin(voiced, c.endpoint))
      && if !counts && !SpokenWithin(h.voiced, c.endpoint) then r.windows == []
         else Laid(c, r.windows, Joins(c, b, h), Shows(c, voiced, Over(r.builder)), h.windows, r.builder)
  {
    PushOpens(c, b, h, frame, probability);
    TakenLaid(c, b, h, frame, probability);
    JoinsWhere(c, b, h);
    hide Push, Inv, Tracked, Laid, SpokenWithin, Shaped, Speech, Counts, Joins, Took, Shows;
  }

  ghost function Over(r: Builder): Option<string> {
    if r.segment.None? then Some("endpoint") else None
  }

  ghost function Shows(c: Config, voiced: seq<bool>, over: Option<string>): View {
    View(Min(|voiced|, SpokenUpto(voiced) + c.pad), SpokenUpto(voiced), over)
  }

  lemma {:induction false} JoinsWhere(c: Config, b: Builder, h: History)
    requires Inv(c, b, h) && Tracked(c, b, h) && !b.closed
    ensures b.segment.Some? <==> SpokenWithin(h.voiced, c.endpoint)
    ensures var back := b.position - Min(c.preRoll, b.position);
      Joins(c, b, h)
      == if b.segment.Some? then PieceOf(b) else Piece(b.counter + 1, back, Max(back, FinalUpto(h.windows)))
  {
    OpenIff(c, b, h);
    hide SpokenWithin, Numbered;
  }

  /** By the thresholds a frame counts as speech or not, and that decides what is open. */
  lemma {:induction false} PushOpens(c: Config, b: Builder, h: History, frame: Frame, probability: real)
    requires Inv(c, b, h) && Shaped(b) && Tracked(c, b, h) && !b.closed && |frame.samples| > 0
    requires Push(c, b, frame, probability).Accepted?
    ensures var r, counts := Push(c, b, frame, probability).builder, Counts(c, h, probability);
            var voiced := Took(h, frame, counts).voiced;
      && Speech(c, b, probability) == counts
      && (r.segment.Some? <==> SpokenWithin(voiced, c.endpoint))
      && forall over :: View(Min(r.position, r.lastSpeech + c.pad), r.lastSpeech, over) == Shows(c, voiced, over)
  {
    OpenIff(c, b, h);
    PushFacts(c, b, frame, probability);
    PushKeeps(c, b, h, frame, probability);
    PushTracks(c, b, h, frame, probability);
    var r := Push(c, b, frame, probability);
    var k := With(Took(h, frame, Speech(c, b, probability)), r.windows);
    OpenIff(c, r.builder, k);
    TrackedSize(c, r.builder, k);
    hide Push, Inv, Tracked, SpokenWithin, SpokenUpto, Shaped, Took;
  }

  lemma {:induction false} TrackedSize(c: Config, b: Builder, h: History)
    requires Tracked(c, b, h)
    ensures |h.voiced| == b.position
  {
  }

  lemma {:induction false} TakenLaid(c: Config, b: Builder, h: History, frame: Frame, probability: real)
    requires c.Valid() && Shaped(b) && Tracked(c, b, h) && |h.heard| == b.position && |frame.samples| > 0
    requires !b.closed && Push(c, b, frame, probability).Accepted?
    ensures var r, speech := Push(c, b, frame, probability), Speech(c, b, probability);
      var back := b.position - Min(c.preRoll, b.position);
      if !speech && b.segment.None? then r.windows == []
      else Laid(c, r.windows,
                if b.segment.Some? then PieceOf(b) else Piece(b.counter + 1, back, Max(back, FinalUpto(h.windows))),
                View(Min(r.builder.position, r.builder.lastSpeech + c.pad), r.builder.lastSpeech, Over(r.builder)),
                h.windows, r.builder)
  {
    var speech := Speech(c, b, probability);
    var taken := Extended(c, Onset(Anchored(b, frame), speech), frame, speech);
    PushFacts(c, b, frame, probability);
    TakenIs(c, b, h, frame, speech);
    PushTakes(c, b, frame, probability);
    if taken.segment.Some? {
      EmittedLaid(c, taken, Took(h, frame, speech), speech);
    }
    hide Emitted, Laid, Numbered, Onset, Anchored, Extended, Speech, Push, Tracked;
  }

  lemma {:induction false} PushTakes(c: Config, b: Builder, frame: Frame, probability: real)
    requires c.Valid() && Shaped(b) && Push(c, b, frame, probability).Accepted?
    ensures var r, speech := Push(c, b, frame, probability), Speech(c, b, probability);
      var taken := Extended(c, Onset(Anchored(b, frame), speech), frame, speech);
      && Shaped(taken) && taken.position == r.builder.position && taken.lastSpeech == r.builder.lastSpeech
      && (if taken.segment.None? then r == Accepted(taken, [])
          else r == Accepted(Emitted(c, taken, speech).0, Emitted(c, taken, speech).1))
  {
    hide Split;
  }

  lemma {:induction false} TakenIs(c: Config, b: Builder, h: History, frame: Frame, speech: bool)
    requires Shaped(b) && Tracked(c, b, h) && !b.closed && |frame.samples| > 0
    ensures var taken, back := Extended(c, Onset(Anchored(b, frame), speech), frame, speech),
                               b.position - Min(c.preRoll, b.position);
      && Numbered(taken, Took(h, frame, speech)) && taken.lastSpeech <= taken.position
      && (taken.segment.Some? <==> speech || b.segment.Some?)
      && (taken.segment.Some? ==>
            PieceOf(taken) == if b.segment.Some? then PieceOf(b)
                              else Piece(b.counter + 1, back, Max(back, FinalUpto(h.windows))))
      && (taken.segment.Some? ==> Visible(c, taken, speech) == Min(taken.position, taken.lastSpeech + c.pad))
  {
    var named := Anchored(b, frame);
    if speech && named.segment.None? {
      BeginNumbered(named, h, b.position - |b.recent|, Max(b.position - |b.recent|, b.lastFinal), b.recent);
    }
  }

  /** A flush puts out what the open segment still has to show, and nothing else. */
  lemma {:induction false} FlushLaid(c: Config, b: Builder, h: History, reason: string)
    requires Inv(c, b, h) && Shaped(b) && Tracked(c, b, h) && !b.closed
    ensures var r := Flush(c, b, reason);
      if SpokenWithin(h.voiced, c.endpoint)
      then Laid(c, r.1, Joins(c, b, h), Shows(c, h.voiced, Some(reason)), h.windows, r.0)
      else r.1 == []
  {
    OpenIff(c, b, h);
    JoinsWhere(c, b, h);
    TrackedSize(c, b, h);
    FlushShows(c, b, h, reason);
    hide SpokenWithin, SpokenUpto, Tracked, Inv, Flush, Laid, Joins;
  }

  lemma {:induction false} FlushShows(c: Config, b: Builder, h: History, reason: string)
    requires Inv(c, b, h) && Shaped(b) && Numbered(b, h) && !b.closed
    ensures var r := Flush(c, b, reason);
      if b.segment.Some?
      then Laid(c, r.1, PieceOf(b), View(Min(b.position, b.lastSpeech + c.pad), b.lastSpeech, Some(reason)), h.windows,
                r.0)
      else r.1 == []
  {
    hide Recorded, Pending, Settled;
  }

  lemma {:induction false} RunTracks(c: Config, b: Builder, h: History, inputs: seq<Input>)
    requires Inv(c, b, h) && Tracked(c, b, h) && forall i :: i in inputs ==> |i.frame.samples| > 0
    ensures var r := Run(c, b, h, inputs); Tracked(c, r.0, r.1)
    decreases |inputs|
  {
    hide Inv, Push, Took, Tracked;
    if inputs != [] {
      InvShaped(c, b, h);
      assert inputs[0] in inputs;
      PushKeeps(c, b, h, inputs[0].frame, inputs[0].probability);
      PushTracks(c, b, h, inputs[0].frame, inputs[0].probability);
      assert forall i :: i in inputs[1..] ==> i in inputs;
      match Push(c, b, inputs[0].frame, inputs[0].probability)
      case Refused(_, r) => RunTracks(c, r, h, inputs[1..]);
      case Accepted(r, ws) =>
        RunTracks(c, r, With(Took(h, inputs[0].frame, Speech(c, b, inputs[0].probability)), ws), inputs[1..]);
    }
  }

  /** After any stream: a frame counts as speech by the upper threshold, or by the lower
      one while there was speech within the endpoint silence; a segment is open exactly
      while there was; and the frame brings exactly the windows that are due, full, last or
      incremental, or none when nothing is open and it is not speech. */
  lemma {:induction false} ShownOnTime(c: Config, counter: nat, inputs: seq<Input>, frame: Frame, probability: real)
    requires c.Valid() && |frame.samples| > 0 && forall i :: i in inputs ==> |i.frame.samples| > 0
    ensures Inv(c, Fresh(counter), Nothing)
    ensures var run := Run(c, Fresh(counter), Nothing, inputs);
      && Shaped(run.0)
      && (Push(c, run.0, frame, probability).Accepted? ==>
            var h, r, counts := run.1, Push(c, run.0, frame, probability), Counts(c, run.1, probability);
            var voiced := Took(h, frame, counts).voiced;
            && Speech(c, run.0, probability) == counts
            && (r.builder.segment.Some? <==> SpokenWithin(voiced, c.endpoint))
            && if !counts && !SpokenWithin(h.voiced, c.endpoint) then r.windows == []
               else Laid(c, r.windows, Joins(c, run.0, h), Shows(c, voiced, Over(r.builder)), h.windows, r.builder))
  {
    FreshHolds(c, counter);
    FreshTracked(c, counter);
    RunKeeps(c, Fresh(counter), Nothing, inputs);
    RunTracks(c, Fresh(counter), Nothing, inputs);
    var run := Run(c, Fresh(counter), Nothing, inputs);
    assert !Fresh(counter).closed;
    InvShaped(c, run.0, run.1);
    if Push(c, run.0, frame, probability).Accepted? {
      hide *;
      PushLaid(c, run.0, run.1, frame, probability);
    }
  }

  lemma {:induction false} FreshTracked(c: Config, counter: nat)
    requires c.Valid()
    ensures Tracked(c, Fresh(counter), Nothing)
  {
  }

  lemma {:induction false} CutGrows(c: Config, b: Builder)
    requires c.Valid() && b.segment.Some? && Shaped(b) && c.maxWindow <= b.position - b.start
    ensures var r := Cut(c, b).0;
      r.segment.Some? && Shaped(r) && b.start < r.start && r.position == b.position
  {
  }

  // -------- The builder itself

  class SpeechWindowBuilder {
    const c: Config
    var last: Option<Frame>
    var broken: bool
    var origin: int
    var position: nat
    var recent: seq<real>
    var samples: seq<real>
    var start: int
    var emitStart: int
    var segment: Option<nat>
    var lastSpeech: int
    var lastOutput: int
    var lastFinal: int
    var closed: bool
    var counter: nat

    function State(): Builder
      reads this
    {
      Builder(last, broken, origin, position, recent, samples, start, emitStart, segment, lastSpeech, lastOutput,
              lastFinal, closed, counter)
    }

    constructor (c: Config)
      requires c.Valid()
      ensures State() == Fresh(0) && this.c == c
    {
      this.c := c;
      last, broken, origin, position, recent, samples := None, false, 0, 0, [], [];
      start, emitStart, segment, lastSpeech, lastOutput, lastFinal := 0, 0, None, 0, 0, 0;
      closed, counter := false, 0;
    }

    method Reset()
      modifies this`last, this`broken, this`origin, this`position, this`recent, this`samples, this`start,
               this`emitStart, this`segment, this`lastSpeech, this`lastOutput, this`lastFinal, this`closed
      ensures State() == Fresh(old(counter))
    {
      ResetStream();
      samples, start, emitStart, segment := [], 0, 0, None;
      lastSpeech, lastOutput, lastFinal := 0, 0, 0;
    }

    method ResetStream()
      modifies this`last, this`broken, this`origin, this`position, this`recent, this`closed
      ensures last == None && !broken && origin == 0 && position == 0 && recent == [] && !closed
    {
      last, broken, closed := None, false, false;
      origin, position, recent := 0, 0, [];
    }

    method BeginSegment(from: int, emit: int, initial: seq<real>)
      modifies this`counter, this`segment, this`start, this`emitStart, this`samples, this`lastOutput
      ensures State() == NewSegment(old(State()), from, emit, initial)
    {
      counter := counter + 1;
      segment, start, emitStart, samples, lastOutput := Some(counter), from, emit, initial, emit;
    }

    method MakeWindow(end: int, final: bool, reason: string) returns (w: Window)
      requires segment.Some? && 0 <= end - start <= |samples|
      modifies this`lastOutput, this`lastFinal
      ensures (State(), w) == Put(old(State()), end, final, reason)
    {
      lastOutput := Max(lastOutput, end);
      if final { lastFinal := Max(lastFinal, end); }
      w := Window(segment.value, start, end, samples[..end - start], final, reason, emitStart, Min(end, lastSpeech));
    }

    method PushFrame(frame: Frame, probability: real) returns (r: Result<seq<Window>, Error>)
      requires c.Valid() && Shaped(State())
      modifies this
      ensures match Push(c, old(State()), frame, probability)
              case Accepted(b, ws) => State() == b && r == Ok(ws)
              case Refused(e, b) => State() == b && r == Err(e)
    {
      hide Split, Emitted, Tail;
      if closed { return Err(Flushed); }
      if !(0.0 <= probability <= 1.0) { return Err(BadProbability); }
      if broken { return Err(Discontinuous); }
      if last.Some? && !(frame.track == last.value.track && frame.epoch == last.value.epoch
                         && frame.sequence == last.value.sequence + 1 && frame.startNs == last.value.EndNs()) {
        broken := true;
        return Err(Discontinuous);
      }
      if last.None? { origin := frame.startNs; }
      var speech := probability >= if segment.Some? then c.negative else c.threshold;
      if speech && segment.None? {
        var from := position - |recent|;
        BeginSegment(from, Max(from, lastFinal), recent);
      }
      TakeIn(frame, speech);
      if segment.None? { return Ok([]); }
      var windows := Emit(speech);
      return Ok(windows);
    }

    method TakeIn(frame: Frame, speech: bool)
      modifies this`samples, this`lastSpeech, this`recent, this`position, this`last
      ensures State() == Extended(c, old(State()), frame, speech)
    {
      var end := position + |frame.samples|;
      if segment.Some? {
        samples := samples + frame.samples;
        if speech { lastSpeech := end; }
      }
      recent := Tail(recent + frame.samples, c.preRoll);
      position, last := end, Some(frame);
    }

    method CutWindow() returns (w: Window)
      requires c.Valid() && segment.Some? && Shaped(State()) && c.maxWindow <= position - start
      modifies this
      ensures (State(), w) == Cut(c, old(State()))
    {
      var boundary := start + c.maxWindow;
      w := MakeWindow(boundary, true, "max_window");
      var next := boundary - c.overlap;
      BeginSegment(next, boundary, samples[next - start..]);
    }

    /** Full windows go out while too much is visible. */
    method SplitOff(visible: int) returns (windows: seq<Window>)
      requires c.Valid() && segment.Some? && Shaped(State()) && visible <= position
      modifies this
      ensures (State(), windows) == Split(c, old(State()), visible)
    {
      hide Cut;
      windows := [];
      ghost var all := Split(c, State(), visible);
      while visible - start >= c.maxWindow
        invariant segment.Some? && Shaped(State()) && visible <= position
        invariant Split(c, State(), visible).0 == all.0 && windows + Split(c, State(), visible).1 == all.1
        decreases visible - start
      {
        ghost var before := State();
        var w := CutWindow();
        CutGrows(c, before);
        windows := windows + [w];
      }
      assert State() == all.0 && windows == all.1 && all.1 + [] == all.1;
    }

    method Emit(speech: bool) returns (windows: seq<Window>)
      requires c.Valid() && segment.Some? && Shaped(State())
      modifies this
      ensures (State(), windows) == Emitted(c, old(State()), speech)
    {
      hide Split;
      var endpoint := !speech && position - lastSpeech >= c.endpoint;
      var visible := if speech then position else Min(position, lastSpeech + c.pad);
      windows := SplitOff(visible);
      assert windows + [] == windows;
      if endpoint {
        if visible > emitStart {
          var w := MakeWindow(visible, true, "endpoint");
          windows := windows + [w];
        }
        samples, segment := [], None;
      } else if visible - start >= c.minWindow && visible - lastOutput >= c.step && visible > emitStart {
        var w := MakeWindow(visible, false, "incremental");
        windows := windows + [w];
      }
    }

    method FlushAll(reason: string) returns (windows: seq<Window>)
      requires c.Valid() && Shaped(State())
      modifies this
      ensures (State(), windows) == Flush(c, old(State()), reason)
    {
      if closed { return []; }
      closed := true;
      windows := [];
      if segment.Some? {
        var end := Min(position, lastSpeech + c.pad);
        if end > emitStart {
          var w := MakeWindow(end, true, reason);
          windows := [w];
        }
      }
      samples, recent, segment := [], [], None;
    }
  }
}
