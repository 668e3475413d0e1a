/** Receipt times of ingested frames (ingress_timing.py): a bounded history and a backward
    search that answers only for intervals it still covers without a gap. */
module Ingress {
  import opened Common
  import opened Wrappers

  datatype Frame = Frame(track: string, epoch: string, sequence: nat, start: int, end: int)

  datatype Receipt = Receipt(
    track: string, epoch: string, start: int, end: int, sequence: nat, receivedAt: real, continuity: nat)

  datatype Error = Replayed | ClockMovedBack

  datatype Timeline = Timeline(frames: seq<Receipt>, last: Option<Receipt>, continuity: nat, gapPending: bool)

  const Fresh := Timeline([], None, 0, false)

  // -------- Observing

  predicate Breaks(t: Timeline, frame: Frame)
    requires t.last.Some?
  {
    t.gapPending || frame.epoch != t.last.value.epoch || frame.sequence != t.last.value.sequence + 1
    || frame.start != t.last.value.end
  }

  function Entry(t: Timeline, frame: Frame, receivedAt: real): Receipt {
    Receipt(frame.track, frame.epoch, frame.start, frame.end, frame.sequence, receivedAt,
            if t.last.Some? && Breaks(t, frame) then t.continuity + 1 else t.continuity)
  }

  function Observed(t: Timeline, limit: nat, frame: Frame, receivedAt: real): Result<Timeline, Error> {
    if t.last.Some? && (frame.track != t.last.value.track || frame.start < t.last.value.end) then Err(Replayed)
    else if t.last.Some? && receivedAt < t.last.value.receivedAt then Err(ClockMovedBack)
    else
      var entry := Entry(t, frame, receivedAt);
      var kept := if |t.frames| == limit && t.frames != [] then t.frames[1..] else t.frames;
      Ok(Timeline(kept + [entry], Some(entry), entry.continuity, false))
  }

  function Gap(t: Timeline): Timeline {
    t.(gapPending := true)
  }

  // -------- The backward search

  predicate EndsIn(r: Receipt, track: string, epoch: string, end: int) {
    r.start < end <= r.end && r.track == track && r.epoch == epoch
  }

  /** Walks back through `run` until a frame reaches `start` or the run ends. */
  function Reach(frames: seq<Receipt>, continuity: nat, start: int): bool {
    if frames == [] then false
    else
      var last := frames[|frames| - 1];
      if last.continuity != continuity then false
      else if last.start <= start then true
      else Reach(frames[..|frames| - 1], continuity, start)
  }

  function Anchor(frames: seq<Receipt>, track: string, epoch: string, start: int, end: int): Option<real> {
    if start < 0 || end <= start then None else Search(frames, track, epoch, start, end)
  }

  function Search(frames: seq<Receipt>, track: string, epoch: string, start: int, end: int): Option<real> {
    if frames == [] then None
    else
      var last := frames[|frames| - 1];
      if EndsIn(last, track, epoch, end) then
        if Reach(frames, last.continuity, start) then Some(last.receivedAt) else None
      else Search(frames[..|frames| - 1], track, epoch, start, end)
  }

  // -------- What the history keeps

  /** Frames of one continuity follow each other exactly; others never overlap or rewind. */
  ghost predicate Follows(a: Receipt, b: Receipt) {
    && a.end <= b.start && a.continuity <= b.continuity && a.track == b.track && a.receivedAt <= b.receivedAt
    && (a.continuity == b.continuity ==> a.end == b.start && a.epoch == b.epoch && b.sequence == a.sequence + 1)
  }

  ghost predicate Chained(frames: seq<Receipt>) {
    && (forall i :: 0 <= i < |frames| ==> frames[i].start < frames[i].end)
    && (forall i :: 0 <= i < |frames| - 1 ==> Follows(frames[i], frames[i + 1]))
  }

  ghost predicate Inv(t: Timeline, limit: nat) {
    && limit >= 1 && |t.frames| <= limit && Chained(t.frames)
    && (t.last.Some? <==> t.frames != [])
    && (t.last.Some? ==> t.last.value == t.frames[|t.frames| - 1] && t.last.value.continuity == t.continuity)
  }

  lemma {:induction false} ObservedKeeps(t: Timeline, limit: nat, frame: Frame, receivedAt: real)
    requires Inv(t, limit) && frame.start < frame.end
    ensures Inv(Observed(t, limit, frame, receivedAt).GetOr(t), limit)
  {
    var r := Observed(t, limit, frame, receivedAt);
    if r.Ok? {
      var fs := r.value.frames;
      var entry := Entry(t, frame, receivedAt);
      var kept := fs[..|fs| - 1];
      forall i | 0 <= i < |fs| - 1
        ensures Follows(fs[i], fs[i + 1])
      {
        var shift := |t.frames| - |kept|;
        assert fs[i] == t.frames[i + shift];
        if i + 1 < |kept| { assert fs[i + 1] == t.frames[i + 1 + shift]; }
      }
    }
  }

  datatype Step = DoObserve(frame: Frame, receivedAt: real) | DoGap

  function Apply(t: Timeline, limit: nat, step: Step): Timeline {
    match step
    case DoObserve(frame, at) => if frame.start < frame.end then Observed(t, limit, frame, at).GetOr(t) else t
    case DoGap => Gap(t)
  }

  function Run(t: Timeline, limit: nat, steps: seq<Step>): Timeline
    decreases |steps|
  {
    if steps == [] then t else Run(Apply(t, limit, steps[0]), limit, steps[1..])
  }

  lemma {:induction false} RunKeeps(t: Timeline, limit: nat, steps: seq<Step>)
    requires Inv(t, limit)
    ensures Inv(Run(t, limit, steps), limit)
    decreases |steps|
  {
    if steps != [] {
      if steps[0].DoObserve? && steps[0].frame.start < steps[0].frame.end {
        ObservedKeeps(t, limit, steps[0].frame, steps[0].receivedAt);
      }
      RunKeeps(Apply(t, limit, steps[0]), limit, steps[1..]);
    }
  }

  // -------- What an answer means

  /** Every instant of the interval lies in some retained frame of this continuity run. */
  ghost predicate Covered(frames: seq<Receipt>, continuity: nat, start: int, end: int) {
    forall x :: start <= x < end ==> At(frames, continuity, x)
  }

  ghost predicate At(frames: seq<Receipt>, continuity: nat, x: int) {
    exists k :: 0 <= k < |frames| && frames[k].start <= x < frames[k].end && frames[k].continuity == continuity
  }

  lemma {:induction false} ChainedPrefix(frames: seq<Receipt>)
    requires Chained(frames) && frames != []
    ensures Chained(frames[..|frames| - 1])
  {
    var f := frames[..|frames| - 1];
    forall i | 0 <= i < |f| - 1
      ensures Follows(f[i], f[i + 1])
    {
      assert Follows(frames[i], frames[i + 1]);
    }
  }

  lemma {:induction false} ChainedOrder(frames: seq<Receipt>, i: nat, j: nat)
    requires Chained(frames) && i < j < |frames|
    ensures frames[i].end <= frames[j].start && frames[i].continuity <= frames[j].continuity
    decreases j - i
  {
    assert Follows(frames[j - 1], frames[j]);
    if i < j - 1 { ChainedOrder(frames, i, j - 1); }
  }

  /** The walk back succeeds exactly when the run covers everything down to `start`. */
  lemma {:induction false} ReachIff(frames: seq<Receipt>, start: int, end: int)
    requires Chained(frames) && frames != [] && start < end
    requires frames[|frames| - 1].start < end <= frames[|frames| - 1].end
    ensures Reach(frames, frames[|frames| - 1].continuity, start)
       <==> Covered(frames, frames[|frames| - 1].continuity, start, end)
  {
    var n := |frames| - 1;
    var last, front := frames[n], frames[..n];
    if last.start <= start {
      assert frames[n] == last;
      forall x | start <= x < end
        ensures At(frames, last.continuity, x)
      {
        assert frames[n].start <= x < frames[n].end;
      }
    } else if front == [] {
      assert !At(frames, last.continuity, start);
    } else {
      ChainedPrefix(frames);
      assert Follows(frames[n - 1], frames[n]);
      if front[n - 1].continuity != last.continuity {
        NotBefore(frames, start);
        assert !Reach(front, last.continuity, start);
      } else {
        ReachIff(front, start, last.start);
        FrontCovers(frames, start, end);
      }
    }
  }

  /** Nothing of the last frame's run lies before it. */
  lemma {:induction false} NotBefore(frames: seq<Receipt>, start: int)
    requires Chained(frames) && |frames| > 1
    requires frames[|frames| - 2].continuity != frames[|frames| - 1].continuity
    requires start < frames[|frames| - 1].start
    ensures !At(frames, frames[|frames| - 1].continuity, start)
  {
    var n := |frames| - 1;
    assert Follows(frames[n - 1], frames[n]);
    forall k | 0 <= k < |frames| && frames[k].start <= start < frames[k].end
      ensures frames[k].continuity != frames[n].continuity
    {
      if k < n - 1 { ChainedOrder(frames, k, n - 1); }
    }
  }

  lemma {:induction false} FrontCovers(frames: seq<Receipt>, start: int, end: int)
    requires Chained(frames) && |frames| > 1 && start < frames[|frames| - 1].start < end <= frames[|frames| - 1].end
    ensures var c, n := frames[|frames| - 1].continuity, |frames| - 1;
      Covered(frames, c, start, end) <==> Covered(frames[..n], c, start, frames[n].start)
  {
    var n := |frames| - 1;
    var c, front := frames[n].continuity, frames[..n];
    if Covered(frames, c, start, end) {
      forall x | start <= x < frames[n].start
        ensures At(front, c, x)
      {
        assert At(frames, c, x);
        var k :| 0 <= k < |frames| && frames[k].start <= x < frames[k].end && frames[k].continuity == c;
        assert front[k] == frames[k];
      }
    }
    if Covered(front, c, start, frames[n].start) {
      forall x | start <= x < end
        ensures At(frames, c, x)
      {
        if x < frames[n].start {
          assert At(front, c, x);
          var k :| 0 <= k < |front| && front[k].start <= x < front[k].end && front[k].continuity == c;
          assert frames[k] == front[k];
        } else {
          assert frames[n].start <= x < frames[n].end;
        }
      }
    }
  }

  lemma {:induction false} SearchIff(frames: seq<Receipt>, track: string, epoch: string, start: int, end: int, at: real)
    requires Chained(frames) && start < end
    ensures Search(frames, track, epoch, start, end) == Some(at) <==> Answers(frames, track, epoch, start, end, at)
  {
    if frames != [] {
      var n := |frames| - 1;
      var last, front := frames[n], frames[..n];
      if EndsIn(last, track, epoch, end) {
        ReachIff(frames, start, end);
        assert AnswersAt(frames, n, track, epoch, start, end, at)
          <==> Reach(frames, last.continuity, start) && last.receivedAt == at;
        forall j | 0 <= j < |frames| && EndsIn(frames[j], track, epoch, end)
          ensures j == n
        {
          if j < n { ChainedOrder(frames, j, n); }
        }
      } else {
        ChainedPrefix(frames);
        SearchIff(front, track, epoch, start, end, at);
        FrontAnswers(frames, track, epoch, start, end, at);
      }
    }
  }

  /** `at` is the receipt of the frame in which the interval ends, and that frame's run
      covers the interval. */
  ghost predicate Answers(frames: seq<Receipt>, track: string, epoch: string, start: int, end: int, at: real) {
    exists j :: 0 <= j < |frames| && AnswersAt(frames, j, track, epoch, start, end, at)
  }

  ghost predicate AnswersAt(frames: seq<Receipt>, j: nat, track: string, epoch: string, start: int, end: int, at: real)
    requires j < |frames|
  {
    EndsIn(frames[j], track, epoch, end) && frames[j].receivedAt == at
        && Covered(frames, frames[j].continuity, start, end)
  }

  lemma {:induction false} FrontAnswers(frames: seq<Receipt>, track: string, epoch: string, start: int, end: int,
                                        at: real)
    requires Chained(frames) && frames != [] && start < end && !EndsIn(frames[|frames| - 1], track, epoch, end)
    ensures Answers(frames, track, epoch, start, end, at)
       <==> Answers(frames[..|frames| - 1], track, epoch, start, end, at)
  {
    var n := |frames| - 1;
    var front := frames[..n];
    if j :| 0 <= j < |frames| && AnswersAt(frames, j, track, epoch, start, end, at) {
      assert front[j] == frames[j];
      ChainedOrder(frames, j, n);
      FrontSame(frames, frames[j].continuity, start, end);
      assert AnswersAt(front, j, track, epoch, start, end, at);
    }
    if j :| 0 <= j < |front| && AnswersAt(front, j, track, epoch, start, end, at) {
      assert front[j] == frames[j];
      ChainedOrder(frames, j, n);
      FrontSame(frames, frames[j].continuity, start, end);
      assert AnswersAt(frames, j, track, epoch, start, end, at);
    }
  }

  /** A frame that starts at or after `end` covers nothing before it. */
  lemma {:induction false} FrontSame(frames: seq<Receipt>, continuity: nat, start: int, end: int)
    requires frames != [] && end <= frames[|frames| - 1].start
    ensures Covered(frames, continuity, start, end) <==> Covered(frames[..|frames| - 1], continuity, start, end)
  {
    var front := frames[..|frames| - 1];
    forall x | start <= x < end
      ensures At(frames, continuity, x) <==> At(front, continuity, x)
    {
      if At(frames, continuity, x) {
        var k :| 0 <= k < |frames| && frames[k].start <= x < frames[k].end && frames[k].continuity == continuity;
        assert front[k] == frames[k];
      }
      if At(front, continuity, x) {
        var k :| 0 <= k < |front| && front[k].start <= x < front[k].end && front[k].continuity == continuity;
        assert frames[k] == front[k];
      }
    }
  }

  /** After any history of frames, gaps and evictions, an interval is answered exactly when
      retained frames of one unbroken run cover all of it and the one it ends in carries
      the track and epoch; the answer is that frame's receipt. */
  lemma {:induction false} AnchorIff(limit: nat, steps: seq<Step>, track: string, epoch: string, start: int,
                                     end: int, at: real)
    requires limit >= 1
    ensures var frames := Run(Fresh, limit, steps).frames;
      Anchor(frames, track, epoch, start, end) == Some(at)
      <==> 0 <= start < end && Answers(frames, track, epoch, start, end, at)
  {
    RunKeeps(Fresh, limit, steps);
    if 0 <= start < end {
      SearchIff(Run(Fresh, limit, steps).frames, track, epoch, start, end, at);
    }
  }

  // -------- Read over the frames given

  /** A frame as it was given: when it was received, and whether a gap was marked before it. */
  datatype Given = Given(frame: Frame, at: real, gap: bool)

  /** The frames accepted so far, and whether a gap has been marked since the last. */
  datatype Record = Record(given: seq<Given>, gap: bool)

  /** A frame is accepted unless it changes track, rewinds, or was received earlier. */
  predicate Admits(given: seq<Given>, frame: Frame, at: real) {
    frame.start < frame.end
    && (given != [] ==>
          var last := given[|given| - 1];
          frame.track == last.frame.track && last.frame.end <= frame.start && last.at <= at)
  }

  function Note(r: Record, step: Step): Record {
    match step
    case DoGap => r.(gap := true)
    case DoObserve(frame, at) =>
      if Admits(r.given, frame, at) then Record(r.given + [Given(frame, at, r.gap)], false) else r
  }

  function Notes(r: Record, steps: seq<Step>): Record
    decreases |steps|
  {
    if steps == [] then r else Notes(Note(r, steps[0]), steps[1..])
  }

  /** The second frame goes on exactly where the first ended. */
  predicate Joined(a: Given, b: Given) {
    !b.gap && b.frame.epoch == a.frame.epoch && b.frame.sequence == a.frame.sequence + 1 && b.frame.start == a.frame.end
  }

  predicate Keeps(r: Receipt, g: Given) {
    Frame(r.track, r.epoch, r.sequence, r.start, r.end) == g.frame && r.receivedAt == g.at
  }

  function Latest(given: seq<Given>, limit: nat): (r: seq<Given>)
    ensures |r| == Min(limit, |given|)
  {
    given[|given| - Min(limit, |given|)..]
  }

  ghost predicate Mirrors(frames: seq<Receipt>, given: seq<Given>) {
    && |frames| == |given|
    && (forall k :: 0 <= k < |frames| ==> Keeps(frames[k], given[k]))
    && (forall k :: 0 <= k < |frames| - 1 ==>
          (frames[k].continuity == frames[k + 1].continuity <==> Joined(given[k], given[k + 1])))
  }

  ghost predicate Tied(t: Timeline, r: Record, limit: nat) {
    Inv(t, limit) && Mirrors(t.frames, Latest(r.given, limit)) && t.gapPending == r.gap
  }

  lemma {:induction false} StepTied(t: Timeline, r: Record, limit: nat, step: Step)
    requires Tied(t, r, limit)
    ensures Tied(Apply(t, limit, step), Note(r, step), limit)
  {
    if step.DoObserve? && step.frame.start < step.frame.end {
      ObservedKeeps(t, limit, step.frame, step.receivedAt);
      if t.frames != [] {
        assert Keeps(t.frames[|t.frames| - 1], Latest(r.given, limit)[|t.frames| - 1]);
      }
      if Admits(r.given, step.frame, step.receivedAt) {
        FrameTied(t, r, limit, step.frame, step.receivedAt);
      }
    }
  }

  lemma {:induction false} FrameTied(t: Timeline, r: Record, limit: nat, frame: Frame, at: real)
    requires Tied(t, r, limit) && Admits(r.given, frame, at) && Observed(t, limit, frame, at).Ok?
    ensures var q := Record(r.given + [Given(frame, at, r.gap)], false);
      Mirrors(Observed(t, limit, frame, at).value.frames, Latest(q.given, limit))
  {
    var before, g := Latest(r.given, limit), Given(frame, at, r.gap);
    var drop := if |r.given| >= limit then 1 else 0;
    LatestMore(r.given, g, limit);
    ObservedFrames(t, r, limit, frame, at);
    EntryJoins(t, r, limit, frame, at);
    hide *;
    MirrorsFrom(t.frames, before, drop);
    MirrorsMore(t.frames[drop..], before[drop..], Entry(t, frame, at), g);
  }

  lemma {:induction false} LatestMore(given: seq<Given>, g: Given, limit: nat)
    requires limit >= 1
    ensures var drop := if |given| >= limit then 1 else 0;
      drop <= |Latest(given, limit)| && Latest(given + [g], limit) == Latest(given, limit)[drop..] + [g]
  {
  }

  lemma {:induction false} ObservedFrames(t: Timeline, r: Record, limit: nat, frame: Frame, at: real)
    requires Tied(t, r, limit) && Observed(t, limit, frame, at).Ok?
    ensures var drop := if |r.given| >= limit then 1 else 0;
      && limit >= 1 && Mirrors(t.frames, Latest(r.given, limit)) && drop <= |t.frames|
      && Observed(t, limit, frame, at).value.frames == t.frames[drop..] + [Entry(t, frame, at)]
      && (t.frames[drop..] != [] ==>
            t.frames[drop..][|t.frames| - drop - 1] == t.frames[|t.frames| - 1]
            && Latest(r.given, limit)[drop..][|t.frames| - drop - 1]
               == Latest(r.given, limit)[|Latest(r.given, limit)| - 1])
  {
  }

  lemma {:induction false} EntryJoins(t: Timeline, r: Record, limit: nat, frame: Frame, at: real)
    requires Tied(t, r, limit) && Admits(r.given, frame, at)
    ensures var g, entry, before := Given(frame, at, r.gap), Entry(t, frame, at), Latest(r.given, limit);
      && Keeps(entry, g)
      && (t.frames != [] ==>
            (t.frames[|t.frames| - 1].continuity == entry.continuity <==> Joined(before[|before| - 1], g)))
  {
    var before := Latest(r.given, limit);
    if t.frames != [] { assert Keeps(t.frames[|t.frames| - 1], before[|before| - 1]); }
  }

  lemma {:induction false} MirrorsFrom(frames: seq<Receipt>, given: seq<Given>, drop: nat)
    requires Mirrors(frames, given) && drop <= |frames|
    ensures Mirrors(frames[drop..], given[drop..])
  {
    forall k | 0 <= k < |frames| - drop
      ensures Keeps(frames[drop..][k], given[drop..][k])
    {
      assert Keeps(frames[k + drop], given[k + drop]);
    }
    hide Keeps, Joined;
    forall k | 0 <= k < |frames| - drop - 1
      ensures frames[drop..][k].continuity == frames[drop..][k + 1].continuity
        <==> Joined(given[drop..][k], given[drop..][k + 1])
    {
      assert frames[k + drop].continuity == frames[k + drop + 1].continuity
        <==> Joined(given[k + drop], given[k + drop + 1]);
    }
  }

  lemma {:induction false} MirrorsMore(frames: seq<Receipt>, given: seq<Given>, entry: Receipt, g: Given)
    requires Mirrors(frames, given) && Keeps(entry, g)
    requires frames != [] ==>
      (frames[|frames| - 1].continuity == entry.continuity <==> Joined(given[|given| - 1], g))
    ensures Mirrors(frames + [entry], given + [g])
  {
    hide Keeps, Joined;
    forall k | 0 <= k < |frames|
      ensures (frames + [entry])[k].continuity == (frames + [entry])[k + 1].continuity
        <==> Joined((given + [g])[k], (given + [g])[k + 1])
    {
      if k + 1 < |frames| {
        assert frames[k].continuity == frames[k + 1].continuity <==> Joined(given[k], given[k + 1]);
      }
    }
  }

  lemma {:induction false} RunTied(t: Timeline, r: Record, limit: nat, steps: seq<Step>)
    requires Tied(t, r, limit)
    ensures Tied(Run(t, limit, steps), Notes(r, steps), limit)
    decreases |steps|
  {
    hide Tied, Apply, Note;
    if steps != [] {
      StepTied(t, r, limit, steps[0]);
      RunTied(Apply(t, limit, steps[0]), Note(r, steps[0]), limit, steps[1..]);
    }
  }

  /** The latest frames given are retained as they were, and two neighbours are of one run
      if and only if the second goes on exactly where the first ended and no gap was marked
      between them. */
  lemma {:induction false} RunsAreUnbroken(limit: nat, steps: seq<Step>)
    requires limit >= 1
    ensures Mirrors(Run(Fresh, limit, steps).frames, Latest(Notes(Record([], false), steps).given, limit))
  {
    RunTied(Fresh, Record([], false), limit, steps);
    hide Run, Notes, Mirrors;
  }

  /** Frame `i` starts in time and each later one goes on where the one before it ended. */
  ghost predicate Reaches(given: seq<Given>, i: nat, start: int) {
    i < |given| && given[i].frame.start <= start && forall k :: i <= k < |given| - 1 ==> Joined(given[k], given[k + 1])
  }

  /** The interval ends in frame `j`, received at `at`, and unbroken frames lead to it from
      the start of the interval. */
  ghost predicate Leads(given: seq<Given>, j: nat, track: string, epoch: string, start: int, end: int, at: real) {
    && j < |given| && given[j].at == at && given[j].frame.start < end <= given[j].frame.end
    && given[j].frame.track == track && given[j].frame.epoch == epoch
    && Reachable(given[..j + 1], start)
  }

  ghost predicate Reachable(given: seq<Given>, start: int) {
    exists i: nat :: Reaches(given, i, start)
  }

  ghost predicate Led(given: seq<Given>, track: string, epoch: string, start: int, end: int, at: real) {
    exists j: nat :: Leads(given, j, track, epoch, start, end, at)
  }

  lemma {:induction false} ReachGiven(frames: seq<Receipt>, given: seq<Given>, start: int)
    requires Mirrors(frames, given) && frames != []
    ensures Reach(frames, frames[|frames| - 1].continuity, start) <==> Reachable(given, start)
  {
    var n := |frames| - 1;
    assert Keeps(frames[n], given[n]);
    var front := given[..n];
    if frames[n].start <= start {
      assert Reaches(given, n, start);
    } else if n > 0 {
      assert frames[n - 1].continuity == frames[n].continuity <==> Joined(given[n - 1], given[n]);
      MirrorsFront(frames, given);
      ReachGiven(frames[..n], front, start);
      hide Keeps, Joined, Mirrors, Reaches;
      if frames[n - 1].continuity == frames[n].continuity {
        if i: nat :| Reaches(front, i, start) { ReachesMore(given, i, start); }
        if i: nat :| Reaches(given, i, start) { ReachesLess(given, i, start); }
      } else if i: nat :| Reaches(given, i, start) {
        NotReached(given, i, start);
      }
    }
  }

  lemma {:induction false} MirrorsFront(frames: seq<Receipt>, given: seq<Given>)
    requires Mirrors(frames, given) && frames != []
    ensures Mirrors(frames[..|frames| - 1], given[..|given| - 1])
  {
    hide Keeps, Joined;
  }

  lemma {:induction false} ReachesMore(given: seq<Given>, i: nat, start: int)
    requires |given| > 1 && Reaches(given[..|given| - 1], i, start)
    requires Joined(given[|given| - 2], given[|given| - 1])
    ensures Reaches(given, i, start)
  {
    hide Joined;
    forall k | i <= k < |given| - 1
      ensures Joined(given[k], given[k + 1])
    {
      if k < |given| - 2 { assert Joined(given[..|given| - 1][k], given[..|given| - 1][k + 1]); }
    }
  }

  lemma {:induction false} ReachesLess(given: seq<Given>, i: nat, start: int)
    requires |given| > 1 && Reaches(given, i, start) && start < given[|given| - 1].frame.start
    ensures Reaches(given[..|given| - 1], i, start)
  {
    hide Joined;
    var front := given[..|given| - 1];
    forall k | i <= k < |front| - 1
      ensures Joined(front[k], front[k + 1])
    {
      assert Joined(given[k], given[k + 1]);
    }
  }

  lemma {:induction false} NotReached(given: seq<Given>, i: nat, start: int)
    requires |given| > 1 && start < given[|given| - 1].frame.start && Reaches(given, i, start)
    ensures Joined(given[|given| - 2], given[|given| - 1])
  {
    hide Joined;
    assert i <= |given| - 2;
  }

  lemma {:induction false} SearchGiven(frames: seq<Receipt>, given: seq<Given>, track: string, epoch: string,
                                       start: int, end: int, at: real)
    requires Chained(frames) && Mirrors(frames, given) && start < end
    ensures Search(frames, track, epoch, start, end) == Some(at)
      <==> Led(given, track, epoch, start, end, at)
  {
    if frames != [] {
      var n := |frames| - 1;
      assert Keeps(frames[n], given[n]);
      if EndsIn(frames[n], track, epoch, end) {
        ReachGiven(frames, given, start);
        assert given[..n + 1] == given;
        if j: nat :| Leads(given, j, track, epoch, start, end, at) {
          if j < n { ChainedOrder(frames, j, n); }
          assert Keeps(frames[j], given[j]);
          assert j == n;
        }
        if Search(frames, track, epoch, start, end) == Some(at) {
          assert Leads(given, n, track, epoch, start, end, at);
        }
      } else {
        ChainedPrefix(frames);
        MirrorsFront(frames, given);
        SearchGiven(frames[..n], given[..n], track, epoch, start, end, at);
        LeadsFront(given, track, epoch, start, end, at);
      }
    }
  }

  lemma {:induction false} LeadsFront(given: seq<Given>, track: string, epoch: string, start: int, end: int, at: real)
    requires given != [] && var f := given[|given| - 1].frame;
      !(f.start < end <= f.end && f.track == track && f.epoch == epoch)
    ensures Led(given, track, epoch, start, end, at) <==> Led(given[..|given| - 1], track, epoch, start, end, at)
  {
    hide Reachable;
    var front := given[..|given| - 1];
    if j: nat :| Leads(given, j, track, epoch, start, end, at) {
      assert front[..j + 1] == given[..j + 1];
      assert Leads(front, j, track, epoch, start, end, at);
    }
    if j: nat :| Leads(front, j, track, epoch, start, end, at) {
      assert front[..j + 1] == given[..j + 1];
      assert Leads(given, j, track, epoch, start, end, at);
    }
  }

  /** After any history an interval is answered exactly when, among the latest frames given,
      unbroken ones lead from its start to one of the track and epoch that it ends in; the
      answer is when that one was received. */
  lemma {:induction false} AnchorFromFrames(limit: nat, steps: seq<Step>, track: string, epoch: string, start: int,
                                            end: int, at: real)
    requires limit >= 1
    ensures var given := Latest(Notes(Record([], false), steps).given, limit);
      Anchor(Run(Fresh, limit, steps).frames, track, epoch, start, end) == Some(at)
      <==> 0 <= start < end && Led(given, track, epoch, start, end, at)
  {
    RunsAreUnbroken(limit, steps);
    RunKeeps(Fresh, limit, steps);
    var frames := Run(Fresh, limit, steps).frames;
    assert Chained(frames);
    if 0 <= start < end {
      hide Run, Notes, Mirrors, Chained, Led, Search, Inv, Latest;
      SearchGiven(frames, Latest(Notes(Record([], false), steps).given, limit), track, epoch, start, end, at);
    }
  }

  // -------- The timeline itself

  class IngressTimeline {
    const maxFrames: nat
    var frames: seq<Receipt>
    var last: Option<Receipt>
    var continuity: nat
    var gapPending: bool
    var lookupMisses: nat

    function State(): Timeline
      reads this
    {
      Timeline(frames, last, continuity, gapPending)
    }

    constructor (maxFrames: nat)
      requires maxFrames >= 1
      ensures State() == Fresh && this.maxFrames == maxFrames && lookupMisses == 0
    {
      this.maxFrames := maxFrames;
      frames, last, continuity, gapPending, lookupMisses := [], None, 0, false, 0;
    }

    method MarkGap()
      modifies this`gapPending
      ensures State() == Gap(old(State()))
    {
      gapPending := true;
    }

    method Observe(frame: Frame, receivedAt: real) returns (refused: Option<Error>)
      modifies this`frames, this`last, this`continuity, this`gapPending
      ensures match Observed(old(State()), maxFrames, frame, receivedAt)
              case Ok(t) => State() == t && refused.None?
              case Err(e) => State() == old(State()) && refused == Some(e)
    {
      if last.Some? {
        if frame.track != last.value.track || frame.start < last.value.end { return Some(Replayed); }
        if receivedAt < last.value.receivedAt { return Some(ClockMovedBack); }
        if gapPending || frame.epoch != last.value.epoch || frame.sequence != last.value.sequence + 1
           || frame.start != last.value.end {
          continuity := continuity + 1;
        }
      }
      var entry := Receipt(frame.track, frame.epoch, frame.start, frame.end, frame.sequence, receivedAt, continuity);
      if |frames| == maxFrames && frames != [] { frames := frames[1..]; }
      frames, last, gapPending := frames + [entry], Some(entry), false;
      return None;
    }

    /** The backward loop: first find the frame the interval ends in, then how far its run reaches. */
    method Lookup(track: string, epoch: string, start: int, end: int) returns (at: Option<real>)
      modifies this`lookupMisses
      ensures at == Anchor(frames, track, epoch, start, end)
      ensures lookupMisses == old(lookupMisses) + if at.None? then 1 else 0
    {
      if start < 0 || end <= start {
        lookupMisses := lookupMisses + 1;
        return None;
      }
      var endpoint: Option<Receipt> := None;
      var k := |frames|;
      assert frames[..k] == frames;
      while k > 0
        invariant 0 <= k <= |frames| && lookupMisses == old(lookupMisses)
        invariant endpoint.None? ==>
          Search(frames[..k], track, epoch, start, end) == Anchor(frames, track, epoch, start, end)
        invariant endpoint.Some? ==>
          Anchor(frames, track, epoch, start, end)
          == if Reach(frames[..k], endpoint.value.continuity, start) then Some(endpoint.value.receivedAt) else None
      {
        k := k - 1;
        var item := frames[k];
        ghost var upto := frames[..k + 1];
        assert upto[|upto| - 1] == item && upto[..|upto| - 1] == frames[..k];
        if endpoint.None? {
          if !EndsIn(item, track, epoch, end) { continue; }
          endpoint := Some(item);
        }
        if item.continuity != endpoint.value.continuity {
          break;
        }
        if item.start <= start { return Some(endpoint.value.receivedAt); }
      }
      lookupMisses := lookupMisses + 1;
      return None;
    }
  }
}
