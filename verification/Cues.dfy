/** Exporting captions as cues (`_cues` in captions.py): rounding to milliseconds and
    slicing overlaps at every change of the active set. */
module Cues {
  import opened Wrappers
  import opened Common

  const NS_PER_MS := 1000000

  /** A caption in export order, with the text the export mode gives it. */
  datatype Segment = Segment(startNs: int, endNs: int, shown: bool, body: string)

  datatype Cue = Cue(start: int, end: int, body: string)

  datatype Error = InvalidTiming

  // -------- Rounding

  function StartMs(ns: int): int
    requires 0 <= ns
  {
    ns / NS_PER_MS
  }

  function EndMs(ns: int): int
    requires 0 <= ns
  {
    (ns + NS_PER_MS - 1) / NS_PER_MS
  }

  /** Rounding widens a cue by less than a millisecond on either side and never empties it. */
  lemma {:induction false} RoundingIsTight(startNs: int, endNs: int)
    requires 0 <= startNs < endNs
    ensures StartMs(startNs) * NS_PER_MS <= startNs < StartMs(startNs) * NS_PER_MS + NS_PER_MS
    ensures EndMs(endNs) * NS_PER_MS - NS_PER_MS < endNs <= EndMs(endNs) * NS_PER_MS
    ensures 0 <= StartMs(startNs) < EndMs(endNs)
  {
    var s, e := StartMs(startNs), EndMs(endNs);
    assert startNs == s * NS_PER_MS + startNs % NS_PER_MS;
    assert endNs + NS_PER_MS - 1 == e * NS_PER_MS + (endNs + NS_PER_MS - 1) % NS_PER_MS;
  }

  predicate Exported(g: Segment) {
    g.shown && g.body != ""
  }

  predicate Timed(g: Segment, offsetNs: int) {
    0 <= g.startNs + offsetNs < g.endNs + offsetNs
  }

  function Round(g: Segment, offsetNs: int): Cue
    requires Timed(g, offsetNs)
  {
    Cue(StartMs(g.startNs + offsetNs), EndMs(g.endNs + offsetNs), g.body)
  }

  function Listed(segments: seq<Segment>, offsetNs: int): Result<seq<Cue>, Error> {
    if segments == [] then Ok([])
    else if !Exported(segments[0]) then Listed(segments[1..], offsetNs)
    else if !Timed(segments[0], offsetNs) then Err(InvalidTiming)
    else
      match Listed(segments[1..], offsetNs)
      case Err(e) => Err(e)
      case Ok(rest) => Ok([Round(segments[0], offsetNs)] + rest)
  }

  ghost predicate Proper(cues: seq<Cue>) {
    forall c :: c in cues ==> c.start < c.end
  }

  method List(segments: seq<Segment>, offsetNs: int) returns (r: Result<seq<Cue>, Error>)
    ensures r == Listed(segments, offsetNs)
  {
    var cues: seq<Cue> := [];
    assert segments[0..] == segments;
    assert Listed(segments, offsetNs).Ok? ==> [] + Listed(segments, offsetNs).value == Listed(segments, offsetNs).value;
    for k := 0 to |segments|
      invariant match Listed(segments[k..], offsetNs)
                case Ok(rest) => Listed(segments, offsetNs) == Ok(cues + rest)
                case Err(e) => Listed(segments, offsetNs) == Err(e)
    {
      ghost var rest := segments[k..];
      assert rest[0] == segments[k] && rest[1..] == segments[k + 1..];
      var g := segments[k];
      if Exported(g) {
        if !(0 <= g.startNs + offsetNs < g.endNs + offsetNs) { return Err(InvalidTiming); }
        var c := Cue(StartMs(g.startNs + offsetNs), EndMs(g.endNs + offsetNs), g.body);
        if Listed(segments[k + 1..], offsetNs).Ok? {
          assert (cues + [c]) + Listed(segments[k + 1..], offsetNs).value
              == cues + ([c] + Listed(segments[k + 1..], offsetNs).value);
        }
        cues := cues + [c];
      }
    }
    assert cues + [] == cues;
    return Ok(cues);
  }

  lemma {:induction false} ListedProper(segments: seq<Segment>, offsetNs: int)
    ensures Listed(segments, offsetNs).Ok? ==> Proper(Listed(segments, offsetNs).value)
  {
    if segments != [] {
      ListedProper(segments[1..], offsetNs);
      var g := segments[0];
      if Exported(g) && Timed(g, offsetNs) { RoundingIsTight(g.startNs + offsetNs, g.endNs + offsetNs); }
    }
  }

  // -------- What is shown at one millisecond

  predicate Shows(c: Cue, t: int) {
    c.start <= t < c.end
  }

  ghost function ActiveAt(cues: seq<Cue>, t: int): set<nat> {
    set i: nat | i < |cues| && Shows(cues[i], t)
  }

  /** The active cues' texts, in order, one per line. */
  function Joined(cues: seq<Cue>, active: set<nat>, i: nat): string
    requires i <= |cues|
    decreases |cues| - i
  {
    if i == |cues| then ""
    else if i !in active then Joined(cues, active, i + 1)
    else if exists j: nat :: i < j < |cues| && j in active then cues[i].body + "\n" + Joined(cues, active, i + 1)
    else cues[i].body
  }

  ghost predicate Ordered(merged: seq<Cue>) {
    && (forall i :: 0 <= i < |merged| ==> merged[i].start < merged[i].end)
    && (forall i, j :: 0 <= i < j < |merged| ==> merged[i].end <= merged[j].start)
  }

  /** At `t` the merged cues show exactly the joined text of the cues active then. */
  ghost predicate Faithful(cues: seq<Cue>, merged: seq<Cue>, t: int) {
    var active := ActiveAt(cues, t);
    if active == {} then forall i :: 0 <= i < |merged| ==> !Shows(merged[i], t)
    else exists i :: 0 <= i < |merged| && Shows(merged[i], t) && merged[i].body == Joined(cues, active, 0)
  }

  // -------- The sweep

  ghost predicate Boundaries(times: seq<int>, cues: seq<Cue>) {
    && Rising(times)
    && (forall i :: 0 <= i < |cues| ==> cues[i].start in times && cues[i].end in times)
  }

  method BoundaryTimes(cues: seq<Cue>) returns (times: seq<int>)
    ensures Boundaries(times, cues)
  {
    times := [];
    for k := 0 to |cues|
      invariant Rising(times)
      invariant forall i :: 0 <= i < k ==> cues[i].start in times && cues[i].end in times
    {
      times := Insert(times, cues[k].start);
      times := Insert(times, cues[k].end);
    }
  }

  /** Where the sweep stands after `i` boundaries; before the first, nothing is active. */
  ghost predicate Standing(cues: seq<Cue>, times: seq<int>, i: nat, active: set<nat>) {
    i <= |times| && if i == 0 then active == {} else active == ActiveAt(cues, times[i - 1])
  }

  /** Between two boundaries the active set stays as it was. */
  lemma {:induction false} Steady(cues: seq<Cue>, times: seq<int>, i: nat, active: set<nat>, t: int)
    requires Boundaries(times, cues) && Proper(cues) && Standing(cues, times, i, active)
    requires (i > 0 ==> times[i - 1] <= t) && (i < |times| ==> t < times[i])
    ensures ActiveAt(cues, t) == active
  {
    forall k: nat | k < |cues|
      ensures Shows(cues[k], t) <==> k in active
    {
      var a :| 0 <= a < |times| && times[a] == cues[k].start;
      var b :| 0 <= b < |times| && times[b] == cues[k].end;
      assert cues[k] in cues;
    }
  }

  /** Enters and leaves at one boundary. */
  method Change(cues: seq<Cue>, before: set<nat>, t: int) returns (active: set<nat>)
    requires Proper(cues)
    ensures forall k: nat :: k in active <==>
      if k < |cues| && cues[k].start == t then true
      else if k < |cues| && cues[k].end == t then false else k in before
  {
    active := before;
    for n := 0 to |cues|
      invariant forall k: nat :: k in active <==>
        if k < n && cues[k].start == t then true
        else if k < n && cues[k].end == t then false else k in before
    {
      assert cues[n] in cues;
      if cues[n].start == t { active := active + {n}; }
      if cues[n].end == t { active := active - {n}; }
    }
  }

  lemma {:induction false} ChangedIsActive(cues: seq<Cue>, times: seq<int>, i: nat, before: set<nat>, active: set<nat>)
    requires Boundaries(times, cues) && Proper(cues) && i < |times| && Standing(cues, times, i, before)
    requires forall k: nat :: k in active <==>
      if k < |cues| && cues[k].start == times[i] then true
      else if k < |cues| && cues[k].end == times[i] then false else k in before
    ensures Standing(cues, times, i + 1, active)
  {
    var t := times[i];
    Steady(cues, times, i, before, if i > 0 then times[i - 1] else t - 1);
    forall k: nat
      ensures k in active <==> k < |cues| && Shows(cues[k], t)
    {
      if k < |cues| {
        var a :| 0 <= a < |times| && times[a] == cues[k].start;
        var b :| 0 <= b < |times| && times[b] == cues[k].end;
        assert cues[k] in cues;
      }
    }
  }

  method JoinActive(cues: seq<Cue>, active: set<nat>) returns (text: string)
    ensures text == Joined(cues, active, 0)
  {
    text := "";
    var i := |cues|;
    var later := false;
    while i > 0
      invariant 0 <= i <= |cues| && text == Joined(cues, active, i)
      invariant later <==> exists j: nat :: i <= j < |cues| && j in active
    {
      i := i - 1;
      if i in active {
        text := if later then cues[i].body + "\n" + text else cues[i].body;
        later := true;
      }
    }
  }

  /** The merged cues up to a boundary. */
  ghost predicate Done(cues: seq<Cue>, merged: seq<Cue>, upto: int) {
    && Ordered(merged) && (forall i :: 0 <= i < |merged| ==> merged[i].end <= upto)
    && (forall t :: t < upto ==> Faithful(cues, merged, t))
  }

  lemma {:induction false} DoneNext(cues: seq<Cue>, merged: seq<Cue>, lo: int, hi: int, active: set<nat>,
                                    more: seq<Cue>)
    requires Done(cues, merged, lo) && lo <= hi
    requires forall t :: lo <= t < hi ==> ActiveAt(cues, t) == active
    requires more == if active == {} || lo == hi then [] else [Cue(lo, hi, Joined(cues, active, 0))]
    ensures Done(cues, merged + more, hi)
  {
    var r := merged + more;
    forall t | t < hi
      ensures Faithful(cues, r, t)
    {
      if t < lo {
        assert Faithful(cues, merged, t);
        if ActiveAt(cues, t) != {} {
          var i :| 0 <= i < |merged| && Shows(merged[i], t) && merged[i].body == Joined(cues, ActiveAt(cues, t), 0);
          assert r[i] == merged[i];
        }
      } else if active != {} {
        assert r[|merged|] == more[0];
      }
    }
  }

  /** Slicing refines the cues: whatever the overlaps, the result is ordered and disjoint,
      and at every millisecond shows the texts of exactly the cues active then, in order. */
  method Merge(cues: seq<Cue>) returns (merged: seq<Cue>)
    requires Proper(cues)
    ensures Ordered(merged)
    ensures forall t :: Faithful(cues, merged, t)
  {
    var times := BoundaryTimes(cues);
    merged := [];
    var active: set<nat> := {};
    ghost var upto := if times == [] then 0 else times[0];
    Before(cues, times, upto);
    for i := 0 to |times|
      invariant Standing(cues, times, i, active)
      invariant upto == if i > 0 then times[i - 1] else if times == [] then 0 else times[0]
      invariant Done(cues, merged, upto)
    {
      var t := times[i];
      var more: seq<Cue> := [];
      if i > 0 && active != {} {
        var body := JoinActive(cues, active);
        more := [Cue(times[i - 1], t, body)];
      }
      forall x | upto <= x < t
        ensures ActiveAt(cues, x) == active
      {
        Steady(cues, times, i, active, x);
      }
      DoneNext(cues, merged, upto, t, active, more);
      merged := merged + more;
      var next := Change(cues, active, t);
      ChangedIsActive(cues, times, i, active, next);
      active := next;
      upto := t;
    }
    forall t
      ensures Faithful(cues, merged, t)
    {
      if upto <= t { After(cues, times, active, t); }
    }
  }

  lemma {:induction false} Before(cues: seq<Cue>, times: seq<int>, upto: int)
    requires Boundaries(times, cues) && Proper(cues) && upto == if times == [] then 0 else times[0]
    ensures Done(cues, [], upto)
  {
    forall t | t < upto
      ensures Faithful(cues, [], t)
    {
      Steady(cues, times, 0, {}, t);
    }
  }

  /** After the last boundary nothing is active. */
  lemma {:induction false} After(cues: seq<Cue>, times: seq<int>, active: set<nat>, t: int)
    requires Boundaries(times, cues) && Proper(cues) && Standing(cues, times, |times|, active)
    requires times != [] ==> times[|times| - 1] <= t
    ensures ActiveAt(cues, t) == {}
  {
    forall k: nat | k < |cues|
      ensures !Shows(cues[k], t)
    {
      assert cues[k].end in times;
      var b :| 0 <= b < |times| && times[b] == cues[k].end;
    }
  }
}
