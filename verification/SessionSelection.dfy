/** Which text becomes segments and in what order, what a result writes, and the context a
    segment is chosen in (app/session/state.py). */
module SessionSelection {
  import opened Wrappers
  import opened Common
  import opened Text
  import opened Session
  import opened SessionInvariant
  import opened SessionRuns
  import opened SessionSteps
  import opened SessionEvents
  import S = Stability
  import G = Segmentation

  /** Before it selects, a session takes what the tracker now calls stable; a contradicted
      text keeps what it had. */
  lemma {:induction false} StableIsCurrent(w: World, x: Weather, v: Utterance, uid: string)
    requires Tracked(w, v.tracker) && v.tracker.verdict.Some?
    ensures var now := S.Now(v.tracker.lastTime, x.clock(uid)); var r := Restabilised(w, x, v, uid);
      var verdict := S.Evaluated(w.settings.stability, w.u, v.tracker.e, now);
      r.Ok? ==> r.value.stableEnd == if verdict.conflict then v.stableEnd else verdict.stableEnd
  {
    hide S.Evaluated, S.Committed;
  }

  // -------- One utterance

  /** Only `uid` is touched, and new segments are its. */
  ghost predicate OnlyFor(s: Session, r: Session, uid: string) {
    && s.segments <= r.segments && r.order == s.order && r.utterances.Keys == s.utterances.Keys
    && (forall other :: other in s.utterances && other != uid ==> r.utterances[other] == s.utterances[other])
    && forall k :: |s.segments| <= k < |r.segments| ==> r.segments[k].uid == uid
  }

  lemma {:induction false} OnlyForTwice(a: Session, b: Session, c: Session, uid: string)
    requires OnlyFor(a, b, uid) && OnlyFor(b, c, uid)
    ensures OnlyFor(a, c, uid)
  {
    assert forall k :: |a.segments| <= k < |b.segments| ==> c.segments[k] == b.segments[k];
  }

  /** Whenever segments were added there had been room for the last of them. */
  ghost predicate HadRoom(w: World, s: Session, r: Session) {
    |s.segments| < |r.segments| ==>
      |r.segments| <= w.settings.maxSegments && Waiting(r.segments) <= w.settings.maxPending
  }

  /** Why selection from the utterance stopped where it did. */
  ghost predicate Stops(w: World, x: Weather, r: Session, uid: string, conflict: bool, o: Outcome) {
    uid in r.utterances && var v := r.utterances[uid];
    || (!HasContent(w.u, v.text, v.selectedEnd) && o == Carry)
    || ((|r.segments| >= w.settings.maxSegments || Waiting(r.segments) >= w.settings.maxPending) && o == Halt)
    || (G.Segmented(w.u, w.g, QueryFor(w, r, v)).Err? && o == Raised)
    || ((conflict || !x.write(uid, v.selectedEnd) || G.Segmented(w.u, w.g, QueryFor(w, r, v)) == Ok(None))
        && (v.final || x.overdue(uid, v.selectedEnd) ==> v.reported) && o == (if v.reported then Carry else Halt))
  }

  lemma {:induction false} WaitingMore(segments: seq<Segment>, g: Segment)
    requires g.status == Ready
    ensures Waiting(segments + [g]) == Waiting(segments) + 1
  {
    if segments == [] {
      assert segments + [g] == [g] && [g][1..] == [];
    } else {
      WaitingMore(segments[1..], g);
      assert (segments + [g])[1..] == segments[1..] + [g];
    }
  }

  lemma {:induction false} AppendedFor(w: World, s: Session, uid: string, c: G.Candidate)
    requires uid in s.utterances && !Blocked(w, s)
    ensures var n := Appended(s, uid, s.utterances[uid], c);
      && OnlyFor(s, n, uid) && HadRoom(w, s, n) && |n.segments| == |s.segments| + 1
      && uid in n.utterances && n.utterances[uid].text == s.utterances[uid].text
      && n.utterances[uid].selectedEnd == c.end
  {
    WaitingMore(s.segments, Selects(s, uid, s.utterances[uid], c));
  }

  lemma {:induction false} ReportedFor(s: Session, uid: string)
    requires uid in s.utterances
    ensures OnlyFor(s, Reported(s, uid), uid)
    ensures Reported(s, uid).segments == s.segments
  {
  }

  /** Selection adds segments of one utterance while there is room, and stops for a reason. */
  lemma {:induction false} SelectionStops(w: World, x: Weather, s: Session, uid: string, conflict: bool)
    requires uid in s.utterances
    ensures var r := SelectLoop(w, x, s, uid, conflict);
      OnlyFor(s, r.0, uid) && HadRoom(w, s, r.0) && Stops(w, x, r.0, uid, conflict, r.1)
    decreases |s.utterances[uid].text| - s.utterances[uid].selectedEnd
  {
    var v, c := s.utterances[uid], Choice(w, x, s, uid, conflict);
    var r := SelectLoop(w, x, s, uid, conflict);
    if HasContent(w.u, v.text, v.selectedEnd) && !Blocked(w, s) && c.Some?
       && G.Segmented(w.u, w.g, QueryFor(w, s, v)).Ok? {
      hide HasContent, Blocked, QueryFor, Choice, Appended, Reported, OnlyFor, HadRoom, Stops, G.Segmented;
      SelectsExactly(w, x, s, uid, conflict);
      AppendedFor(w, s, uid, c.value);
      var n := Appended(s, uid, v, c.value);
      SelectionStops(w, x, n, uid, conflict);
      assert r == SelectLoop(w, x, n, uid, conflict);
      OnlyForTwice(s, n, r.0, uid);
      RoomTwice(w, s, n, r.0, uid);
    } else {
      ReportedFor(s, uid);
      StopsHere(w, x, s, uid, conflict);
    }
  }

  lemma {:induction false} RoomTwice(w: World, a: Session, b: Session, c: Session, uid: string)
    requires HadRoom(w, a, b) && HadRoom(w, b, c) && OnlyFor(b, c, uid)
    ensures HadRoom(w, a, c)
  {
    if |c.segments| == |b.segments| { assert c.segments == b.segments; }
  }

  lemma {:induction false} StopsHere(w: World, x: Weather, s: Session, uid: string, conflict: bool)
    requires uid in s.utterances
    requires var v := s.utterances[uid];
      !(HasContent(w.u, v.text, v.selectedEnd) && !Blocked(w, s) && Choice(w, x, s, uid, conflict).Some?
        && G.Segmented(w.u, w.g, QueryFor(w, s, v)).Ok?)
    ensures var r := SelectLoop(w, x, s, uid, conflict);
      r.0 in {s, Reported(s, uid)} && Stops(w, x, r.0, uid, conflict, r.1)
  {
    hide HasContent, G.Segmented, Context, Waiting;
  }

  /** Segment `k` of `r` is what the segmenter offered for the utterance from there on, with
      the segments before it as context, and the policy wrote it. */
  ghost predicate Chosen(w: World, x: Weather, v: Utterance, uid: string, conflict: bool, r: Session, k: nat)
    requires k < |r.segments|
  {
    var g := r.segments[k];
    var c := G.Segmented(w.u, w.g, G.Query(v.text, v.stableEnd, g.start,
                                           Context(r.segments[..k], w.settings.contextSegments),
                                           w.settings.maxTokens, w.settings.allowOversize));
    && !conflict && x.write(uid, g.start) && c.Ok? && c.value.Some?
    && g == Segment(g.id, uid, c.value.value.start, c.value.value.end, c.value.value.text, v.revision, v.sequence,
                    v.final, "", Ready)
  }

  ghost predicate AllChosen(w: World, x: Weather, v: Utterance, uid: string, conflict: bool, s: Session, r: Session) {
    && s.segments <= r.segments
    && forall k :: |s.segments| <= k < |r.segments| ==>
         Chosen(w, x, v, uid, conflict, r, k) && r.segments[k].id == s.nextSegment + 1 + (k - |s.segments|)
  }

  /** Every segment selected is what the segmenter offered at that point and the policy
      wrote, under the next number. */
  lemma {:induction false} SegmentsAreChosen(w: World, x: Weather, s: Session, uid: string, conflict: bool)
    requires uid in s.utterances
    ensures AllChosen(w, x, s.utterances[uid], uid, conflict, s, SelectLoop(w, x, s, uid, conflict).0)
    decreases |s.utterances[uid].text| - s.utterances[uid].selectedEnd
  {
    var v, c := s.utterances[uid], Choice(w, x, s, uid, conflict);
    var r := SelectLoop(w, x, s, uid, conflict);
    NoneChosen(w, x, v, uid, conflict, s);
    if HasContent(w.u, v.text, v.selectedEnd) && !Blocked(w, s) && c.Some?
       && G.Segmented(w.u, w.g, QueryFor(w, s, v)).Ok? {
      SelectsExactly(w, x, s, uid, conflict);
      var n := Appended(s, uid, v, c.value);
      ChosenNext(w, x, s, uid, conflict);
      hide HasContent, Blocked, QueryFor, Choice, Appended, Reported, AllChosen, G.Segmented;
      SegmentsAreChosen(w, x, n, uid, conflict);
      assert r == SelectLoop(w, x, n, uid, conflict);
      ChosenMore(w, x, v, uid, conflict, s, n, r.0);
    } else {
      StopsHere(w, x, s, uid, conflict);
      ReportedFor(s, uid);
      hide AllChosen, SelectLoop, Reported, Stops;
      SameChosen(w, x, v, uid, conflict, s, r.0);
    }
  }

  lemma {:induction false} NoneChosen(w: World, x: Weather, v: Utterance, uid: string, conflict: bool, s: Session)
    ensures AllChosen(w, x, v, uid, conflict, s, s)
  {
  }

  lemma {:induction false} SameChosen(w: World, x: Weather, v: Utterance, uid: string, conflict: bool, s: Session,
                                      r: Session)
    requires r.segments == s.segments
    ensures AllChosen(w, x, v, uid, conflict, s, r)
  {
  }

  lemma {:induction false} ChosenNext(w: World, x: Weather, s: Session, uid: string, conflict: bool)
    requires uid in s.utterances && Choice(w, x, s, uid, conflict).Some?
    ensures var v, c := s.utterances[uid], Choice(w, x, s, uid, conflict).value; var n := Appended(s, uid, v, c);
      && n.segments == s.segments + [n.segments[|s.segments|]] && n.nextSegment == s.nextSegment + 1
      && Chosen(w, x, v, uid, conflict, n, |s.segments|) && n.segments[|s.segments|].id == s.nextSegment + 1
      && uid in n.utterances && n.utterances[uid] == v.(selectedEnd := c.end)
  {
    SelectsExactly(w, x, s, uid, conflict);
    var v, c := s.utterances[uid], Choice(w, x, s, uid, conflict).value;
    assert Appended(s, uid, v, c).segments[..|s.segments|] == s.segments;
    hide G.Segmented, Context;
  }

  lemma {:induction false} ChosenMore(w: World, x: Weather, v: Utterance, uid: string, conflict: bool, s: Session,
                                      n: Session, r: Session)
    requires |n.segments| == |s.segments| + 1 && s.segments <= n.segments && n.nextSegment == s.nextSegment + 1
    requires Chosen(w, x, v, uid, conflict, n, |s.segments|) && n.segments[|s.segments|].id == s.nextSegment + 1
    requires uid in n.utterances && n.utterances[uid] == v.(selectedEnd := n.utterances[uid].selectedEnd)
    requires AllChosen(w, x, n.utterances[uid], uid, conflict, n, r)
    ensures AllChosen(w, x, v, uid, conflict, s, r)
  {
    hide G.Segmented, Context;
    var k0 := |s.segments|;
    assert r.segments[..k0] == n.segments[..k0];
    assert r.segments[k0] == n.segments[k0];
    forall k | k0 <= k < |r.segments|
      ensures Chosen(w, x, v, uid, conflict, r, k) && r.segments[k].id == s.nextSegment + 1 + (k - k0)
    {
      if k > k0 { assert Chosen(w, x, n.utterances[uid], uid, conflict, r, k); }
    }
  }

  // -------- The sweep

  /** Selection from the utterance, as it was in `v`, could not begin or stopped for a reason. */
  ghost predicate Finishes(w: World, x: Weather, v: Utterance, uid: string, r: Session, o: Outcome)
    requires Tracked(w, v.tracker)
  {
    var t := S.Refreshed(w.settings.stability, w.u, v.tracker, x.clock(uid));
    if Restabilised(w, x, v, uid).Err? then o != Carry
    else Stops(w, x, r, uid, t.verdict.value.conflict, o)
  }

  lemma {:induction false} UtteranceStops(w: World, x: Weather, s: Session, uid: string)
    requires uid in s.utterances && Selectable(w, s)
    ensures Tracked(w, s.utterances[uid].tracker)
    ensures var r := SelectUtterance(w, x, s, uid);
      && OnlyFor(s, r.0, uid) && HadRoom(w, s, r.0)
      && (r.1 == Carry ==> uid in r.0.utterances && !Pending(w, r.0, uid))
      && Finishes(w, x, s.utterances[uid], uid, r.0, r.1)
  {
    hide SelectLoop, Selectable, OnlyFor, HadRoom, Stops, Pending, S.Refreshed, Restabilised, Tracked;
    SelectableAt(w, s, uid);
    StandingFor(w, s, uid);
    var v := Restabilised(w, x, s.utterances[uid], uid);
    if v.Ok? {
      var t := S.Refreshed(w.settings.stability, w.u, s.utterances[uid].tracker, x.clock(uid));
      var conflict := t.verdict.value.conflict;
      var n := s.(utterances := s.utterances[uid := v.value]);
      SelectionStops(w, x, n, uid, conflict);
      PutFor(w, s, uid, v.value, SelectLoop(w, x, n, uid, conflict).0);
      Carries(w, x, SelectLoop(w, x, n, uid, conflict).0, uid, conflict, SelectLoop(w, x, n, uid, conflict).1);
    }
  }

  lemma {:induction false} StandingFor(w: World, s: Session, uid: string)
    ensures OnlyFor(s, s, uid) && HadRoom(w, s, s)
  {
  }

  lemma {:induction false} PutFor(w: World, s: Session, uid: string, v: Utterance, r: Session)
    requires uid in s.utterances
    requires var n := s.(utterances := s.utterances[uid := v]); OnlyFor(n, r, uid) && HadRoom(w, n, r)
    ensures OnlyFor(s, r, uid) && HadRoom(w, s, r)
  {
  }

  lemma {:induction false} Carries(w: World, x: Weather, r: Session, uid: string, conflict: bool, o: Outcome)
    requires Stops(w, x, r, uid, conflict, o)
    ensures o == Carry ==> uid in r.utterances && !Pending(w, r, uid)
  {
    hide HasContent, Waiting, G.Segmented, QueryFor;
  }

  /** What a sweep may touch when it goes no further than position `i`. */
  ghost predicate Within(s: Session, r: Session, order: seq<string>) {
    && s.segments <= r.segments
    && (forall k :: |s.segments| <= k < |r.segments| ==> r.segments[k].uid in order)
    && (forall uid :: uid in s.utterances && uid !in order ==>
          uid in r.utterances && r.utterances[uid] == s.utterances[uid])
  }

  ghost predicate AllIn(a: seq<string>, b: seq<string>) {
    forall uid :: uid in a ==> uid in b
  }

  lemma {:induction false} OnlyForWithin(s: Session, r: Session, uid: string, order: seq<string>)
    requires OnlyFor(s, r, uid) && uid in order
    ensures Within(s, r, order)
  {
  }

  lemma {:induction false} WithinTwice(a: Session, b: Session, c: Session, order: seq<string>, rest: seq<string>)
    requires Within(a, b, order) && Within(b, c, rest) && a.utterances.Keys == b.utterances.Keys
    requires AllIn(rest, order)
    ensures Within(a, c, order)
  {
    assert forall k :: |a.segments| <= k < |b.segments| ==> c.segments[k] == b.segments[k];
  }

  lemma {:induction false} NothingWithin(s: Session, order: seq<string>)
    ensures Within(s, s, order)
  {
  }

  lemma {:induction false} SweepOnce(w: World, x: Weather, s: Session, k: nat)
    requires k <= |s.order| && Selectable(w, s)
    ensures var r := Sweep(w, x, s, k).0;
      Within(s, r, s.order[k..]) && HadRoom(w, s, r) && r.order == s.order && r.utterances.Keys == s.utterances.Keys
    decreases |s.order| - k
  {
    hide Within, HadRoom, OnlyFor, SelectUtterance, Pending, Selectable;
    ListedSelectable(w, s);
    NothingWithin(s, s.order[k..]);
    NoneAdded(w, s);
    if k < |s.order| {
      var uid := s.order[k];
      assert AllIn(s.order[k + 1..], s.order[k..]);
      if !Pending(w, s, uid) {
        SweepOnce(w, x, s, k + 1);
        WithinTwice(s, s, Sweep(w, x, s, k + 1).0, s.order[k..], s.order[k + 1..]);
      } else {
        var r := SelectUtterance(w, x, s, uid);
        UtteranceStops(w, x, s, uid);
        OnlyForWithin(s, r.0, uid, s.order[k..]);
        SameKeys(s, r.0, uid);
        if r.1 == Carry {
          SweepOnce(w, x, r.0, k + 1);
          var t := Sweep(w, x, r.0, k + 1).0;
          WithinTwice(s, r.0, t, s.order[k..], s.order[k + 1..]);
          RoomLater(w, s, r.0, t, s.order[k + 1..]);
        }
      }
    }
  }

  lemma {:induction false} SameKeys(s: Session, r: Session, uid: string)
    requires OnlyFor(s, r, uid)
    ensures r.utterances.Keys == s.utterances.Keys && r.order == s.order
  {
  }

  lemma {:induction false} NoneAdded(w: World, s: Session)
    ensures HadRoom(w, s, s)
  {
  }

  lemma {:induction false} RoomLater(w: World, a: Session, b: Session, c: Session, order: seq<string>)
    requires HadRoom(w, a, b) && HadRoom(w, b, c) && Within(b, c, order)
    ensures HadRoom(w, a, c)
  {
    if |c.segments| == |b.segments| { assert c.segments == b.segments; }
  }

  /** If the utterance at `i` is still waiting, the sweep went no further. */
  lemma {:induction false} SweepHalts(w: World, x: Weather, s: Session, k: nat, i: nat)
    requires k <= i < |s.order| && Selectable(w, s) && Once(s.order)
    ensures var r := Sweep(w, x, s, k).0;
      s.order[i] in r.utterances && (Pending(w, r, s.order[i]) ==> Within(s, r, s.order[k..i + 1]))
    decreases |s.order| - k, 1
  {
    hide Within, HadRoom, OnlyFor, SelectUtterance, Pending, Selectable, Once;
    SweepOnce(w, x, s, k);
    ListedSelectable(w, s);
    SliceIn(s.order, k, i);
    if !Pending(w, s, s.order[k]) {
      SweepOnce(w, x, s, k + 1);
      NothingWithin(s, s.order[k..i + 1]);
      SweepRest(w, x, s, s, k, i);
    } else {
      var n := SelectUtterance(w, x, s, s.order[k]);
      UtteranceStops(w, x, s, s.order[k]);
      OnlyForWithin(s, n.0, s.order[k], s.order[k..i + 1]);
      SameKeys(s, n.0, s.order[k]);
      if n.1 == Carry {
        SweepRest(w, x, s, n.0, k, i);
      }
    }
  }

  /** Utterance `k` is done in `m`, and the sweep goes on after it. */
  lemma {:induction false} SweepRest(w: World, x: Weather, s: Session, m: Session, k: nat, i: nat)
    requires k <= i < |m.order| && Selectable(w, m) && Once(m.order) && m.order[k] in m.utterances
    requires !Pending(w, m, m.order[k]) && Within(s, m, m.order[k..i + 1]) && s.utterances.Keys == m.utterances.Keys
    ensures var r := Sweep(w, x, m, k + 1).0;
      m.order[i] in r.utterances && (Pending(w, r, m.order[i]) ==> Within(s, r, m.order[k..i + 1]))
    decreases |m.order| - k, 0
  {
    hide Within, HadRoom, Pending, Selectable, Once, Sweep;
    SliceIn(m.order, k, i);
    SweepOnce(w, x, m, k + 1);
    var r := Sweep(w, x, m, k + 1).0;
    if i == k {
      LeftAlone(w, m, r, k);
    } else {
      SweepHalts(w, x, m, k + 1, i);
      if Pending(w, r, m.order[i]) { WithinTwice(s, m, r, m.order[k..i + 1], m.order[k + 1..i + 1]); }
    }
  }

  lemma {:induction false} SliceIn(order: seq<string>, k: nat, i: nat)
    requires k <= i < |order|
    ensures order[k] in order[k..i + 1] && AllIn(order[k + 1..i + 1], order[k..i + 1])
  {
  }

  lemma {:induction false} ListedSelectable(w: World, s: Session)
    requires Selectable(w, s)
    ensures forall uid :: uid in s.order ==> uid in s.utterances
  {
  }

  lemma {:induction false} LeftAlone(w: World, s: Session, r: Session, k: nat)
    requires k < |s.order| && Once(s.order) && s.order[k] in s.utterances && !Pending(w, s, s.order[k])
    requires Within(s, r, s.order[k + 1..])
    ensures s.order[k] in r.utterances && !Pending(w, r, s.order[k])
  {
    assert s.order[k] !in s.order[k + 1..];
  }

  /** The sweep ends with nothing left waiting, or at an utterance from which selection
      stopped for a reason, everything before it done. */
  ghost predicate SweptUpto(w: World, x: Weather, s: Session, r: Session, o: Outcome, k: nat, i: nat)
    requires k <= i <= |s.order| && Selectable(w, s)
  {
    && (forall j :: k <= j < i ==> s.order[j] in r.utterances && !Pending(w, r, s.order[j]))
    && if i == |s.order| then o == Carry
       else s.order[i] in s.utterances && Finishes(w, x, s.utterances[s.order[i]], s.order[i], r, o) && o != Carry
  }

  lemma {:induction false} SweepEnds(w: World, x: Weather, s: Session, k: nat) returns (i: nat)
    requires k <= |s.order| && Selectable(w, s) && Once(s.order)
    ensures k <= i <= |s.order|
    ensures var r := Sweep(w, x, s, k); SweptUpto(w, x, s, r.0, r.1, k, i)
    decreases |s.order| - k, 1
  {
    hide SweptUpto, Pending, Finishes, Selectable, Once, SelectUtterance, OnlyFor, HadRoom, Within;
    i := k;
    if k == |s.order| {
      NothingSwept(w, x, s);
    } else {
      ListedSelectable(w, s);
      var uid := s.order[k];
      if !Pending(w, s, uid) {
        StandingFor(w, s, uid);
        i := SweepOn(w, x, s, s, k);
      } else {
        var r := SelectUtterance(w, x, s, uid);
        UtteranceStops(w, x, s, uid);
        SameKeys(s, r.0, uid);
        if r.1 == Carry {
          i := SweepOn(w, x, s, r.0, k);
        } else {
          SweptHere(w, x, s, r.0, r.1, k);
        }
      }
    }
  }

  /** Utterance `k` is done in `m`, and the sweep goes on after it. */
  lemma {:induction false} SweepOn(w: World, x: Weather, s: Session, m: Session, k: nat) returns (i: nat)
    requires k < |s.order| && Selectable(w, s) && Selectable(w, m) && Once(s.order) && m.order == s.order
    requires OnlyFor(s, m, s.order[k]) && s.order[k] in m.utterances && !Pending(w, m, s.order[k])
    ensures k <= i <= |s.order|
    ensures var r := Sweep(w, x, m, k + 1); SweptUpto(w, x, s, r.0, r.1, k, i)
    decreases |s.order| - k, 0
  {
    hide SweptUpto, Pending, Finishes, Selectable, Once, Sweep, OnlyFor, HadRoom, Within;
    i := SweepEnds(w, x, m, k + 1);
    SweepOnce(w, x, m, k + 1);
    var r := Sweep(w, x, m, k + 1);
    LeftAlone(w, m, r.0, k);
    SweptMore(w, x, s, m, r.0, r.1, k, i);
  }

  lemma {:induction false} NothingSwept(w: World, x: Weather, s: Session)
    requires Selectable(w, s)
    ensures SweptUpto(w, x, s, s, Carry, |s.order|, |s.order|)
  {
  }

  lemma {:induction false} SweptHere(w: World, x: Weather, s: Session, r: Session, o: Outcome, k: nat)
    requires k < |s.order| && Selectable(w, s) && s.order[k] in s.utterances && o != Carry
    requires Tracked(w, s.utterances[s.order[k]].tracker)
    requires Finishes(w, x, s.utterances[s.order[k]], s.order[k], r, o)
    ensures SweptUpto(w, x, s, r, o, k, k)
  {
  }

  lemma {:induction false} SweptMore(w: World, x: Weather, s: Session, m: Session, r: Session, o: Outcome, k: nat,
                                     i: nat)
    requires k < i <= |s.order| && Selectable(w, s) && Selectable(w, m) && Once(s.order) && m.order == s.order
    requires OnlyFor(s, m, s.order[k]) && SweptUpto(w, x, m, r, o, k + 1, i)
    requires s.order[k] in r.utterances && !Pending(w, r, s.order[k])
    ensures SweptUpto(w, x, s, r, o, k, i)
  {
    ListedSelectable(w, s);
    hide Pending, Finishes, Selectable;
    if i < |s.order| { UntouchedAt(s, m, k, i); }
  }

  lemma {:induction false} UntouchedAt(s: Session, r: Session, k: nat, i: nat)
    requires k < i < |s.order| && Once(s.order) && OnlyFor(s, r, s.order[k]) && s.order[i] in s.utterances
    ensures s.order[i] in r.utterances && r.utterances[s.order[i]] == s.utterances[s.order[i]]
  {
  }

  // -------- In every run

  lemma {:induction false} OrderAppends(s: Session, uid: string)
    requires Listed(s) && Once(s.order) && uid !in s.utterances
    ensures Once(s.order + [uid])
  {
    forall i | 0 <= i < |s.order|
      ensures s.order[i] != uid
    {
      assert s.order[i] in s.order;
    }
  }

  lemma {:induction false} ActionOnce(w: World, s: Session, a: Action)
    requires Sound(w, s) && Once(s.order)
    ensures Once(Perform(w, s, a).order)
  {
    match a
    case Ingest(e, clock) =>
      if s.pc == Idle {
        EventBegins(w, s, e, clock);
        SoundListed(w, s);
        var uid := UtteranceId(s, e);
        if uid !in s.utterances { OrderAppends(s, uid); }
        hide Sound, Perform, Refusal, UtteranceId, Names, Once;
      }
    case Resume(clock) =>
      if s.pc.RollingBack? {
        ResumeIs(w, s, clock);
        hide *;
        FinishNames(w, s, clock);
      }
    case Timer(x, uid, generation) =>
      SoundIsSelectable(w, s);
      EvaluateOrder(w, x, s, uid, generation);
      hide Sound, Once, Evaluate, Selectable;
    case _ => PlainOrder(w, s, a);
  }

  lemma {:induction false} EvaluateOrder(w: World, x: Weather, s: Session, uid: string, generation: nat)
    requires Selectable(w, s)
    ensures Evaluate(w, x, s, uid, generation).order == s.order
  {
    SweepOnce(w, x, s, 0);
    hide Sweep, Selectable, Within, HadRoom;
  }

  lemma {:induction false} PlainOrder(w: World, s: Session, a: Action)
    requires Sound(w, s) && !a.Ingest? && !a.Resume? && !a.Timer?
    ensures Perform(w, s, a).order in {s.order, []}
  {
    hide Sound, Selectable, Accepts, Fails, Unproposable, Stopped;
  }

  lemma {:induction false} RunOnce(w: World, s: Session, actions: seq<Action>)
    requires Sound(w, s) && Once(s.order)
    ensures Once(RunOf(w, s, actions).order)
    decreases |actions|
  {
    hide Sound, Perform, Once;
    if actions != [] {
      PerformSound(w, s, actions[0]);
      ActionOnce(w, s, actions[0]);
      RunOnce(w, Perform(w, s, actions[0]), actions[1..]);
    }
  }

  /** In any run, a timer never selects from a later utterance while an earlier one still
      waits, and adds segments only while there is room for them. */
  lemma {:induction false} EarlierFirst(w: World, id: string, actions: seq<Action>, x: Weather, uid: string,
                                        generation: nat, i: nat)
    requires w.settings.Valid()
    ensures Sound(w, Opened(id))
    ensures var s := RunOf(w, Opened(id), actions);
      Sound(w, s)
      && var r := Perform(w, s, Timer(x, uid, generation));
      HadRoom(w, s, r)
      && (i < |s.order| ==>
            s.order[i] in r.utterances && (Pending(w, r, s.order[i]) ==> Within(s, r, s.order[..i + 1])))
  {
    OpenedSound(w, id);
    RunSound(w, Opened(id), actions);
    RunOnce(w, Opened(id), actions);
    var s := RunOf(w, Opened(id), actions);
    hide *;
    TimerWithin(w, s, x, uid, generation, i);
  }

  lemma {:induction false} TimerWithin(w: World, s: Session, x: Weather, uid: string, generation: nat, i: nat)
    requires Sound(w, s) && Once(s.order)
    ensures var r := Perform(w, s, Timer(x, uid, generation));
      HadRoom(w, s, r)
      && (i < |s.order| ==>
            s.order[i] in r.utterances && (Pending(w, r, s.order[i]) ==> Within(s, r, s.order[..i + 1])))
  {
    hide Sound, Selectable, Evaluate, HadRoom, Within, Pending, Once, IngestStart, Resulted;
    SoundIsSelectable(w, s);
    NoneAdded(w, s);
    ListedSelectable(w, s);
    if i < |s.order| { NothingWithin(s, s.order[..i + 1]); }
    EvaluateWithin(w, x, s, uid, generation, i);
  }

  lemma {:induction false} EvaluateWithin(w: World, x: Weather, s: Session, uid: string, generation: nat, i: nat)
    requires Selectable(w, s) && Once(s.order)
    ensures var r := Evaluate(w, x, s, uid, generation);
      HadRoom(w, s, r)
      && (i < |s.order| ==>
            s.order[i] in r.utterances && (Pending(w, r, s.order[i]) ==> Within(s, r, s.order[..i + 1])))
  {
    hide Sweep, Selectable, Within, HadRoom, Pending, Once;
    NoneAdded(w, s);
    ListedSelectable(w, s);
    SweepOnce(w, x, s, 0);
    var r := Sweep(w, x, s, 0).0;
    PcWithin(w, s, r, Dispatching);
    if i < |s.order| {
      NothingWithin(s, s.order[..i + 1]);
      SweepHalts(w, x, s, 0, i);
      assert s.order[0..i + 1] == s.order[..i + 1];
      PcPending(w, r, Dispatching, s.order[i]);
      if Pending(w, r, s.order[i]) { PcWithinOrder(s, r, Dispatching, s.order[..i + 1]); }
    }
  }

  lemma {:induction false} PcWithin(w: World, s: Session, r: Session, pc: Pc)
    requires HadRoom(w, s, r)
    ensures HadRoom(w, s, r.(pc := pc))
  {
  }

  lemma {:induction false} PcPending(w: World, r: Session, pc: Pc, uid: string)
    requires uid in r.utterances
    ensures Pending(w, r.(pc := pc), uid) == Pending(w, r, uid)
  {
  }

  lemma {:induction false} PcWithinOrder(s: Session, r: Session, pc: Pc, order: seq<string>)
    requires Within(s, r, order)
    ensures Within(s, r.(pc := pc), order)
  {
  }

  /** A timer of the current generation sweeps every utterance and then lets the session
      dispatch, unless selection raised; any other timer does nothing. */
  lemma {:induction false} TimerSweeps(w: World, s: Session, x: Weather, uid: string, generation: nat)
      returns (i: nat, o: Outcome)
    requires Sound(w, s) && s.pc == Idle && Once(s.order)
    ensures Selectable(w, s) && i <= |s.order|
    ensures var r := Perform(w, s, Timer(x, uid, generation));
      if s.closed || generation != s.generation || uid !in s.utterances then r == s
      else SweptUpto(w, x, s, r.(pc := Idle), o, 0, i) && r.pc == if o == Raised then Idle else Dispatching
  {
    hide Sound, Selectable, Sweep, SweptUpto, Once, Pending, IngestStart, IngestFinish, Resulted;
    SoundIsSelectable(w, s);
    i := SweepEnds(w, x, s, 0);
    o := Sweep(w, x, s, 0).1;
    SweepPc(w, x, s, 0);
    assert Sweep(w, x, s, 0).0.(pc := Idle) == Sweep(w, x, s, 0).0;
  }

  lemma {:induction false} LoopPc(w: World, x: Weather, s: Session, uid: string, conflict: bool)
    requires uid in s.utterances
    ensures SelectLoop(w, x, s, uid, conflict).0.pc == s.pc
    decreases |s.utterances[uid].text| - s.utterances[uid].selectedEnd
  {
    hide HasContent, Blocked, QueryFor, Choice, G.Segmented;
    if Choice(w, x, s, uid, conflict).Some? {
      var c := Choice(w, x, s, uid, conflict).value;
      SelectsExactly(w, x, s, uid, conflict);
      LoopPc(w, x, Appended(s, uid, s.utterances[uid], c), uid, conflict);
    }
  }

  lemma {:induction false} SweepPc(w: World, x: Weather, s: Session, k: nat)
    requires k <= |s.order| && Selectable(w, s)
    ensures Sweep(w, x, s, k).0.pc == s.pc
    decreases |s.order| - k
  {
    hide Pending, SelectLoop, Tracked, Restabilised, S.Refreshed;
    if k < |s.order| {
      var uid := s.order[k];
      if !Pending(w, s, uid) {
        SweepPc(w, x, s, k + 1);
      } else {
        UtterancePc(w, x, s, uid);
        var r := SelectUtterance(w, x, s, uid);
        if r.1 == Carry { SweepPc(w, x, r.0, k + 1); }
      }
    }
  }

  lemma {:induction false} UtterancePc(w: World, x: Weather, s: Session, uid: string)
    requires uid in s.utterances && Selectable(w, s)
    ensures SelectUtterance(w, x, s, uid).0.pc == s.pc
  {
    hide SelectLoop, Selectable, Restabilised, Tracked;
    SelectableAt(w, s, uid);
    var v := Restabilised(w, x, s.utterances[uid], uid);
    if v.Ok? {
      var t := S.Refreshed(w.settings.stability, w.u, s.utterances[uid].tracker, x.clock(uid));
      var conflict := t.verdict.value.conflict;
      LoopPc(w, x, s.(utterances := s.utterances[uid := v.value]), uid, conflict);
    }
  }

  // -------- Context

  lemma {:induction false} JoinedMore(segments: seq<Segment>, g: Segment)
    ensures Joined(segments + [g]) == if segments == [] then g.source else Joined(segments) + "\n" + g.source
  {
    if segments == [] {
      assert segments + [g] == [g];
    } else if |segments| == 1 {
      assert (segments + [g])[1..] == [g];
    } else {
      JoinedMore(segments[1..], g);
      assert (segments + [g])[1..] == segments[1..] + [g];
    }
  }

  /** The context ends with the newest segment, before it the next newest, and so on for as
      many segments as are asked for. */
  lemma {:induction false} ContextIsNewest(segments: seq<Segment>, g: Segment, count: nat)
    ensures Context(segments, 0) == "" && Context([], count) == ""
    ensures Context(segments + [g], count + 1)
         == if segments == [] || count == 0 then g.source else Context(segments, count) + "\n" + g.source
  {
    var n := |segments|;
    if n <= count {
      JoinedMore(segments, g);
    } else {
      JoinedMore(segments[n - count..], g);
      assert (segments + [g])[n - count..] == segments[n - count..] + [g];
    }
  }

  // -------- Results

  /** The result names the running segment at `i` as it is now. */
  ghost predicate Answers(s: Session, i: nat, generation: nat, segment: nat, revision: nat) {
    && i < |s.segments| && s.segments[i].id == segment && s.segments[i].revision == revision
    && s.segments[i].status == Running && s.active == Some(segment) && !s.closed && s.generation == generation
  }

  /** All translations together, with this one, stay inside the session's limits. */
  ghost predicate FitsIn(w: World, s: Session, text: string) {
    && TranslationChars(s.segments) + |text| <= w.settings.maxTranslationChars
    && StateBytes(w, s) + w.bytes(text) <= w.settings.maxStateBytes
  }

  /** A result writes the one running segment it names: its translation if there is one that
      fits, and otherwise that it failed. */
  lemma {:induction false} ResultWrites(w: World, s: Session, generation: nat, segment: nat, revision: nat,
                                        answer: Option<string>, i: nat)
    requires Sound(w, s) && Answers(s, i, generation, segment, revision)
    ensures var r := Resulted(w, s, generation, segment, revision, answer);
      && r.active == None && r.utterances == s.utterances
      && r.segments == s.segments[i := if answer.Some? && FitsIn(w, s, answer.value)
                                       then s.segments[i].(status := Complete, translation := answer.value)
                                       else s.segments[i].(status := Failed)]
  {
    hide Sound, TranslationChars, StateBytes, Unproposable, Find;
    SoundNumbered(w, s);
    FindIs(s, i, segment);
  }

  lemma {:induction false} FindIs(s: Session, i: nat, id: nat)
    requires i < |s.segments| && s.segments[i].id == id
    requires forall j, k :: 0 <= j < k < |s.segments| ==> s.segments[j].id != s.segments[k].id
    ensures Find(s.segments, id) == i
  {
  }

  /** A result that names no running segment as it is now changes nothing. */
  lemma {:induction false} OtherResults(w: World, s: Session, generation: nat, segment: nat, revision: nat,
                                        answer: Option<string>)
    requires forall i: nat :: !Answers(s, i, generation, segment, revision)
    ensures Resulted(w, s, generation, segment, revision, answer) == s
  {
    NotAccepted(s, generation, segment, revision);
  }

  lemma {:induction false} NotAccepted(s: Session, generation: nat, segment: nat, revision: nat)
    requires forall i: nat :: !Answers(s, i, generation, segment, revision)
    ensures !Accepts(s, generation, segment, revision)
  {
    if Accepts(s, generation, segment, revision) {
      assert Answers(s, Find(s.segments, segment), generation, segment, revision);
    }
  }

  lemma {:induction false} SoundNumbered(w: World, s: Session)
    requires Sound(w, s)
    ensures forall i, j :: 0 <= i < j < |s.segments| ==> s.segments[i].id != s.segments[j].id
  {
  }

  /** The segment that starts running is the first one that is ready. */
  ghost predicate IsNext(s: Session, i: nat) {
    && i < |s.segments| && s.segments[i].status == Ready && (forall k :: 0 <= k < i ==> s.segments[k].status != Ready)
    && s.connected && !s.closed && s.active == None
  }

  /** When the scheduler takes a job it is for the first ready segment of a connected
      session with nothing running; otherwise no segment changes. */
  lemma {:induction false} DispatchesFirst(w: World, s: Session, i: nat)
    requires Sound(w, s) && s.pc == Dispatching && IsNext(s, i)
    ensures var r := Perform(w, s, Dispatch(true));
      && r.pc == Idle && r.active == Some(s.segments[i].id)
      && r.segments == s.segments[i := s.segments[i].(status := Running)]
  {
    hide Sound, FirstReady, IngestStart, Evaluate, Resulted, IngestFinish;
    FirstIs(s, i);
  }

  lemma {:induction false} FirstIs(s: Session, i: nat)
    requires IsNext(s, i)
    ensures FirstReady(s.segments) == i
  {
  }

  lemma {:induction false} NothingDispatches(w: World, s: Session, queued: bool)
    requires Sound(w, s) && s.pc == Dispatching && (queued ==> forall i: nat :: !IsNext(s, i))
    ensures Perform(w, s, Dispatch(queued)) == s.(pc := Idle)
  {
    hide Sound, FirstReady, IngestStart, Evaluate, Resulted, IngestFinish;
    if queued && NextReady(s).Some? {
      NextIs(s);
    }
  }

  lemma {:induction false} NextIs(s: Session)
    requires NextReady(s).Some?
    ensures IsNext(s, NextReady(s).value)
  {
  }
}
