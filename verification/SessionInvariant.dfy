/** What one session keeps through every event, rollback and selection. */
module SessionInvariant {
  import opened Wrappers
  import opened Text
  import opened Revision
  import opened Session
  import S = Stability
  import G = Segmentation

  // -------- Segments tile the selected text

  /** Consecutive exact slices of `text` from `from` to `to`. */
  ghost predicate Tiles(segments: seq<Segment>, text: string, from: int, to: int) {
    if segments == [] then from == to
    else
      && segments[0].start == from < segments[0].end <= |text|
      && segments[0].source == text[segments[0].start..segments[0].end]
      && Tiles(segments[1..], text, segments[0].end, to)
  }

  lemma {:induction false} TilesBounds(segments: seq<Segment>, text: string, from: int, to: int)
    requires Tiles(segments, text, from, to) && 0 <= from <= |text|
    ensures from <= to <= |text|
    ensures forall i :: 0 <= i < |segments| ==> from <= segments[i].start < segments[i].end <= to
    ensures segments != [] ==> segments[|segments| - 1].end == to
  {
    if segments != [] {
      TilesBounds(segments[1..], text, segments[0].end, to);
      forall i | 0 <= i < |segments|
        ensures from <= segments[i].start < segments[i].end <= to
      {
        if i > 0 { assert segments[i] == segments[1..][i - 1]; }
      }
    }
  }

  lemma {:induction false} TilesPrefix(segments: seq<Segment>, text: string, from: int, to: int, k: nat)
    requires Tiles(segments, text, from, to) && k <= |segments|
    ensures Tiles(segments[..k], text, from, if k < |segments| then segments[k].start else to)
  {
    if k == 0 {
    } else {
      TilesPrefix(segments[1..], text, segments[0].end, to, k - 1);
      assert segments[..k][1..] == segments[1..][..k - 1];
    }
  }

  lemma {:induction false} TilesAppend(segments: seq<Segment>, text: string, from: int, to: int, g: Segment)
    requires Tiles(segments, text, from, to)
    requires g.start == to < g.end <= |text| && g.source == text[g.start..g.end]
    ensures Tiles(segments + [g], text, from, g.end)
  {
    if segments == [] {
      assert ([] + [g])[1..] == [];
    } else {
      TilesAppend(segments[1..], text, segments[0].end, to, g);
      assert (segments + [g])[1..] == segments[1..] + [g];
    }
  }

  /** The segments read the same in another text. */
  ghost predicate Fits(segments: seq<Segment>, text: string) {
    forall i :: 0 <= i < |segments| ==>
      segments[i].start <= segments[i].end <= |text| && segments[i].source == text[segments[i].start..segments[i].end]
  }

  lemma {:induction false} TilesOther(segments: seq<Segment>, text: string, other: string, from: int, to: int)
    requires Tiles(segments, text, from, to) && Fits(segments, other)
    ensures Tiles(segments, other, from, to)
  {
    if segments != [] {
      assert Fits(segments[1..], other) by {
        forall i | 0 <= i < |segments[1..]|
          ensures segments[1..][i] == segments[i + 1]
        {
        }
      }
      TilesOther(segments[1..], text, other, segments[0].end, to);
    }
  }

  lemma {:induction false} TilesInOrder(segments: seq<Segment>, text: string, from: int, to: int)
    requires Tiles(segments, text, from, to) && 0 <= from <= |text|
    ensures InOrder(Spans(segments), from, |text|)
  {
    if segments != [] {
      TilesInOrder(segments[1..], text, segments[0].end, to);
      assert Spans(segments)[1..] == Spans(segments[1..]);
    }
  }

  // -------- One utterance's share of the list

  lemma {:induction false} OfAppend(a: seq<Segment>, b: seq<Segment>, uid: string)
    ensures Of(a + b, uid) == Of(a, uid) + Of(b, uid)
  {
    if a == [] {
      assert a + b == b;
    } else {
      assert (a + b)[1..] == a[1..] + b;
      OfAppend(a[1..], b, uid);
    }
  }

  /** Cutting the list at an index cuts each utterance's share somewhere. */
  lemma {:induction false} OfCut(segments: seq<Segment>, index: nat, uid: string)
    requires index <= |segments|
    ensures var k := |Of(segments[..index], uid)|;
      && k <= |Of(segments, uid)|
      && Of(segments[..index], uid) == Of(segments, uid)[..k]
      && Of(segments[index..], uid) == Of(segments, uid)[k..]
  {
    OfAppend(segments[..index], segments[index..], uid);
    assert segments == segments[..index] + segments[index..];
  }

  lemma {:induction false} OfCons(segments: seq<Segment>, i: nat, uid: string)
    requires 0 < i <= |segments|
    ensures Of(segments[..i], uid)
         == (if segments[0].uid == uid then [segments[0]] else []) + Of(segments[1..][..i - 1], uid)
  {
    assert segments[..i][1..] == segments[1..][..i - 1];
  }

  lemma {:induction false} IndexOfCounts(segments: seq<Segment>, uid: string, k: nat)
    requires k < |Of(segments, uid)|
    ensures var i := IndexOf(segments, uid, k);
      segments[i] == Of(segments, uid)[k] && |Of(segments[..i], uid)| == k
  {
    if segments[0].uid == uid && k == 0 {
    } else {
      var k1 := if segments[0].uid != uid then k else k - 1;
      var i1 := IndexOf(segments[1..], uid, k1);
      IndexOfCounts(segments[1..], uid, k1);
      assert IndexOf(segments, uid, k) == 1 + i1;
      OfCons(segments, 1 + i1, uid);
    }
  }

  // -------- Rollback

  function Fold(v: Utterance, dropped: seq<Segment>): Utterance
    decreases |dropped|
  {
    if dropped == [] then v else Fold(Released(v, dropped[0].start), dropped[1..])
  }

  lemma {:induction false} UnselectFolds(utterances: map<string, Utterance>, dropped: seq<Segment>, uid: string)
    requires uid in utterances
    ensures Unselect(utterances, dropped)[uid] == Fold(utterances[uid], Of(dropped, uid))
  {
    if dropped != [] {
      var k := dropped[0].uid;
      var next := if k in utterances then utterances[k := Released(utterances[k], dropped[0].start)] else utterances;
      UnselectFolds(next, dropped[1..], uid);
      if k == uid {
        assert Of(dropped, uid)[1..] == Of(dropped[1..], uid);
      }
    }
  }

  /** What dropping segments does to one utterance: nothing if none is its own, and otherwise
      everything from the earliest of them on is to be selected again. */
  ghost predicate ReleasedBy(v: Utterance, r: Utterance, dropped: seq<Segment>, uid: string) {
    && r == v.(selectedEnd := r.selectedEnd, reported := r.reported) && r.selectedEnd <= v.selectedEnd
    && (forall d :: d in dropped && d.uid == uid ==> r.selectedEnd <= d.start && !r.reported)
    && (r != v ==> exists d :: d in dropped && d.uid == uid)
    && (r.selectedEnd != v.selectedEnd ==> exists d :: d in dropped && d.uid == uid && d.start == r.selectedEnd)
  }

  lemma {:induction false} UnselectReleases(utterances: map<string, Utterance>, dropped: seq<Segment>, uid: string)
    requires uid in utterances
    ensures ReleasedBy(utterances[uid], Unselect(utterances, dropped)[uid], dropped, uid)
  {
    if dropped != [] {
      var k := dropped[0].uid;
      var next := if k in utterances then utterances[k := Released(utterances[k], dropped[0].start)] else utterances;
      UnselectReleases(next, dropped[1..], uid);
      assert forall d :: d in dropped <==> d == dropped[0] || d in dropped[1..];
    }
  }

  /** Dropping the tail of a tiling gives back exactly the text from its first segment. */
  lemma {:induction false} FoldTiles(v: Utterance, dropped: seq<Segment>, text: string, from: int, to: int)
    requires Tiles(dropped, text, from, to) && 0 <= from <= |text| && from <= v.selectedEnd && dropped != []
    ensures Fold(v, dropped) == v.(selectedEnd := from, reported := false)
    decreases |dropped|
  {
    var v1 := Released(v, dropped[0].start);
    if dropped[1..] == [] {
    } else {
      TilesBounds(dropped[1..], text, dropped[0].end, to);
      FoldLater(v1, dropped[1..]);
    }
  }

  lemma {:induction false} FoldLater(v: Utterance, dropped: seq<Segment>)
    requires !v.reported && forall i :: 0 <= i < |dropped| ==> v.selectedEnd <= dropped[i].start
    ensures Fold(v, dropped) == v
    decreases |dropped|
  {
    if dropped != [] {
      forall i | 0 <= i < |dropped[1..]|
        ensures v.selectedEnd <= dropped[1..][i].start
      {
        assert dropped[1..][i] == dropped[i + 1];
      }
      FoldLater(v, dropped[1..]);
    }
  }

  lemma {:induction false} TilesSuffix(segments: seq<Segment>, text: string, from: int, to: int, k: nat)
    requires Tiles(segments, text, from, to) && k <= |segments|
    ensures Tiles(segments[k..], text, if k < |segments| then segments[k].start else to, to)
  {
    if k > 0 {
      TilesSuffix(segments[1..], text, segments[0].end, to, k - 1);
      assert segments[k..] == segments[1..][k - 1..];
    }
  }

  /** Only what has been selected, and whether that was reported, differ. */
  ghost predicate SameText(v: Utterance, r: Utterance) {
    r.tracker == v.tracker && r.text == v.text && r.stableEnd == v.stableEnd && r.final == v.final
    && r.revision == v.revision
  }

  lemma {:induction false} FoldSameText(v: Utterance, dropped: seq<Segment>)
    ensures SameText(v, Fold(v, dropped))
    decreases |dropped|
  {
    if dropped != [] {
      FoldSameText(Released(v, dropped[0].start), dropped[1..]);
    }
  }

  lemma {:induction false} ReleasedTiles(all: seq<Segment>, v: Utterance, k: nat)
    requires Tiles(all, v.text, 0, v.selectedEnd) && k <= |all|
    ensures var r := Fold(v, all[k..]);
      Tiles(all[..k], v.text, 0, r.selectedEnd) && r.selectedEnd <= v.selectedEnd
  {
    TilesPrefix(all, v.text, 0, v.selectedEnd, k);
    if k < |all| {
      TilesBounds(all, v.text, 0, v.selectedEnd);
      TilesSuffix(all, v.text, 0, v.selectedEnd, k);
      FoldTiles(v, all[k..], v.text, all[k].start, v.selectedEnd);
    }
  }

  /** After a rollback every utterance's remaining segments still tile what is selected. */
  lemma {:induction false} RolledTiles(s: Session, index: nat, uid: string, v: Utterance)
    requires index <= |s.segments| && uid in s.utterances && v == s.utterances[uid]
    requires Tiles(Of(s.segments, uid), v.text, 0, v.selectedEnd)
    ensures var r := Unselect(s.utterances, s.segments[index..])[uid];
      && Tiles(Of(s.segments[..index], uid), v.text, 0, r.selectedEnd)
      && Of(s.segments[..index], uid) <= Of(s.segments, uid)
      && r.selectedEnd <= v.selectedEnd && SameText(v, r)
  {
    var all, k := Of(s.segments, uid), |Of(s.segments[..index], uid)|;
    OfCut(s.segments, index, uid);
    UnselectFolds(s.utterances, s.segments[index..], uid);
    ReleasedTiles(all, v, k);
    FoldSameText(v, all[k..]);
  }

  // -------- The invariant

  /** The protected prefix of the current text, exactly as far as it is called stable. */
  ghost predicate Prefixed(w: World, v: Utterance) {
    v.stableEnd <= |v.text| && v.tracker.e.committed == v.text[..v.stableEnd] && Boundary(w.u, v.text, v.stableEnd)
  }

  ghost predicate Followed(w: World, v: Utterance, segments: seq<Segment>, last: int) {
    && Tracked(w, v.tracker) && v.tracker.verdict.Some? && v.tracker.sequence <= last
    && Prefixed(w, v) && Tiles(segments, v.text, 0, v.selectedEnd)
  }

  /** At rest the tracker's text is the utterance's, unless it contradicts the prefix. */
  ghost predicate Rested(w: World, v: Utterance) {
    && (S.Protects(w.u, v.tracker.e) ==> v.tracker.e.text == v.text)
    && (v.final ==> v.tracker.e.final)
  }

  /** Inside an event the tracker has already seen the new text. */
  ghost predicate Updating(w: World, v: Utterance, e: Event) {
    && v.tracker.e.text == e.text && v.tracker.e.final == e.final
    && (v.tracker.verdict.Some? && v.tracker.verdict.value.conflict ==> e.final)
  }

  ghost predicate UtteranceOk(w: World, s: Session, uid: string)
    requires uid in s.utterances
  {
    var v := s.utterances[uid];
    && Followed(w, v, Of(s.segments, uid), s.lastSequence)
    && if s.pc.RollingBack? && s.pc.uid == uid
       then Updating(w, v, s.pc.event) && Fits(Of(s.segments, uid), s.pc.event.text)
       else Rested(w, v)
  }

  ghost predicate Numbered(s: Session) {
    && (forall g :: g in s.segments ==> g.uid in s.utterances && 1 <= g.id <= s.nextSegment)
    && (forall i, j :: 0 <= i < j < |s.segments| ==> s.segments[i].id != s.segments[j].id)
    && (s.pc.RollingBack? ==> s.pc.uid in s.utterances && Apart(s.segments, s.pc.dropped, s.nextSegment))
  }

  ghost predicate Apart(segments: seq<Segment>, dropped: set<nat>, next: nat) {
    && (forall g :: g in segments ==> g.id !in dropped)
    && (forall id :: id in dropped ==> id <= next)
  }

  ghost predicate Listed(s: Session) {
    && (forall uid :: uid in s.order <==> uid in s.utterances)
    && (s.autoId.Some? ==> s.autoId.value in s.utterances)
    && -1 <= s.lastSequence
  }

  /** A segment is running exactly when it is the active one. */
  ghost predicate RunningIsActive(s: Session) {
    && (forall g :: g in s.segments ==> (g.status == Running <==> s.active == Some(g.id)))
    && (s.active.Some? ==> exists g :: g in s.segments && g.id == s.active.value)
  }

  ghost predicate Sound(w: World, s: Session) {
    && w.settings.Valid() && Listed(s) && Numbered(s) && RunningIsActive(s)
    && forall uid :: uid in s.utterances ==> UtteranceOk(w, s, uid)
  }

  // -------- Hearing an event

  lemma {:induction false} ObservedOk(w: World, t: S.Tracker, e: Event, clock: real)
    requires w.settings.Valid() && Tracked(w, t) && t.sequence < e.sequence && |e.text| <= w.settings.maxSourceChars
    ensures var r := S.Observed(w.settings.stability, w.u, t, e.text, e.sequence, e.final, e.confidences, e.pauseMs,
                                clock);
      && r.Ok? && Tracked(w, r.value) && r.value.verdict.Some? && r.value.sequence == e.sequence
      && r.value.e.text == e.text && r.value.e.final == e.final && r.value.e.committed == t.e.committed
      && (r.value.verdict.value.conflict <==> !S.Protects(w.u, r.value.e))
      && r.value.verdict.value.stableEnd <= |e.text|
      && (!r.value.verdict.value.conflict ==> |t.e.committed| <= r.value.verdict.value.stableEnd)
  {
    var r := S.Observed(w.settings.stability, w.u, t, e.text, e.sequence, e.final, e.confidences, e.pauseMs, clock);
    S.VerdictReach(w.settings.stability, w.u, r.value.e, r.value.lastTime.value);
    S.BoundaryInside(w.u, e.text, r.value.verdict.value.stableEnd);
  }

  /** Committing the event's own verdict never fails. */
  lemma {:induction false} SettledUtterance(w: World, v: Utterance, e: Event, segments: seq<Segment>, last: int,
                                            clock: real)
    requires Followed(w, v, segments, last) && Updating(w, v, e) && Fits(segments, e.text)
    ensures var r := S.Committed(w.settings.stability, w.u, v.tracker, v.tracker.verdict.value.stableEnd, e.final,
                                 clock);
      && r.Ok?
      && Followed(w, Retexted(v, e, v.tracker).(tracker := r.value), segments, last)
      && Rested(w, Retexted(v, e, v.tracker).(tracker := r.value))
      && r.value.e.text == e.text
  {
    var t := v.tracker;
    S.CommitSucceeds(w.settings.stability, w.u, t, e.final, clock);
    var r := S.Committed(w.settings.stability, w.u, t, t.verdict.value.stableEnd, e.final, clock);
    TilesOther(segments, v.text, e.text, 0, v.selectedEnd);
    assert r.value.e.committed == e.text[..t.verdict.value.stableEnd];
  }

  // -------- Changing only statuses and translations

  ghost predicate Shape(g: Segment, h: Segment) {
    h.id == g.id && h.uid == g.uid && h.start == g.start && h.end == g.end && h.source == g.source
    && h.revision == g.revision && h.final == g.final
  }

  ghost predicate SameShape(a: seq<Segment>, b: seq<Segment>) {
    |a| == |b| && forall i :: 0 <= i < |a| ==> Shape(a[i], b[i])
  }

  lemma {:induction false} ShapeOf(a: seq<Segment>, b: seq<Segment>, uid: string)
    requires SameShape(a, b)
    ensures SameShape(Of(a, uid), Of(b, uid))
  {
    if a != [] {
      assert Shape(a[0], b[0]);
      assert forall i :: 0 <= i < |a[1..]| ==> a[1..][i] == a[i + 1] && b[1..][i] == b[i + 1];
      ShapeOf(a[1..], b[1..], uid);
      ShapeCons(a, b, Of(a[1..], uid), Of(b[1..], uid), uid);
    }
  }

  lemma {:induction false} ShapeCons(a: seq<Segment>, b: seq<Segment>, p: seq<Segment>, q: seq<Segment>, uid: string)
    requires a != [] && b != [] && Shape(a[0], b[0]) && SameShape(p, q)
    requires p == Of(a[1..], uid) && q == Of(b[1..], uid)
    ensures SameShape(Of(a, uid), Of(b, uid))
  {
    assert Of(a, uid) == if a[0].uid == uid then [a[0]] + p else p;
    assert Of(b, uid) == if b[0].uid == uid then [b[0]] + q else q;
  }

  lemma {:induction false} ShapeTiles(a: seq<Segment>, b: seq<Segment>, text: string, from: int, to: int)
    requires SameShape(a, b) && Tiles(a, text, from, to)
    ensures Tiles(b, text, from, to)
  {
    if a != [] {
      ShapeTiles(a[1..], b[1..], text, a[0].end, to);
    }
  }

  lemma {:induction false} ShapeNumbered(a: Session, b: Session)
    requires Numbered(a) && SameShape(a.segments, b.segments) && b.nextSegment == a.nextSegment
    requires b.utterances.Keys == a.utterances.Keys && (b.pc.RollingBack? ==> b.pc == a.pc)
    ensures Numbered(b)
  {
    forall g | g in b.segments
      ensures exists h :: h in a.segments && Shape(h, g)
    {
      var i :| 0 <= i < |b.segments| && b.segments[i] == g;
      assert Shape(a.segments[i], g);
    }
  }

  /** A step that leaves texts, order and identities alone. */
  lemma {:induction false} ShapeSound(w: World, a: Session, b: Session)
    requires Sound(w, a) && SameShape(a.segments, b.segments) && RunningIsActive(b)
    requires b.utterances == a.utterances && b.order == a.order && b.autoId == a.autoId
    requires b.nextSegment == a.nextSegment && b.lastSequence == a.lastSequence
    requires !a.pc.RollingBack? && !b.pc.RollingBack?
    ensures Sound(w, b)
  {
    ShapeNumbered(a, b);
    forall uid | uid in b.utterances
      ensures UtteranceOk(w, b, uid)
    {
      assert UtteranceOk(w, a, uid);
      ShapeFollowed(w, a.utterances[uid], a.segments, b.segments, uid, a.lastSequence);
    }
  }

  lemma {:induction false} ShapeFollowed(w: World, v: Utterance, a: seq<Segment>, b: seq<Segment>, uid: string,
                                         last: int)
    requires SameShape(a, b) && Followed(w, v, Of(a, uid), last)
    ensures Followed(w, v, Of(b, uid), last)
  {
    ShapeOf(a, b, uid);
    ShapeTiles(Of(a, uid), Of(b, uid), v.text, 0, v.selectedEnd);
  }

  // -------- Events

  lemma {:induction false} Later(w: World, v: Utterance, segments: seq<Segment>, last: int, later: int)
    requires Followed(w, v, segments, last) && last <= later
    ensures Followed(w, v, segments, later)
  {
  }

  lemma {:induction false} OfNone(segments: seq<Segment>, uid: string)
    requires forall g :: g in segments ==> g.uid != uid
    ensures Of(segments, uid) == []
  {
    if segments != [] {
      OfNone(segments[1..], uid);
    }
  }

  /** The utterance an admitted event is for, before the event. */
  lemma {:induction false} KnownFollowed(w: World, s: Session, e: Event, uid: string)
    requires Sound(w, s) && !s.pc.RollingBack?
    ensures var v := Known(s, uid, e);
      && Tracked(w, v.tracker) && v.tracker.sequence <= s.lastSequence
      && Prefixed(w, v) && Tiles(Of(s.segments, uid), v.text, 0, v.selectedEnd) && Rested(w, v)
  {
    if uid in s.utterances {
      assert UtteranceOk(w, s, uid);
    } else {
      FreshTracked(w);
      OfNone(s.segments, uid);
    }
  }

  /** The event is heard; its tracker accepted it. */
  ghost predicate HeardOk(w: World, s: Session, e: Event, uid: string, t: S.Tracker) {
    && Sound(w, s) && !s.pc.RollingBack? && s.lastSequence < e.sequence
    && Tracked(w, t) && t.verdict.Some? && t.sequence == e.sequence
    && t.e.text == e.text && t.e.final == e.final && t.e.committed == Known(s, uid, e).tracker.e.committed
    && (t.verdict.value.conflict <==> !S.Protects(w.u, t.e))
  }

  lemma {:induction false} HeardFollowed(w: World, s: Session, e: Event, uid: string, t: S.Tracker)
    requires HeardOk(w, s, e, uid, t)
    ensures Followed(w, Known(s, uid, e).(tracker := t), Of(s.segments, uid), e.sequence)
  {
    KnownFollowed(w, s, e, uid);
  }

  /** Every other utterance is untouched by hearing. */
  lemma {:induction false} OthersHeard(w: World, s: Session, e: Event, uid: string, t: S.Tracker, other: string)
    requires HeardOk(w, s, e, uid, t) && other in s.utterances && other != uid
    ensures var h := Heard(s, e, uid, t);
      other in h.utterances && h.utterances[other] == s.utterances[other]
      && Followed(w, s.utterances[other], Of(s.segments, other), e.sequence) && Rested(w, s.utterances[other])
  {
    assert UtteranceOk(w, s, other);
    Later(w, s.utterances[other], Of(s.segments, other), s.lastSequence, e.sequence);
  }

  lemma {:induction false} HeardListed(s: Session, e: Event, uid: string, t: S.Tracker)
    requires Listed(s) && Numbered(s) && s.lastSequence < e.sequence && !s.pc.RollingBack?
    requires e.utterance.None? || uid == e.utterance.value
    ensures Listed(Heard(s, e, uid, t)) && Numbered(Heard(s, e, uid, t))
  {
    var h := Heard(s, e, uid, t);
    assert h.utterances.Keys == s.utterances.Keys + {uid};
    if uid !in s.utterances {
      assert forall x :: x in h.order <==> x in s.order || x == uid;
    }
  }

  lemma {:induction false} DeferredSound(w: World, s: Session, e: Event, uid: string, t: S.Tracker)
    requires HeardOk(w, s, e, uid, t) && (e.utterance.None? || uid == e.utterance.value)
    requires t.verdict.value.conflict && !e.final && !Known(s, uid, e).final
    ensures Sound(w, Heard(s, e, uid, t))
  {
    var h := Heard(s, e, uid, t);
    HeardListed(s, e, uid, t);
    HeardFollowed(w, s, e, uid, t);
    forall other | other in h.utterances
      ensures UtteranceOk(w, h, other)
    {
      if other != uid { OthersHeard(w, s, e, uid, t, other); }
    }
  }

  lemma {:induction false} RetriedShape(segments: seq<Segment>, uid: string)
    ensures SameShape(segments, Retried(segments, uid))
  {
  }

  lemma {:induction false} RetriedRunning(s: Session, t: Session, uid: string)
    requires RunningIsActive(s) && t.active == s.active && t.segments in {s.segments, Retried(s.segments, uid)}
    ensures RunningIsActive(t)
  {
    forall g | g in t.segments
      ensures g.status == Running <==> t.active == Some(g.id)
    {
      var i :| 0 <= i < |t.segments| && t.segments[i] == g;
      assert s.segments[i] in s.segments;
    }
    if s.active.Some? {
      var g :| g in s.segments && g.id == s.active.value;
      var i :| 0 <= i < |s.segments| && s.segments[i] == g;
      assert t.segments[i] in t.segments;
    }
  }

  lemma {:induction false} SettleIs(w: World, s: Session, uid: string, e: Event, clock: real, t: S.Tracker)
    requires uid in s.utterances && s.utterances[uid].tracker.verdict.Some? && Tracked(w, s.utterances[uid].tracker)
    requires S.Committed(w.settings.stability, w.u, s.utterances[uid].tracker,
                         s.utterances[uid].tracker.verdict.value.stableEnd, e.final, clock) == Ok(t)
    ensures var r := Settle(w, s, uid, e, clock); var v := s.utterances[uid];
      && r.utterances == s.utterances[uid := Retexted(v, e, v.tracker).(tracker := t)]
      && r.segments == (if e.final then Retried(s.segments, uid) else s.segments)
      && r.pc == Idle && r.active == s.active && r.order == s.order && r.autoId == s.autoId
      && r.nextSegment == s.nextSegment && r.lastSequence == s.lastSequence
      && r.generation == s.generation && r.closed == s.closed && r.connected == s.connected
  {
  }

  /** One utterance replaced by a sound one, and the roll-back over. */
  lemma {:induction false} ReplacedSound(w: World, s: Session, r: Session, uid: string, v: Utterance)
    requires Sound(w, s) && s.pc.RollingBack? && s.pc.uid == uid && r.pc == Idle && uid in s.utterances
    requires r.utterances == s.utterances[uid := v] && SameShape(s.segments, r.segments) && RunningIsActive(r)
    requires Followed(w, v, Of(s.segments, uid), s.lastSequence) && Rested(w, v)
    requires r.active == s.active && r.order == s.order && r.autoId == s.autoId
    requires r.nextSegment == s.nextSegment && r.lastSequence == s.lastSequence
    ensures Sound(w, r)
  {
    hide Followed, Rested, Updating, Fits, RunningIsActive, SameShape, Numbered;
    assert r.utterances.Keys == s.utterances.Keys;
    ShapeNumbered(s, r);
    forall other | other in r.utterances
      ensures UtteranceOk(w, r, other)
    {
      assert other != uid ==> UtteranceOk(w, s, other);
      ShapeFollowed(w, r.utterances[other], s.segments, r.segments, other, s.lastSequence);
    }
  }

  lemma {:induction false} ShapeSame(a: seq<Segment>)
    ensures SameShape(a, a)
  {
  }

  /** The second half of an event keeps the invariant; its commit cannot fail. */
  lemma {:induction false} SettleSound(w: World, s: Session, clock: real)
    requires Sound(w, s) && s.pc.RollingBack?
    ensures Tracked(w, s.utterances[s.pc.uid].tracker) && s.utterances[s.pc.uid].tracker.verdict.Some?
    ensures Sound(w, Settle(w, s, s.pc.uid, s.pc.event, clock))
  {
    var uid, e := s.pc.uid, s.pc.event;
    var v := s.utterances[s.pc.uid];
    assert UtteranceOk(w, s, uid);
    SettledUtterance(w, v, e, Of(s.segments, uid), s.lastSequence, clock);
    var t := S.Committed(w.settings.stability, w.u, v.tracker, v.tracker.verdict.value.stableEnd, e.final, clock).value;
    SettleIs(w, s, uid, e, clock, t);
    RetriedShape(s.segments, uid);
    ShapeSame(s.segments);
    RetriedRunning(s, Settle(w, s, uid, e, clock), uid);
    ReplacedSound(w, s, Settle(w, s, uid, e, clock), uid, Retexted(v, e, v.tracker).(tracker := t));
  }

  /** The plan for a heard event exists and its kept segments read the same in the new text. */
  lemma {:induction false} PlanFits(w: World, v: Utterance, segments: seq<Segment>, text: string)
    requires Tiles(segments, v.text, 0, v.selectedEnd)
    ensures var plan := Planned(w.u, v.text, text, Spans(segments));
      plan.Plan? && plan.rollbackIndex <= |segments| && Fits(segments[..plan.rollbackIndex], text)
  {
    TilesInOrder(segments, v.text, 0, v.selectedEnd);
    KeptExactly(w.u, v.text, text, Spans(segments));
    TilesSources(segments, v.text, 0, v.selectedEnd);
    var n := Planned(w.u, v.text, text, Spans(segments)).rollbackIndex;
    forall i | 0 <= i < n
      ensures segments[..n][i].start <= segments[..n][i].end <= |text|
      ensures segments[..n][i].source == text[segments[..n][i].start..segments[..n][i].end]
    {
      assert Spans(segments)[i] == Span(segments[i].start, segments[i].end);
    }
  }

  lemma {:induction false} TilesSources(segments: seq<Segment>, text: string, from: int, to: int)
    requires Tiles(segments, text, from, to) && 0 <= from <= |text|
    ensures Fits(segments, text)
  {
    if segments != [] {
      TilesSources(segments[1..], text, segments[0].end, to);
      forall i | 0 <= i < |segments|
        ensures segments[i].start <= segments[i].end <= |text|
        ensures segments[i].source == text[segments[i].start..segments[i].end]
      {
        if i > 0 { assert segments[i] == segments[1..][i - 1]; }
      }
    }
  }

  /** Cutting the list keeps identities apart and the active segment consistent. */
  lemma {:induction false} CutNumbered(h: Session, uid: string, e: Event, index: nat)
    requires index <= |h.segments| && Numbered(h) && RunningIsActive(h) && uid in h.utterances
    ensures Numbered(RollFor(h, uid, e, index)) && RunningIsActive(RollFor(h, uid, e, index))
  {
    CutApart(h.segments, index);
    assert forall d :: d in h.segments[index..] ==> d in h.segments;
    var r := RollFor(h, uid, e, index);
    assert r.segments == h.segments[..index] && r.nextSegment == h.nextSegment;
    assert r.active == if h.active.Some? && h.active.value in Ids(h.segments[index..]) then None else h.active;
    hide RollFor, Apart;
    CutRunning(h, r, index);
    assert Apart(r.segments, Ids(h.segments[index..]), h.nextSegment) by { CutDropped(h, index); }
  }

  lemma {:induction false} CutDropped(h: Session, index: nat)
    requires index <= |h.segments| && Numbered(h)
    ensures Apart(h.segments[..index], Ids(h.segments[index..]), h.nextSegment)
  {
    CutApart(h.segments, index);
    assert forall d :: d in h.segments[index..] ==> d in h.segments;
  }

  /** If the active segment is dropped, none is active. */
  lemma {:induction false} CutRunning(h: Session, r: Session, index: nat)
    requires index <= |h.segments| && RunningIsActive(h) && r.segments == h.segments[..index]
    requires r.active == if h.active.Some? && h.active.value in Ids(h.segments[index..]) then None else h.active
    requires forall g :: g in r.segments ==> g in h.segments && g.id !in Ids(h.segments[index..])
    ensures RunningIsActive(r)
  {
    if r.active.Some? {
      var g :| g in h.segments && g.id == r.active.value;
      assert h.segments == r.segments + h.segments[index..];
      assert g !in h.segments[index..];
    }
  }

  lemma {:induction false} CutApart(segments: seq<Segment>, index: nat)
    requires index <= |segments| && forall i, j :: 0 <= i < j < |segments| ==> segments[i].id != segments[j].id
    ensures forall g :: g in segments[..index] ==> g in segments && g.id !in Ids(segments[index..])
  {
    forall g | g in segments[..index]
      ensures g in segments && g.id !in Ids(segments[index..])
    {
      var i :| 0 <= i < index && segments[i] == g;
      forall d | d in segments[index..]
        ensures d.id != g.id
      {
        var j :| index <= j < |segments| && segments[j] == d;
      }
    }
  }

  lemma {:induction false} CutUtterance(w: World, h: Session, uid: string, e: Event, index: nat, other: string)
    requires index <= |h.segments| && other in h.utterances
    requires Followed(w, h.utterances[other], Of(h.segments, other), h.lastSequence)
    ensures var r := RollFor(h, uid, e, index);
      && other in r.utterances && SameText(h.utterances[other], r.utterances[other])
      && Followed(w, r.utterances[other], Of(r.segments, other), h.lastSequence)
  {
    RolledTiles(h, index, other, h.utterances[other]);
  }

  /** Everything about a heard event but what its plan decides. */
  ghost predicate Mid(w: World, h: Session, e: Event, uid: string) {
    && w.settings.Valid() && Listed(h) && Numbered(h) && RunningIsActive(h) && !h.pc.RollingBack?
    && uid in h.utterances && Updating(w, h.utterances[uid], e)
    && (forall other :: other in h.utterances ==>
          Followed(w, h.utterances[other], Of(h.segments, other), h.lastSequence))
    && (forall other :: other in h.utterances && other != uid ==> Rested(w, h.utterances[other]))
  }

  lemma {:induction false} HeardMid(w: World, s: Session, e: Event, uid: string, t: S.Tracker)
    requires HeardOk(w, s, e, uid, t) && (e.utterance.None? || uid == e.utterance.value)
    requires t.verdict.value.conflict ==> e.final
    ensures Mid(w, Heard(s, e, uid, t), e, uid)
  {
    var h := Heard(s, e, uid, t);
    HeardListed(s, e, uid, t);
    HeardFollowed(w, s, e, uid, t);
    forall other | other in h.utterances && other != uid
      ensures Followed(w, h.utterances[other], Of(h.segments, other), h.lastSequence)
      ensures Rested(w, h.utterances[other])
    {
      OthersHeard(w, s, e, uid, t, other);
    }
  }

  lemma {:induction false} CutSound(w: World, h: Session, e: Event, uid: string, index: nat)
    requires Mid(w, h, e, uid) && index <= |h.segments| && Fits(Of(h.segments[..index], uid), e.text)
    ensures Sound(w, RollFor(h, uid, e, index))
  {
    var r := RollFor(h, uid, e, index);
    CutNumbered(h, uid, e, index);
    forall other | other in r.utterances
      ensures UtteranceOk(w, r, other)
    {
      CutUtterance(w, h, uid, e, index, other);
    }
  }

  lemma {:induction false} MidUid(w: World, h: Session, e: Event, uid: string)
    requires Mid(w, h, e, uid)
    ensures uid in h.utterances && !h.pc.RollingBack? && h.utterances[uid].tracker.verdict.Some?
    ensures Tracked(w, h.utterances[uid].tracker)
    ensures Followed(w, h.utterances[uid], Of(h.segments, uid), h.lastSequence)
    ensures Tiles(Of(h.segments, uid), h.utterances[uid].text, 0, h.utterances[uid].selectedEnd)
  {
  }

  /** A heard event drops all but the first `n` segments of its utterance, or is settled at
      once if that is all of them. */
  lemma {:induction false} ReviseIs(w: World, h: Session, e: Event, uid: string, clock: real) returns (n: nat)
    requires Mid(w, h, e, uid)
    ensures Tracked(w, h.utterances[uid].tracker) && h.utterances[uid].tracker.verdict.Some?
    ensures n <= |Of(h.segments, uid)| && Fits(Of(h.segments, uid)[..n], e.text)
    ensures Revise(w, h, e, uid, clock)
      == if n < |Of(h.segments, uid)| then Cut(RollFor(h, uid, e, IndexOf(h.segments, uid, n)))
         else Settled(Settle(w, h, uid, e, clock))
  {
    MidUid(w, h, e, uid);
    hide Mid, Tracked, Planned, Fits, Settle, Tiles, Followed, Of;
    PlanFits(w, h.utterances[uid], Of(h.segments, uid), e.text);
    n := Planned(w.u, h.utterances[uid].text, e.text, Spans(Of(h.segments, uid))).rollbackIndex;
  }

  lemma {:induction false} ReviseSound(w: World, h: Session, e: Event, uid: string, clock: real)
    requires Mid(w, h, e, uid)
    ensures Tracked(w, h.utterances[uid].tracker) && h.utterances[uid].tracker.verdict.Some?
    ensures match Revise(w, h, e, uid, clock)
      case Cut(r) => Sound(w, r) && r.pc.RollingBack?
      case Settled(r) => Sound(w, r) && r.pc == Idle
      case _ => false
  {
    var n := ReviseIs(w, h, e, uid, clock);
    hide Mid, Tracked, Fits, Settle, Sound, Revise, Of, IndexOf;
    if n < |Of(h.segments, uid)| {
      MidCuts(w, h, e, uid, n);
    } else {
      assert Of(h.segments, uid)[..n] == Of(h.segments, uid);
      MidSettles(w, h, e, uid, clock);
    }
  }

  lemma {:induction false} MidCuts(w: World, h: Session, e: Event, uid: string, n: nat)
    requires Mid(w, h, e, uid) && n < |Of(h.segments, uid)| && Fits(Of(h.segments, uid)[..n], e.text)
    ensures Sound(w, RollFor(h, uid, e, IndexOf(h.segments, uid, n)))
  {
    hide Mid, Sound, Fits, Of, IndexOf;
    var index := IndexOf(h.segments, uid, n);
    IndexOfCounts(h.segments, uid, n);
    OfCut(h.segments, index, uid);
    CutSound(w, h, e, uid, index);
  }

  lemma {:induction false} MidSettles(w: World, h: Session, e: Event, uid: string, clock: real)
    requires Mid(w, h, e, uid) && Fits(Of(h.segments, uid), e.text)
    ensures Tracked(w, h.utterances[uid].tracker) && h.utterances[uid].tracker.verdict.Some?
    ensures Sound(w, Settle(w, h, uid, e, clock)) && Settle(w, h, uid, e, clock).pc == Idle
  {
    MidUid(w, h, e, uid);
    MidIsSound(w, h, e, uid);
    hide Mid, Tracked, Settle, Sound, Fits, Followed, Tiles;
    var m := h.(pc := RollingBack(uid, e, {}));
    SettleSound(w, m, clock);
    SettleIgnoresPc(w, h, m, uid, e, clock);
  }

  lemma {:induction false} AwaitingNothing(h: Session, uid: string, e: Event)
    requires Listed(h) && Numbered(h) && RunningIsActive(h) && uid in h.utterances
    ensures var r := h.(pc := RollingBack(uid, e, {}));
      Listed(r) && Numbered(r) && RunningIsActive(r)
  {
  }

  lemma {:induction false} MidIsSound(w: World, h: Session, e: Event, uid: string)
    requires Mid(w, h, e, uid) && Fits(Of(h.segments, uid), e.text)
    ensures Sound(w, h.(pc := RollingBack(uid, e, {})))
  {
    hide Followed, Rested, Updating, Fits, RunningIsActive, Listed, Numbered;
    AwaitingNothing(h, uid, e);
    var r := h.(pc := RollingBack(uid, e, {}));
    forall other | other in r.utterances
      ensures UtteranceOk(w, r, other)
    {
    }
  }

  lemma {:induction false} SettleIgnoresPc(w: World, h: Session, m: Session, uid: string, e: Event, clock: real)
    requires uid in h.utterances && h.utterances[uid].tracker.verdict.Some? && Tracked(w, h.utterances[uid].tracker)
    requires m == h.(pc := m.pc)
    ensures Settle(w, h, uid, e, clock) == Settle(w, m, uid, e, clock)
    ensures Settle(w, h, uid, e, clock).pc == Idle
  {
  }

  /** An event never fails inside the pipeline, and every outcome keeps the invariant. */
  lemma {:induction false} IngestStartSound(w: World, s: Session, e: Event, clock: real)
    requires Sound(w, s) && s.pc == Idle
    ensures forall v :: v in s.utterances ==> Tracked(w, s.utterances[v].tracker)
    ensures match IngestStart(w, s, e, clock)
      case Refused(error, r) => error != PipelineError && Sound(w, r) && r == s.(nextUtterance := r.nextUtterance)
      case Deferred(r) => Sound(w, r) && r.pc == Idle && r.segments == s.segments && !e.final
      case Cut(r) => Sound(w, r) && r.pc.RollingBack?
      case Settled(r) => Sound(w, r) && r.pc == Idle
  {
    hide Listed, Numbered, RunningIsActive, UtteranceOk, Sound, Tracked, Checked, Admissible, Hear;
    AllTracked(w, s);
    var uid := UtteranceId(s, e);
    var s1 := if NeedsNewAuto(s, e) then s.(nextUtterance := s.nextUtterance + 1) else s;
    CounterSound(w, s, s1.nextUtterance);
    if Checked(w, s, e).Some? {
      CheckedWhy(w, s, e);
    } else if Admissible(w, s, e, uid).Some? {
      AdmissibleWhy(w, s, e, uid);
    } else {
      CheckedWhy(w, s, e);
      AdmissibleWhy(w, s, e, uid);
      HearSound(w, s1, e, uid, clock);
    }
  }

  lemma {:induction false} AllTracked(w: World, s: Session)
    requires Sound(w, s)
    ensures w.settings.Valid() && forall v :: v in s.utterances ==> Tracked(w, s.utterances[v].tracker)
  {
    hide Tracked, Prefixed, Tiles, Rested, Updating, Fits;
    forall v | v in s.utterances
      ensures Tracked(w, s.utterances[v].tracker)
    {
      assert UtteranceOk(w, s, v);
    }
  }

  lemma {:induction false} CheckedWhy(w: World, s: Session, e: Event)
    ensures Checked(w, s, e) != Some(PipelineError)
    ensures Checked(w, s, e).None? ==> s.lastSequence < e.sequence && |e.text| <= w.settings.maxSourceChars
  {
  }

  lemma {:induction false} AdmissibleWhy(w: World, s: Session, e: Event, uid: string)
    ensures Admissible(w, s, e, uid) != Some(PipelineError)
    ensures Admissible(w, s, e, uid).None? && uid in s.utterances && s.utterances[uid].final ==> e.final
  {
  }

  lemma {:induction false} CounterSound(w: World, s: Session, n: nat)
    requires Sound(w, s)
    ensures Sound(w, s.(nextUtterance := n))
  {
    var t := s.(nextUtterance := n);
    forall uid | uid in t.utterances
      ensures UtteranceOk(w, t, uid)
    {
      assert UtteranceOk(w, s, uid);
    }
  }

  lemma {:induction false} HearSound(w: World, s: Session, e: Event, uid: string, clock: real)
    requires Sound(w, s) && s.pc == Idle && s.lastSequence < e.sequence && |e.text| <= w.settings.maxSourceChars
    requires uid in s.utterances && s.utterances[uid].final ==> e.final
    requires e.utterance.None? || uid == e.utterance.value
    ensures uid in s.utterances ==> Tracked(w, s.utterances[uid].tracker)
    ensures match Hear(w, s, e, uid, clock)
      case Refused(_, _) => false
      case Deferred(r) => Sound(w, r) && r.pc == Idle && r.segments == s.segments && !e.final
      case Cut(r) => Sound(w, r) && r.pc.RollingBack?
      case Settled(r) => Sound(w, r) && r.pc == Idle
  {
    KnownFollowed(w, s, e, uid);
    var v := Known(s, uid, e);
    ObservedOk(w, v.tracker, e, clock);
    var t := S.Observed(w.settings.stability, w.u, v.tracker, e.text, e.sequence, e.final,
                        e.confidences, e.pauseMs, clock).value;
    if t.verdict.value.conflict && !e.final {
      DeferredSound(w, s, e, uid, t);
    } else {
      HeardMid(w, s, e, uid, t);
      ReviseSound(w, Heard(s, e, uid, t), e, uid, clock);
    }
  }

  /** Once the dropped segments are invalidated the event completes. */
  lemma {:induction false} IngestFinishSound(w: World, s: Session, clock: real)
    requires Sound(w, s) && s.pc.RollingBack?
    ensures s.pc.uid in s.utterances && s.utterances[s.pc.uid].tracker.verdict.Some?
    ensures Tracked(w, s.utterances[s.pc.uid].tracker)
    ensures Sound(w, IngestFinish(w, s, clock)) && IngestFinish(w, s, clock).pc == Idle
  {
    SettleSound(w, s, clock);
    SettleIgnoresPc(w, s, s, s.pc.uid, s.pc.event, clock);
  }
}
