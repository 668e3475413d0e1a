/** Selection, alignment with token boundaries, and whole runs of one session. */
module SessionRuns {
  import opened Wrappers
  import opened Text
  import opened Revision
  import opened Session
  import opened SessionInvariant
  import S = Stability
  import G = Segmentation

  // -------- Replacing one utterance

  lemma {:induction false} PutListed(s: Session, uid: string, v: Utterance)
    requires Listed(s) && Numbered(s) && RunningIsActive(s) && !s.pc.RollingBack? && uid in s.utterances
    ensures var r := s.(utterances := s.utterances[uid := v]);
      Listed(r) && Numbered(r) && RunningIsActive(r)
  {
    assert s.utterances[uid := v].Keys == s.utterances.Keys;
  }

  lemma {:induction false} PutSound(w: World, s: Session, uid: string, v: Utterance)
    requires Sound(w, s) && !s.pc.RollingBack? && uid in s.utterances
    requires Followed(w, v, Of(s.segments, uid), s.lastSequence) && Rested(w, v)
    ensures Sound(w, s.(utterances := s.utterances[uid := v]))
  {
    hide Followed, Rested, Listed, Numbered, RunningIsActive;
    var r := s.(utterances := s.utterances[uid := v]);
    PutListed(s, uid, v);
    forall other | other in r.utterances
      ensures UtteranceOk(w, r, other)
    {
      assert other != uid ==> UtteranceOk(w, s, other);
    }
  }

  // -------- Asking the tracker again

  /** Refreshing never fails, and keeps the utterance's text and segments. */
  lemma {:induction false} RestabilisedOk(w: World, x: Weather, v: Utterance, uid: string, segments: seq<Segment>,
                                          last: int)
    requires w.settings.Valid() && Followed(w, v, segments, last) && Rested(w, v)
    ensures var r := Restabilised(w, x, v, uid);
      && r.Ok? && Followed(w, r.value, segments, last) && Rested(w, r.value)
      && r.value.text == v.text && r.value.selectedEnd == v.selectedEnd && v.stableEnd <= r.value.stableEnd
      && r.value.final == v.final && r.value.reported == v.reported && r.value.speaker == v.speaker
      && r.value.revision == v.revision
  {
    var t := S.Refreshed(w.settings.stability, w.u, v.tracker, x.clock(uid));
    S.VerdictReach(w.settings.stability, w.u, t.e, t.lastTime.value);
    if !t.verdict.value.conflict {
      S.CommitSucceeds(w.settings.stability, w.u, t, v.final, x.clock(uid));
      S.BoundaryInside(w.u, v.text, t.verdict.value.stableEnd);
      var c := S.Committed(w.settings.stability, w.u, t, t.verdict.value.stableEnd, v.final, x.clock(uid)).value;
      assert c.e.committed == v.text[..t.verdict.value.stableEnd];
    }
  }

  // -------- Appending a segment

  lemma {:induction false} AppendedListed(s: Session, uid: string, v: Utterance, c: G.Candidate)
    requires Listed(s) && Numbered(s) && RunningIsActive(s) && !s.pc.RollingBack? && uid in s.utterances
    ensures var r := Appended(s, uid, v, c);
      Listed(r) && Numbered(r) && RunningIsActive(r)
  {
    var r := Appended(s, uid, v, c);
    var g := Selects(s, uid, v, c);
    assert r.utterances.Keys == s.utterances.Keys;
    forall h | h in r.segments
      ensures h == g || h in s.segments
    {
    }
    if s.active.Some? {
      var h :| h in s.segments && h.id == s.active.value;
      assert h in r.segments;
    }
    assert forall i :: 0 <= i < |s.segments| ==> s.segments[i] in s.segments;
  }

  lemma {:induction false} OfOne(g: Segment, uid: string)
    ensures Of([g], uid) == if g.uid == uid then [g] else []
  {
    assert [g][1..] == [];
  }

  lemma {:induction false} AppendedSound(w: World, s: Session, uid: string, v: Utterance, c: G.Candidate)
    requires Sound(w, s) && !s.pc.RollingBack? && uid in s.utterances && v == s.utterances[uid]
    requires v.selectedEnd == c.start < c.end <= v.stableEnd <= |v.text| && c.text == v.text[c.start..c.end]
    ensures Sound(w, Appended(s, uid, v, c))
    ensures Of(Appended(s, uid, v, c).segments, uid) == Of(s.segments, uid) + [Selects(s, uid, v, c)]
    ensures forall other :: other != uid ==> Of(Appended(s, uid, v, c).segments, other) == Of(s.segments, other)
  {
    hide Listed, Numbered, RunningIsActive, Tracked, Prefixed, Rested, Tiles;
    var g, r := Selects(s, uid, v, c), Appended(s, uid, v, c);
    AppendedListed(s, uid, v, c);
    forall other
      ensures Of(r.segments, other) == if other == uid then Of(s.segments, other) + [g] else Of(s.segments, other)
    {
      OfAppend(s.segments, [g], other);
      OfOne(g, other);
    }
    forall other | other in r.utterances
      ensures UtteranceOk(w, r, other)
    {
      assert UtteranceOk(w, s, other);
      if other == uid {
        TilesAppend(Of(s.segments, uid), v.text, 0, v.selectedEnd, g);
        SelectedEndOnly(w, v, c.end);
      }
    }
  }

  lemma {:induction false} SelectedEndOnly(w: World, v: Utterance, end: nat)
    ensures Prefixed(w, v.(selectedEnd := end)) <==> Prefixed(w, v)
    ensures Rested(w, v.(selectedEnd := end)) <==> Rested(w, v)
  {
  }

  // -------- Alignment

  /** What has been selected lies in the protected prefix and every segment ends on a token. */
  ghost predicate Aligned(w: World, v: Utterance, segments: seq<Segment>) {
    && v.selectedEnd <= v.stableEnd && Boundary(w.u, v.text, v.selectedEnd)
    && forall i :: 0 <= i < |segments| ==> Boundary(w.u, v.text, segments[i].end)
  }

  ghost predicate AllAligned(w: World, s: Session) {
    forall uid :: uid in s.utterances ==> Aligned(w, s.utterances[uid], Of(s.segments, uid))
  }

  /** An aligned utterance always gives a well-formed query. */
  lemma {:induction false} AlignedQuery(w: World, s: Session, v: Utterance, segments: seq<Segment>)
    requires w.settings.Valid() && Prefixed(w, v)
    ensures v.selectedEnd <= v.stableEnd && G.OnBoundary(w.u, v.text, v.selectedEnd)
            <==> G.Segmented(w.u, w.g, QueryFor(w, s, v)).Ok?
  {
  }

  lemma {:induction false} AppendedAligned(w: World, s: Session, uid: string, v: Utterance, c: G.Candidate)
    requires Sound(w, s) && !s.pc.RollingBack? && uid in s.utterances && v == s.utterances[uid] && AllAligned(w, s)
    requires v.selectedEnd == c.start < c.end <= v.stableEnd <= |v.text| && c.text == v.text[c.start..c.end]
    requires Boundary(w.u, v.text, c.end)
    ensures AllAligned(w, Appended(s, uid, v, c))
  {
    hide Sound, Boundary;
    AppendedSound(w, s, uid, v, c);
    var r := Appended(s, uid, v, c);
    forall other | other in r.utterances
      ensures Aligned(w, r.utterances[other], Of(r.segments, other))
    {
      assert Aligned(w, s.utterances[other], Of(s.segments, other));
    }
  }

  lemma {:induction false} SelectsExactly(w: World, x: Weather, s: Session, uid: string, conflict: bool)
    requires uid in s.utterances && Choice(w, x, s, uid, conflict).Some?
    ensures var v, c := s.utterances[uid], Choice(w, x, s, uid, conflict).value;
      && v.selectedEnd == c.start < c.end <= v.stableEnd <= |v.text| && c.text == v.text[c.start..c.end]
      && Boundary(w.u, v.text, c.end)
  {
    G.SegmentReach(w.u, w.g, QueryFor(w, s, s.utterances[uid]));
  }

  lemma {:induction false} PutAligned(w: World, s: Session, uid: string, v: Utterance)
    requires uid in s.utterances && AllAligned(w, s) && Aligned(w, v, Of(s.segments, uid))
    ensures AllAligned(w, s.(utterances := s.utterances[uid := v]))
  {
    hide Boundary, Aligned;
    forall other | other in s.utterances && other != uid
      ensures Aligned(w, s.utterances[other], Of(s.segments, other))
    {
    }
  }

  /** Marking an utterance reported changes nothing else. */
  lemma {:induction false} ReportedSound(w: World, s: Session, uid: string)
    requires Sound(w, s) && !s.pc.RollingBack? && uid in s.utterances
    ensures Sound(w, Reported(s, uid))
    ensures AllAligned(w, s) ==> AllAligned(w, Reported(s, uid))
  {
    var v := s.utterances[uid];
    assert UtteranceOk(w, s, uid);
    hide Sound, Boundary, AllAligned, UtteranceOk, Tracked, Tiles, S.Protects;
    PutSound(w, s, uid, v.(reported := true));
    if AllAligned(w, s) {
      assert Aligned(w, v, Of(s.segments, uid)) by { AlignedAt(w, s, uid); }
      PutAligned(w, s, uid, v.(reported := true));
    }
  }

  lemma {:induction false} AlignedAt(w: World, s: Session, uid: string)
    requires AllAligned(w, s) && uid in s.utterances
    ensures Aligned(w, s.utterances[uid], Of(s.segments, uid))
  {
  }

  /** Selection keeps the invariant. It terminates because each selection grows what is
      selected; an aligned session stays aligned, and then nothing raises. */
  lemma {:induction false} SelectLoopSound(w: World, x: Weather, s: Session, uid: string, conflict: bool)
    requires Sound(w, s) && !s.pc.RollingBack? && uid in s.utterances
    ensures var r := SelectLoop(w, x, s, uid, conflict);
      && Sound(w, r.0) && r.0.pc == s.pc && r.0.utterances.Keys == s.utterances.Keys
      && (AllAligned(w, s) ==> AllAligned(w, r.0) && r.1 != Raised)
    decreases |s.utterances[uid].text| - s.utterances[uid].selectedEnd
  {
    hide Sound, AllAligned, Choice, Appended, SelectLoop;
    var v, c := s.utterances[uid], Choice(w, x, s, uid, conflict);
    LoopUnfolds(w, x, s, uid, conflict);
    if c.Some? {
      SelectsExactly(w, x, s, uid, conflict);
      AppendedSound(w, s, uid, v, c.value);
      if AllAligned(w, s) {
        AppendedAligned(w, s, uid, v, c.value);
      }
      AppendedGrows(s, uid, v, c.value);
      SelectLoopSound(w, x, Appended(s, uid, v, c.value), uid, conflict);
    }
    ReportedSound(w, s, uid);
    ReportedKeys(s, uid);
    if AllAligned(w, s) {
      NothingRaised(w, s, uid);
    }
  }

  /** One turn of the loop: it ends here, or goes on after one more segment. */
  lemma {:induction false} LoopUnfolds(w: World, x: Weather, s: Session, uid: string, conflict: bool)
    requires uid in s.utterances
    ensures var r, v, c := SelectLoop(w, x, s, uid, conflict), s.utterances[uid], Choice(w, x, s, uid, conflict);
      || (r.0 == s && r.1 != Raised)
      || (r == (s, Raised) && G.Segmented(w.u, w.g, QueryFor(w, s, v)).Err?)
      || r == (Reported(s, uid), Carry)
      || (c.Some? && r == SelectLoop(w, x, Appended(s, uid, v, c.value), uid, conflict))
  {
    hide HasContent, Blocked, Choice, Appended, Reported, QueryFor, G.Segmented;
  }

  lemma {:induction false} AppendedGrows(s: Session, uid: string, v: Utterance, c: G.Candidate)
    requires uid in s.utterances
    ensures var n := Appended(s, uid, v, c);
      n.pc == s.pc && n.utterances.Keys == s.utterances.Keys && n.utterances[uid].text == v.text
      && n.utterances[uid].selectedEnd == c.end
  {
  }

  lemma {:induction false} ReportedKeys(s: Session, uid: string)
    requires uid in s.utterances
    ensures Reported(s, uid).pc == s.pc && Reported(s, uid).utterances.Keys == s.utterances.Keys
  {
  }

  lemma {:induction false} NothingRaised(w: World, s: Session, uid: string)
    requires Sound(w, s) && AllAligned(w, s) && uid in s.utterances
    ensures G.Segmented(w.u, w.g, QueryFor(w, s, s.utterances[uid])).Ok?
  {
    assert UtteranceOk(w, s, uid);
    AlignedQuery(w, s, s.utterances[uid], Of(s.segments, uid));
  }

  // -------- Evaluation

  lemma {:induction false} SelectUtteranceSound(w: World, x: Weather, s: Session, uid: string)
    requires Sound(w, s) && !s.pc.RollingBack? && uid in s.utterances && Selectable(w, s)
    ensures var r := SelectUtterance(w, x, s, uid);
      && Sound(w, r.0) && r.0.pc == s.pc && (AllAligned(w, s) ==> AllAligned(w, r.0) && r.1 != Raised)
  {
    var v := s.utterances[uid];
    assert UtteranceOk(w, s, uid);
    RestabilisedOk(w, x, v, uid, Of(s.segments, uid), s.lastSequence);
    hide Sound, AllAligned, SelectLoop, Followed, Rested, Restabilised;
    var v1 := Restabilised(w, x, v, uid).value;
    PutSound(w, s, uid, v1);
    if AllAligned(w, s) {
      AlignedAt(w, s, uid);
      PutAligned(w, s, uid, v1);
    }
    var conflict := S.Refreshed(w.settings.stability, w.u, v.tracker, x.clock(uid)).verdict.value.conflict;
    SelectLoopSound(w, x, s.(utterances := s.utterances[uid := v1]), uid, conflict);
  }

  lemma {:induction false} SoundIsSelectable(w: World, s: Session)
    requires Sound(w, s)
    ensures Selectable(w, s)
  {
    AllTracked(w, s);
  }

  lemma {:induction false} SweepSound(w: World, x: Weather, s: Session, k: nat)
    requires Sound(w, s) && !s.pc.RollingBack? && k <= |s.order| && Selectable(w, s)
    ensures var r := Sweep(w, x, s, k);
      && Sound(w, r.0) && r.0.pc == s.pc && (AllAligned(w, s) ==> AllAligned(w, r.0) && r.1 != Raised)
    decreases |s.order| - k
  {
    hide Sound, AllAligned, SelectUtterance, Pending;
    if k < |s.order| {
      if !Pending(w, s, s.order[k]) {
        SweepSound(w, x, s, k + 1);
      } else {
        SelectUtteranceSound(w, x, s, s.order[k]);
        var r := SelectUtterance(w, x, s, s.order[k]);
        if r.1 == Carry {
          SweepSound(w, x, r.0, k + 1);
        }
      }
    }
  }

  lemma {:induction false} PcSound(w: World, s: Session, pc: Pc)
    requires Sound(w, s) && !s.pc.RollingBack? && !pc.RollingBack?
    ensures Sound(w, s.(pc := pc))
  {
    ShapeSame(s.segments);
    assert RunningIsActive(s.(pc := pc));
    hide Listed, Numbered, RunningIsActive, SameShape, UtteranceOk;
    ShapeSound(w, s, s.(pc := pc));
  }

  /** A timer keeps the invariant; in an aligned session it never fails, and it leaves the
      session aligned and about to dispatch unless the timer is out of date. */
  lemma {:induction false} EvaluateSound(w: World, x: Weather, s: Session, uid: string, generation: nat)
    requires Sound(w, s) && s.pc == Idle
    ensures Selectable(w, s)
    ensures var r := Evaluate(w, x, s, uid, generation);
      && Sound(w, r) && r.pc in {Idle, Dispatching}
      && (AllAligned(w, s) ==>
            AllAligned(w, r)
            && (!s.closed && generation == s.generation && uid in s.utterances ==> r.pc == Dispatching))
  {
    SoundIsSelectable(w, s);
    SweepSound(w, x, s, 0);
    hide Sound, Sweep, AllAligned, Selectable;
    SweptSound(w, s, Sweep(w, x, s, 0).0);
  }

  lemma {:induction false} SweptSound(w: World, s: Session, r: Session)
    requires Sound(w, r) && r.pc == Idle
    ensures Sound(w, r.(pc := Dispatching)) && (AllAligned(w, r) ==> AllAligned(w, r.(pc := Dispatching)))
  {
    hide Sound, AllAligned;
    PcSound(w, r, Dispatching);
    if AllAligned(w, r) { PcAligned(w, r, Dispatching); }
  }

  lemma {:induction false} PcAligned(w: World, s: Session, pc: Pc)
    requires AllAligned(w, s)
    ensures AllAligned(w, s.(pc := pc))
  {
    hide Aligned;
  }

  // -------- Events that respect the protected prefix

  /** The event's text drops or splits what its utterance already protects. */
  ghost predicate Contradicts(w: World, s: Session, e: Event) {
    var uid := UtteranceId(s, e);
    uid in s.utterances
    && var p := s.utterances[uid].tracker.e.committed;
      !(p <= e.text && Boundary(w.u, e.text, |p|))
  }

  /** One utterance: no segment is dropped, and alignment carries over to the new text. */
  lemma {:induction false} RevisedAligned(w: World, v: Utterance, e: Event, segments: seq<Segment>)
    requires w.settings.Valid() && Tracked(w, v.tracker) && v.tracker.verdict.Some?
    requires Prefixed(w, v) && Tiles(segments, v.text, 0, v.selectedEnd) && Aligned(w, v, segments)
    requires v.tracker.e.text == e.text && !v.tracker.verdict.value.conflict
    ensures Planned(w.u, v.text, e.text, Spans(segments)).Plan?
    ensures Planned(w.u, v.text, e.text, Spans(segments)).rollbackIndex == |segments|
    ensures Aligned(w, Retexted(v, e, v.tracker), segments)
  {
    var t, p := v.tracker, v.stableEnd;
    S.VerdictReach(w.settings.stability, w.u, t.e, t.lastTime.value);
    assert Agree(v.text, e.text, p) by {
      assert e.text[..p] == t.e.committed;
    }
    TilesInOrder(segments, v.text, 0, v.selectedEnd);
    TilesBounds(segments, v.text, 0, v.selectedEnd);
    ProtectedSpansSurvive(w.u, v.text, e.text, Spans(segments), p);
    PrefixStable(w.u, v.text, e.text, p);
  }

  lemma {:induction false} KnownAligned(w: World, s: Session, e: Event, uid: string)
    requires Sound(w, s) && !s.pc.RollingBack? && AllAligned(w, s)
    ensures Aligned(w, Known(s, uid, e), Of(s.segments, uid))
  {
    if uid !in s.utterances {
      OfNone(s.segments, uid);
    }
  }

  lemma {:induction false} ShapeAligned(w: World, v: Utterance, a: seq<Segment>, b: seq<Segment>, uid: string)
    requires Aligned(w, v, Of(a, uid)) && SameShape(a, b)
    ensures Aligned(w, v, Of(b, uid))
  {
    hide Boundary;
    ShapeOf(a, b, uid);
  }

  /** Settling one utterance of a heard event leaves every other aligned. */
  lemma {:induction false} SettledAligned(w: World, s: Session, r: Session, e: Event, uid: string, v: Utterance)
    requires AllAligned(w, s) && SameShape(s.segments, r.segments)
    requires forall other :: other in r.utterances && other != uid ==>
               other in s.utterances && r.utterances[other] == s.utterances[other]
    requires uid in r.utterances ==> r.utterances[uid] == v
    requires Aligned(w, v, Of(s.segments, uid))
    ensures AllAligned(w, r)
  {
    hide Aligned, SameShape;
    forall other | other in r.utterances
      ensures Aligned(w, r.utterances[other], Of(r.segments, other))
    {
      ShapeAligned(w, r.utterances[other], s.segments, r.segments, other);
    }
  }

  ghost function Judgement(w: World, v: Utterance, e: Event, clock: real): Result<S.Tracker, S.Error>
    requires Tracked(w, v.tracker)
  {
    S.Observed(w.settings.stability, w.u, v.tracker, e.text, e.sequence, e.final, e.confidences, e.pauseMs, clock)
  }

  /** Observing `e` yields `t`, committing yields `c`, and no segment is dropped. */
  ghost predicate Smooth(w: World, v: Utterance, e: Event, segments: seq<Segment>, clock: real,
                         t: S.Tracker, c: S.Tracker) {
    && w.settings.Valid() && Tracked(w, v.tracker) && Judgement(w, v, e, clock) == Ok(t)
    && Tracked(w, t) && t.verdict.Some? && !t.verdict.value.conflict
    && S.Committed(w.settings.stability, w.u, t, t.verdict.value.stableEnd, e.final, clock) == Ok(c)
    && var plan := Planned(w.u, v.text, e.text, Spans(segments));
      plan.Plan? && plan.rollbackIndex == |segments|
  }

  lemma {:induction false} ObservedAligned(w: World, v: Utterance, e: Event, segments: seq<Segment>, clock: real)
      returns (t: S.Tracker, c: S.Tracker)
    requires w.settings.Valid() && Tracked(w, v.tracker) && v.tracker.sequence < e.sequence
    requires |e.text| <= w.settings.maxSourceChars && S.Protects(w.u, v.tracker.e.(text := e.text))
    requires Prefixed(w, v) && Tiles(segments, v.text, 0, v.selectedEnd) && Aligned(w, v, segments)
    ensures t.verdict.Some? && Smooth(w, v, e, segments, clock, t, c)
    ensures Aligned(w, Retexted(v, e, t).(tracker := c), segments)
  {
    ObservedOk(w, v.tracker, e, clock);
    t := Judgement(w, v, e, clock).value;
    RevisedAligned(w, v.(tracker := t), e, segments);
    S.CommitSucceeds(w.settings.stability, w.u, t, e.final, clock);
    c := S.Committed(w.settings.stability, w.u, t, t.verdict.value.stableEnd, e.final, clock).value;
  }

  lemma {:induction false} HearIs(w: World, s: Session, e: Event, uid: string, clock: real, t: S.Tracker, c: S.Tracker)
    requires t.verdict.Some? && Smooth(w, Known(s, uid, e), e, Of(s.segments, uid), clock, t, c)
    ensures w.settings.Valid() && (uid in s.utterances ==> Tracked(w, s.utterances[uid].tracker))
    ensures var h, v := Heard(s, e, uid, t), Known(s, uid, e);
      && Tracked(w, h.utterances[uid].tracker)
      && var r := Settle(w, h, uid, e, clock);
      && Hear(w, s, e, uid, clock) == Settled(r)
      && r.segments in {s.segments, Retried(s.segments, uid)}
      && r.utterances == s.utterances[uid := Retexted(v, e, t).(tracker := c)]
  {
    hide Tracked, S.Judged, S.Observed, S.Committed, Planned, Retried, Of, Settle;
    SettleIs(w, Heard(s, e, uid, t), uid, e, clock, c);
  }

  lemma {:induction false} HearUncontradicted(w: World, s: Session, e: Event, uid: string, clock: real)
    requires Sound(w, s) && s.pc == Idle && AllAligned(w, s)
    requires s.lastSequence < e.sequence && |e.text| <= w.settings.maxSourceChars
    requires S.Protects(w.u, Known(s, uid, e).tracker.e.(text := e.text))
    ensures w.settings.Valid() && (uid in s.utterances ==> Tracked(w, s.utterances[uid].tracker))
    ensures match Hear(w, s, e, uid, clock)
      case Settled(r) => SameShape(s.segments, r.segments) && AllAligned(w, r)
      case _ => false
  {
    hide Sound, AllAligned, Aligned, Prefixed, Tiles, Tracked, S.Protects, SameShape, Hear, Settle, Smooth;
    SoundValid(w, s);
    KnownFollowed(w, s, e, uid);
    KnownAligned(w, s, e, uid);
    var t, c := ObservedAligned(w, Known(s, uid, e), e, Of(s.segments, uid), clock);
    HearIs(w, s, e, uid, clock, t, c);
    RetriedShape(s.segments, uid);
    ShapeSame(s.segments);
    SettledAligned(w, s, Settle(w, Heard(s, e, uid, t), uid, e, clock), e, uid,
                   Retexted(Known(s, uid, e), e, t).(tracker := c));
  }

  lemma {:induction false} SoundValid(w: World, s: Session)
    requires Sound(w, s)
    ensures w.settings.Valid()
  {
  }

  /** An accepted event that respects the protected prefix drops no segment, and every
      selected and stable end stays an exact token boundary of the new text. */
  lemma {:induction false} UncontradictedEvent(w: World, s: Session, e: Event, clock: real)
    requires Sound(w, s) && s.pc == Idle && AllAligned(w, s) && !Contradicts(w, s, e)
    ensures forall v :: v in s.utterances ==> Tracked(w, s.utterances[v].tracker)
    ensures match IngestStart(w, s, e, clock)
      case Refused(error, r) => error != PipelineError && AllAligned(w, r)
      case Settled(r) => SameShape(s.segments, r.segments) && AllAligned(w, r)
      case _ => false
  {
    hide Sound, Checked, Admissible, Hear, AllAligned, SameShape, Tracked, Boundary;
    AllTracked(w, s);
    var uid := UtteranceId(s, e);
    var s1 := if NeedsNewAuto(s, e) then s.(nextUtterance := s.nextUtterance + 1) else s;
    CounterSound(w, s, s1.nextUtterance);
    CounterAligned(w, s, s1.nextUtterance);
    CheckedWhy(w, s, e);
    AdmissibleWhy(w, s, e, uid);
    if Checked(w, s, e).None? && Admissible(w, s, e, uid).None? {
      UncontradictedProtects(w, s1, e, uid);
      HearUncontradicted(w, s1, e, uid, clock);
    }
  }

  lemma {:induction false} UncontradictedProtects(w: World, s: Session, e: Event, uid: string)
    requires uid in s.utterances ==>
      var p := s.utterances[uid].tracker.e.committed; p <= e.text && Boundary(w.u, e.text, |p|)
    ensures S.Protects(w.u, Known(s, uid, e).tracker.e.(text := e.text))
  {
  }

  lemma {:induction false} CounterAligned(w: World, s: Session, n: nat)
    requires AllAligned(w, s)
    ensures AllAligned(w, s.(nextUtterance := n))
  {
    hide Aligned;
  }

  // -------- A final that contradicts the protected prefix

  /** The session once the rollback an event started is over. */
  ghost function Finished(w: World, i: Ingested, later: real): Session
    requires i.Cut? ==> Resumable(w, i.state)
  {
    if i.Cut? then IngestFinish(w, i.state, later) else i.state
  }

  /** The session once an event and any rollback it needs are over. */
  ghost function AfterEvent(w: World, s: Session, e: Event, clock: real, later: real): Session
    requires Sound(w, s) && s.pc == Idle
  {
    AllTracked(w, s);
    IngestStartSound(w, s, e, clock);
    var i := IngestStart(w, s, e, clock);
    if i.Cut? then IngestFinishSound(w, i.state, later); Finished(w, i, later) else i.state
  }

  /** How many of the utterance's segments the event keeps. */
  ghost function Kept(w: World, s: Session, e: Event): nat {
    var uid := UtteranceId(s, e);
    var plan := Planned(w.u, Known(s, uid, e).text, e.text, Spans(Of(s.segments, uid)));
    if plan.Plan? then plan.rollbackIndex else 0
  }

  lemma {:induction false} LastTokenEnds(u: Unicode, text: string, p: int)
    requires Boundary(u, text, p)
    ensures p <= S.CharEnd(Tokens(u, text), |Tokens(u, text)|)
  {
    var ts := Tokens(u, text);
    TokensOrdered(u, text, 0);
    if EndsAt(ts, p) {
      var i :| 0 <= i < |ts| && ts[i].end == p;
      if i < |ts| - 1 { assert ts[i].end <= ts[|ts| - 1].start; }
    }
  }

  lemma {:induction false} TilesEnd(segments: seq<Segment>, text: string, to: int)
    requires Tiles(segments, text, 0, to)
    ensures to == if segments == [] then 0 else segments[|segments| - 1].end
  {
    TilesBounds(segments, text, 0, to);
  }

  /** A shorter share of an aligned utterance is aligned. */
  lemma {:induction false} RolledAligned(w: World, v: Utterance, r: Utterance, all: seq<Segment>, kept: seq<Segment>)
    requires Tiles(all, v.text, 0, v.selectedEnd) && Aligned(w, v, all)
    requires kept <= all && Tiles(kept, v.text, 0, r.selectedEnd)
    requires SameText(v, r) && r.selectedEnd <= v.selectedEnd
    ensures Aligned(w, r, kept)
  {
    TilesEnd(kept, v.text, r.selectedEnd);
    forall i | 0 <= i < |kept|
      ensures Boundary(w.u, r.text, kept[i].end)
    {
      assert kept[i] == all[i];
    }
  }

  lemma {:induction false} FinalReach(w: World, t: S.Tracker)
    requires Tracked(w, t) && t.verdict.Some? && t.e.final
    ensures t.verdict.value.stableEnd == S.CharEnd(Tokens(w.u, t.e.text), |Tokens(w.u, t.e.text)|)
  {
    S.VerdictReach(w.settings.stability, w.u, t.e, t.lastTime.value);
    S.VerdictEvidence(w.settings.stability, w.u, t.e, t.lastTime.value);
  }

  lemma {:induction false} ChangedText(w: World, v: Utterance, e: Event)
    requires Prefixed(w, v) && !S.Protects(w.u, v.tracker.e.(text := e.text))
    ensures v.text != e.text
  {
  }

  lemma {:induction false} AlignedEnds(w: World, v: Utterance, segments: seq<Segment>)
    requires Aligned(w, v, segments)
    ensures forall i :: 0 <= i < |segments| ==> Boundary(w.u, v.text, segments[i].end)
  {
  }

  /** Once everything up to the last token is stable, alignment is about segment ends. */
  lemma {:induction false} AlignedByEnds(w: World, r: Utterance, kept: seq<Segment>)
    requires r.selectedEnd == if kept == [] then 0 else kept[|kept| - 1].end
    requires r.stableEnd == S.CharEnd(Tokens(w.u, r.text), |Tokens(w.u, r.text)|)
    ensures Aligned(w, r, kept) <==> forall i :: 0 <= i < |kept| ==> Boundary(w.u, r.text, kept[i].end)
  {
    if kept != [] && Boundary(w.u, r.text, r.selectedEnd) {
      LastTokenEnds(w.u, r.text, r.selectedEnd);
    }
  }

  /** What a contradicting final leaves of its own utterance. */
  lemma {:induction false} FinalAlignedIff(w: World, v: Utterance, r: Utterance, e: Event, mine: seq<Segment>, n: nat,
                                           kept: seq<Segment>)
    requires Prefixed(w, v) && Tiles(mine, v.text, 0, v.selectedEnd) && Aligned(w, v, mine)
    requires !S.Protects(w.u, v.tracker.e.(text := e.text))
    requires n <= |mine| && kept == mine[..n] && Tiles(kept, v.text, 0, r.selectedEnd) && r.text == e.text
    requires Planned(w.u, v.text, e.text, Spans(mine)).Plan?
    requires n == Planned(w.u, v.text, e.text, Spans(mine)).rollbackIndex
    requires r.stableEnd == S.CharEnd(Tokens(w.u, e.text), |Tokens(w.u, e.text)|)
    ensures Aligned(w, r, kept)
            <==> n == 0 || !Swallowed(w.u, e.text, mine[n - 1].end, Lcp(v.text, e.text, 0))
  {
    hide S.Protects, Prefixed, Swallowed, Planned, Boundary, Tiles, Tokens, Lcp, InOrder, Aligned;
    ChangedText(w, v, e);
    TilesEnd(kept, v.text, r.selectedEnd);
    AlignedByEnds(w, r, kept);
    TilesInOrder(mine, v.text, 0, v.selectedEnd);
    TilesBounds(mine, v.text, 0, v.selectedEnd);
    if n > 0 {
      AlignedEnds(w, v, mine);
      KeptEndsAlignedIff(w.u, v.text, e.text, Spans(mine));
      assert forall i :: 0 <= i < n ==> kept[i].end == Spans(mine)[i].end;
    }
  }

  lemma {:induction false} RollAligned(w: World, h: Session, uid: string, e: Event, index: nat, other: string)
    requires index <= |h.segments| && other in h.utterances
    requires Tiles(Of(h.segments, other), h.utterances[other].text, 0, h.utterances[other].selectedEnd)
    requires Aligned(w, h.utterances[other], Of(h.segments, other))
    ensures Aligned(w, RollFor(h, uid, e, index).utterances[other], Of(RollFor(h, uid, e, index).segments, other))
  {
    hide Boundary, Aligned, Tiles;
    RolledTiles(h, index, other, h.utterances[other]);
    RolledAligned(w, h.utterances[other], RollFor(h, uid, e, index).utterances[other],
                  Of(h.segments, other), Of(h.segments[..index], other));
  }

  /** Every revision is a cut at some position, possibly the end, and then a settlement. */
  lemma {:induction false} ReviseRolls(w: World, h: Session, e: Event, uid: string, clock: real, later: real)
      returns (index: nat, at: real)
    requires Mid(w, h, e, uid)
    ensures Tracked(w, h.utterances[uid].tracker) && h.utterances[uid].tracker.verdict.Some?
    ensures index <= |h.segments|
    ensures var plan := Planned(w.u, h.utterances[uid].text, e.text, Spans(Of(h.segments, uid)));
      plan.Plan? && plan.rollbackIndex <= |Of(h.segments, uid)|
      && Of(h.segments[..index], uid) == Of(h.segments, uid)[..plan.rollbackIndex]
    ensures var m := RollFor(h, uid, e, index);
      && Sound(w, m) && m.utterances[uid].tracker == h.utterances[uid].tracker
      && var i := Revise(w, h, e, uid, clock);
      && !i.Refused? && (i.Cut? ==> i.state == m)
      && Finished(w, i, later) == Settle(w, m, uid, e, at)
  {
    hide Sound, Tiles, Tracked, Planned, S.Committed, Fits, Mid, Followed, Settle;
    MidUid(w, h, e, uid);
    var v, mine := h.utterances[uid], Of(h.segments, uid);
    PlanFits(w, v, mine, e.text);
    var plan := Planned(w.u, v.text, e.text, Spans(mine));
    if plan.rollbackIndex < |mine| {
      index, at := IndexOf(h.segments, uid, plan.rollbackIndex), later;
      IndexOfCounts(h.segments, uid, plan.rollbackIndex);
      OfCut(h.segments, index, uid);
    } else {
      index, at := |h.segments|, clock;
      assert h.segments[..index] == h.segments && h.segments[index..] == [];
      assert mine[..plan.rollbackIndex] == mine;
      assert RollFor(h, uid, e, index) == h.(pc := RollFor(h, uid, e, index).pc);
      SettleIgnoresPc(w, h, RollFor(h, uid, e, index), uid, e, clock);
    }
    CutSound(w, h, e, uid, index);
    CutUtterance(w, h, uid, e, index, uid);
  }

  /** What settling leaves of one utterance. */
  lemma {:induction false} SettledUid(w: World, m: Session, uid: string, e: Event, at: real)
      returns (c: S.Tracker)
    requires Sound(w, m) && m.pc.RollingBack? && m.pc.uid == uid && m.pc.event == e
    ensures uid in m.utterances && Tracked(w, m.utterances[uid].tracker) && m.utterances[uid].tracker.verdict.Some?
    ensures var r, v := Settle(w, m, uid, e, at), m.utterances[uid];
      && r.utterances == m.utterances[uid := Retexted(v, e, v.tracker).(tracker := c)]
      && SameShape(m.segments, r.segments)
  {
    assert UtteranceOk(w, m, uid);
    var t := m.utterances[uid].tracker;
    SettledUtterance(w, m.utterances[uid], e, Of(m.segments, uid), m.lastSequence, at);
    hide Tracked, S.Committed, SameShape;
    c := S.Committed(w.settings.stability, w.u, t, t.verdict.value.stableEnd, e.final, at).value;
    SettleIs(w, m, uid, e, at, c);
    RetriedShape(m.segments, uid);
    ShapeSame(m.segments);
  }

  lemma {:induction false} ShapeAlignedIff(w: World, v: Utterance, a: seq<Segment>, b: seq<Segment>, uid: string)
    requires SameShape(a, b)
    ensures Aligned(w, v, Of(a, uid)) <==> Aligned(w, v, Of(b, uid))
  {
    hide Boundary;
    ShapeOf(a, b, uid);
  }

  ghost function Counted(s: Session, e: Event): Session {
    if NeedsNewAuto(s, e) then s.(nextUtterance := s.nextUtterance + 1) else s
  }

  lemma {:induction false} HeardIsRevised(w: World, s: Session, e: Event, uid: string, clock: real, t: S.Tracker)
    requires w.settings.Valid() && Tracked(w, Known(s, uid, e).tracker)
    requires forall v :: v in s.utterances ==> Tracked(w, s.utterances[v].tracker)
    requires uid == UtteranceId(s, e) && Checked(w, s, e).None? && Admissible(w, s, e, uid).None?
    requires Judgement(w, Known(s, uid, e), e, clock) == Ok(t) && t.verdict.Some? && Tracked(w, t)
    requires t.verdict.value.conflict ==> e.final
    ensures IngestStart(w, s, e, clock) == Revise(w, Heard(Counted(s, e), e, uid, t), e, uid, clock)
  {
    hide Checked, Admissible, Revise, Tracked, S.Observed;
  }

  /** The session after hearing a final and cutting the list at `index`. */
  ghost function CutAt(s: Session, e: Event, uid: string, t: S.Tracker, index: nat): Session
    requires index <= |s.segments|
  {
    RollFor(Heard(Counted(s, e), e, uid, t), uid, e, index)
  }

  lemma {:induction false} CutAtPc(s: Session, e: Event, uid: string, t: S.Tracker, index: nat)
    requires index <= |s.segments| && uid in s.utterances
    ensures var m := CutAt(s, e, uid, t, index);
      && m.pc.RollingBack? && m.pc.uid == uid && m.pc.event == e && m.segments == s.segments[..index]
      && m.utterances.Keys == s.utterances.Keys
  {
  }

  /** The event is heard; what is left is to cut and settle. */
  lemma {:induction false} AfterHeard(w: World, s: Session, e: Event, uid: string, clock: real, later: real)
      returns (t: S.Tracker, index: nat, at: real)
    requires Sound(w, s) && s.pc == Idle && uid == UtteranceId(s, e)
    requires e.final || S.Protects(w.u, Known(s, uid, e).tracker.e.(text := e.text))
    requires Checked(w, s, e).None? && Admissible(w, s, e, uid).None?
    ensures Tracked(w, t) && t.e.final == e.final && t.e.text == e.text && t.sequence == e.sequence
    ensures Tracked(w, Known(s, uid, e).tracker) && Judgement(w, Known(s, uid, e), e, clock) == Ok(t)
    ensures Mid(w, Heard(Counted(s, e), e, uid, t), e, uid)
    ensures index <= |s.segments| && t.verdict.Some?
    ensures var plan := Planned(w.u, Known(s, uid, e).text, e.text, Spans(Of(s.segments, uid)));
      plan.Plan? && plan.rollbackIndex <= |Of(s.segments, uid)|
      && Of(s.segments[..index], uid) == Of(s.segments, uid)[..plan.rollbackIndex]
    ensures var m := CutAt(s, e, uid, t, index);
      && Sound(w, m) && uid in m.utterances && m.utterances[uid].tracker == t
      && AfterEvent(w, s, e, clock, later) == Settle(w, m, uid, e, at)
  {
    t := HeardThen(w, s, e, uid, clock);
    hide Sound, Checked, Admissible, Mid, Planned, Settle, Tracked, Revise, IngestFinish, Heard, RollFor, IngestStart,
      Counted, Known, S.Protects;
    index, at := ReviseRolls(w, Heard(Counted(s, e), e, uid, t), e, uid, clock, later);
    HeardIs(Counted(s, e), e, uid, t);
    CountedKnown(s, e, uid);
  }

  lemma {:induction false} HeardThen(w: World, s: Session, e: Event, uid: string, clock: real) returns (t: S.Tracker)
    requires Sound(w, s) && s.pc == Idle && uid == UtteranceId(s, e)
    requires e.final || S.Protects(w.u, Known(s, uid, e).tracker.e.(text := e.text))
    requires Checked(w, s, e).None? && Admissible(w, s, e, uid).None?
    ensures forall v :: v in s.utterances ==> Tracked(w, s.utterances[v].tracker)
    ensures Tracked(w, t) && t.e.final == e.final && t.e.text == e.text && t.sequence == e.sequence && t.verdict.Some?
    ensures Tracked(w, Known(s, uid, e).tracker) && Judgement(w, Known(s, uid, e), e, clock) == Ok(t)
    ensures var h := Heard(Counted(s, e), e, uid, t);
      && uid in h.utterances && h.utterances[uid].tracker == t && Mid(w, h, e, uid)
      && IngestStart(w, s, e, clock) == Revise(w, h, e, uid, clock)
  {
    hide Sound, Checked, Admissible, Mid, Tracked, S.Observed, Revise, Heard, IngestStart, Counted, Prefixed, Tiles,
      Known, S.Protects;
    AllTracked(w, s);
    CheckedWhy(w, s, e);
    KnownFollowed(w, s, e, uid);
    SoundValid(w, s);
    ObservedOk(w, Known(s, uid, e).tracker, e, clock);
    t := Judgement(w, Known(s, uid, e), e, clock).value;
    SameProtection(w, t.e, Known(s, uid, e).tracker.e.(text := e.text));
    HeardIsRevised(w, s, e, uid, clock, t);
    CountedIs(w, s, e, uid, t);
    HeardMid(w, Counted(s, e), e, uid, t);
    HeardIs(Counted(s, e), e, uid, t);
  }

  lemma {:induction false} SameProtection(w: World, a: S.Evidence, b: S.Evidence)
    requires a.text == b.text && a.committed == b.committed
    ensures S.Protects(w.u, a) == S.Protects(w.u, b)
  {
  }

  lemma {:induction false} CountedKnown(s: Session, e: Event, uid: string)
    ensures Known(Counted(s, e), uid, e) == Known(s, uid, e) && Counted(s, e).segments == s.segments
  {
  }

  lemma {:induction false} KnownIs(s: Session, e: Event, uid: string)
    requires uid in s.utterances
    ensures Known(s, uid, e) == s.utterances[uid]
  {
  }

  lemma {:induction false} HeardIs(s: Session, e: Event, uid: string, t: S.Tracker)
    ensures var h := Heard(s, e, uid, t);
      && h.segments == s.segments && uid in h.utterances
      && h.utterances[uid] == Known(s, uid, e).(tracker := t)
      && h.utterances == s.utterances[uid := Known(s, uid, e).(tracker := t)]
  {
  }

  lemma {:induction false} CountedIs(w: World, s: Session, e: Event, uid: string, t: S.Tracker)
    requires Sound(w, s) && s.pc == Idle && uid == UtteranceId(s, e)
    requires s.lastSequence < e.sequence && Tracked(w, t) && t.verdict.Some? && t.sequence == e.sequence
    requires t.e.text == e.text && t.e.final == e.final && t.e.committed == Known(s, uid, e).tracker.e.committed
    requires t.verdict.value.conflict <==> !S.Protects(w.u, t.e)
    ensures var c := Counted(s, e);
      HeardOk(w, c, e, uid, t) && c.segments == s.segments && c.utterances == s.utterances
  {
    hide Sound, Tracked, S.Protects;
    CounterSound(w, s, s.nextUtterance + 1);
  }

  /** What a cut leaves of the final's own utterance before it is settled. */
  lemma {:induction false} CutShare(w: World, s: Session, e: Event, uid: string, t: S.Tracker, index: nat)
    requires Sound(w, s) && s.pc == Idle && uid in s.utterances && index <= |s.segments|
    ensures var m := CutAt(s, e, uid, t, index);
      && uid in m.utterances && m.segments == s.segments[..index]
      && Tiles(Of(s.segments[..index], uid), s.utterances[uid].text, 0, m.utterances[uid].selectedEnd)
  {
    hide Tiles, Tracked, Prefixed;
    assert UtteranceOk(w, s, uid);
    var h := Heard(Counted(s, e), e, uid, t);
    RolledTiles(h, index, uid, h.utterances[uid]);
  }

  lemma {:induction false} CutOthers(w: World, s: Session, e: Event, uid: string, t: S.Tracker, index: nat,
                                     other: string)
    requires Sound(w, s) && s.pc == Idle && uid in s.utterances && index <= |s.segments| && AllAligned(w, s)
    requires other in s.utterances && other != uid
    ensures var m := CutAt(s, e, uid, t, index);
      && other in m.utterances && Aligned(w, m.utterances[other], Of(m.segments, other))
  {
    hide Tiles, Tracked, Prefixed, Aligned;
    assert UtteranceOk(w, s, other);
    RollAligned(w, Heard(Counted(s, e), e, uid, t), uid, e, index, other);
  }

  /** The state a final leaves: the list is cut at `index`, and `m` is what the cut left. */
  ghost predicate CutThenSettled(w: World, s: Session, e: Event, uid: string, index: nat, m: Session, r: Session)
    requires uid in s.utterances
  {
    var mine, n := Of(s.segments, uid), Kept(w, s, e);
    && index <= |s.segments| && m.segments == s.segments[..index] && SameShape(m.segments, r.segments)
    && n <= |mine| && Of(m.segments, uid) == mine[..n]
    && m.utterances.Keys == r.utterances.Keys == s.utterances.Keys
    && (forall other :: other in s.utterances && other != uid ==> r.utterances[other] == m.utterances[other])
    && r.utterances[uid].text == e.text
    && r.utterances[uid].stableEnd == S.CharEnd(Tokens(w.u, e.text), |Tokens(w.u, e.text)|)
    && r.utterances[uid].selectedEnd == m.utterances[uid].selectedEnd
  }

  lemma {:induction false} FinalCuts(w: World, s: Session, e: Event, uid: string, clock: real, later: real)
      returns (t: S.Tracker, index: nat)
    requires Sound(w, s) && s.pc == Idle && uid == UtteranceId(s, e) && uid in s.utterances
    requires e.final && Checked(w, s, e).None? && Admissible(w, s, e, uid).None?
    ensures index <= |s.segments|
    ensures CutThenSettled(w, s, e, uid, index, CutAt(s, e, uid, t, index),
                           AfterEvent(w, s, e, clock, later))
  {
    hide Sound, Checked, Admissible, Mid, Settle, Tracked, CutAt, SameShape, AfterEvent, Planned, Tiles;
    var at;
    t, index, at := AfterHeard(w, s, e, uid, clock, later);
    var m := CutAt(s, e, uid, t, index);
    CutAtPc(s, e, uid, t, index);
    var c := SettledUid(w, m, uid, e, at);
    FinalReach(w, t);
    KnownIs(s, e, uid);
  }

  /** A final that contradicts the protected prefix may cut segments anywhere in the
      session. Every other utterance stays aligned; its own stays aligned if and only if
      no token of the new text joins its last kept segment to the first difference. */
  lemma {:induction false} ContradictingFinal(w: World, s: Session, e: Event, clock: real, later: real)
    requires Sound(w, s) && s.pc == Idle && AllAligned(w, s) && Contradicts(w, s, e)
    requires e.final && Checked(w, s, e).None? && Admissible(w, s, e, UtteranceId(s, e)).None?
    ensures var uid, r := UtteranceId(s, e), AfterEvent(w, s, e, clock, later);
            var mine, n := Of(s.segments, uid), Kept(w, s, e);
      && r.utterances.Keys == s.utterances.Keys && n <= |mine|
      && (forall other :: other in s.utterances && other != uid ==>
            Aligned(w, r.utterances[other], Of(r.segments, other)))
      && (Aligned(w, r.utterances[uid], Of(r.segments, uid)) <==>
            n == 0 || !Swallowed(w.u, e.text, mine[n - 1].end, Lcp(s.utterances[uid].text, e.text, 0)))
  {
    hide Sound, Checked, Admissible, AllAligned, Aligned, CutAt, SameShape, AfterEvent, Kept, Swallowed;
    var uid := UtteranceId(s, e);
    var t, index := FinalCuts(w, s, e, uid, clock, later);
    var m := CutAt(s, e, uid, t, index);
    var r := AfterEvent(w, s, e, clock, later);
    OwnAligned(w, s, e, uid, t, index, r);
    forall other | other in s.utterances && other != uid
      ensures Aligned(w, r.utterances[other], Of(r.segments, other))
    {
      CutOthers(w, s, e, uid, t, index, other);
      ShapeAlignedIff(w, r.utterances[other], m.segments, r.segments, other);
    }
  }

  lemma {:induction false} ContradictsMeans(w: World, s: Session, e: Event, uid: string)
    requires Contradicts(w, s, e) && uid == UtteranceId(s, e)
    ensures uid in s.utterances && !S.Protects(w.u, s.utterances[uid].tracker.e.(text := e.text))
  {
  }

  lemma {:induction false} OwnShare(w: World, s: Session, e: Event, uid: string, index: nat, m: Session, r: Session)
    requires uid in s.utterances && CutThenSettled(w, s, e, uid, index, m, r)
    ensures var n := Kept(w, s, e);
      && n <= |Of(s.segments, uid)| && Of(m.segments, uid) == Of(s.segments, uid)[..n]
      && m.segments == s.segments[..index] && SameShape(m.segments, r.segments)
      && uid in r.utterances && uid in m.utterances && r.utterances[uid].text == e.text
      && r.utterances[uid].stableEnd == S.CharEnd(Tokens(w.u, e.text), |Tokens(w.u, e.text)|)
      && r.utterances[uid].selectedEnd == m.utterances[uid].selectedEnd
  {
  }

  lemma {:induction false} OwnAligned(w: World, s: Session, e: Event, uid: string, t: S.Tracker, index: nat, r: Session)
    requires Sound(w, s) && s.pc == Idle && AllAligned(w, s) && Contradicts(w, s, e) && uid == UtteranceId(s, e)
    requires index <= |s.segments|
    requires CutThenSettled(w, s, e, uid, index, CutAt(s, e, uid, t, index), r)
    ensures var mine, n := Of(s.segments, uid), Kept(w, s, e);
      Aligned(w, r.utterances[uid], Of(r.segments, uid)) <==>
      n == 0 || !Swallowed(w.u, e.text, mine[n - 1].end, Lcp(s.utterances[uid].text, e.text, 0))
  {
    hide Sound, AllAligned, Aligned, CutAt, SameShape, Swallowed, Tiles, Prefixed, Planned, Tracked, Contradicts,
      S.Protects, Rested, Fits, CutThenSettled, Kept, Of, Lcp;
    var m := CutAt(s, e, uid, t, index);
    ContradictsMeans(w, s, e, uid);
    OwnShare(w, s, e, uid, index, m, r);
    CutShare(w, s, e, uid, t, index);
    KeptIsPlanned(w, s, e, uid);
    FinalAlignedIff(w, s.utterances[uid], r.utterances[uid], e, Of(s.segments, uid), Kept(w, s, e),
                    Of(m.segments, uid));
    ShapeAlignedIff(w, r.utterances[uid], m.segments, r.segments, uid);
  }

  lemma {:induction false} KeptIsPlanned(w: World, s: Session, e: Event, uid: string)
    requires Sound(w, s) && s.pc == Idle && AllAligned(w, s) && uid == UtteranceId(s, e) && uid in s.utterances
    ensures var v, mine := s.utterances[uid], Of(s.segments, uid);
            var plan := Planned(w.u, v.text, e.text, Spans(mine));
      && plan.Plan? && plan.rollbackIndex == Kept(w, s, e)
      && Prefixed(w, v) && Tiles(mine, v.text, 0, v.selectedEnd) && Aligned(w, v, mine)
  {
    hide Sound, AllAligned, Aligned, Tiles, Prefixed, Planned, Tracked, Rested, Fits;
    KnownFollowed(w, s, e, uid);
    KnownIs(s, e, uid);
    AlignedAt(w, s, uid);
    PlanFits(w, s.utterances[uid], Of(s.segments, uid), e.text);
  }

  // -------- Other events

  /** A partial that contradicts the prefix is put off: texts and segments stay as they are. */
  lemma {:induction false} ContradictingPartial(w: World, s: Session, e: Event, clock: real)
    requires Sound(w, s) && s.pc == Idle && Contradicts(w, s, e) && !e.final
    ensures forall v :: v in s.utterances ==> Tracked(w, s.utterances[v].tracker)
    ensures match IngestStart(w, s, e, clock)
      case Refused(_, r) => r == s.(nextUtterance := r.nextUtterance)
      case Deferred(r) =>
        && r.segments == s.segments && r.utterances.Keys == s.utterances.Keys
        && (AllAligned(w, s) ==> AllAligned(w, r))
      case _ => false
  {
    hide Sound, Checked, Admissible, AllAligned, Tracked, S.Observed, Revise, Aligned, Prefixed, Tiles, Rested,
      S.Judged;
    AllTracked(w, s);
    SoundValid(w, s);
    var uid := UtteranceId(s, e);
    if Checked(w, s, e).None? && Admissible(w, s, e, uid).None? {
      CheckedWhy(w, s, e);
      KnownFollowed(w, s, e, uid);
      KnownIs(s, e, uid);
      ObservedOk(w, s.utterances[uid].tracker, e, clock);
      var t := Judgement(w, s.utterances[uid], e, clock).value;
      if AllAligned(w, s) {
        HeardAligned(w, s, e, uid, t);
      }
    }
  }

  lemma {:induction false} OnlyTracker(w: World, v: Utterance, t: S.Tracker, segments: seq<Segment>)
    requires Aligned(w, v, segments)
    ensures Aligned(w, v.(tracker := t), segments)
  {
  }

  lemma {:induction false} HeardAligned(w: World, s: Session, e: Event, uid: string, t: S.Tracker)
    requires AllAligned(w, s) && uid in s.utterances
    ensures AllAligned(w, Heard(Counted(s, e), e, uid, t))
  {
    hide Aligned;
    AlignedAt(w, s, uid);
    OnlyTracker(w, s.utterances[uid], t, Of(s.segments, uid));
  }

  /** Selection gets stuck exactly when what has been selected is no longer a stable
      boundary: then every attempt to select more of the text raises. */
  lemma {:induction false} StuckIff(w: World, x: Weather, s: Session, uid: string, conflict: bool)
    requires Sound(w, s) && !s.pc.RollingBack? && uid in s.utterances
    requires HasContent(w.u, s.utterances[uid].text, s.utterances[uid].selectedEnd) && !Blocked(w, s)
    ensures var v := s.utterances[uid];
      SelectLoop(w, x, s, uid, conflict) == (s, Raised) <==>
      !(v.selectedEnd <= v.stableEnd && G.OnBoundary(w.u, v.text, v.selectedEnd))
  {
    assert UtteranceOk(w, s, uid);
    var v := s.utterances[uid];
    AlignedQuery(w, s, v, Of(s.segments, uid));
    if v.selectedEnd <= v.stableEnd && G.OnBoundary(w.u, v.text, v.selectedEnd) {
      hide Sound, HasContent, Blocked, Boundary, UtteranceOk;
      SelectsOrNot(w, x, s, uid, conflict);
    }
  }

  /** A well-formed query never leaves the session unchanged and raised. */
  lemma {:induction false} SelectsOrNot(w: World, x: Weather, s: Session, uid: string, conflict: bool)
    requires uid in s.utterances && G.Segmented(w.u, w.g, QueryFor(w, s, s.utterances[uid])).Ok?
    ensures SelectLoop(w, x, s, uid, conflict) != (s, Raised)
  {
    if Choice(w, x, s, uid, conflict).Some? {
      var c := Choice(w, x, s, uid, conflict).value;
      SelectsExactly(w, x, s, uid, conflict);
      SelectLoopGrows(w, x, Appended(s, uid, s.utterances[uid], c), uid, conflict);
    }
  }

  lemma {:induction false} SelectLoopGrows(w: World, x: Weather, s: Session, uid: string, conflict: bool)
    requires uid in s.utterances
    ensures s.nextSegment <= SelectLoop(w, x, s, uid, conflict).0.nextSegment
    decreases |s.utterances[uid].text| - s.utterances[uid].selectedEnd
  {
    hide HasContent, Blocked, G.Segmented, QueryFor;
    if Choice(w, x, s, uid, conflict).Some? {
      var c := Choice(w, x, s, uid, conflict).value;
      SelectsExactly(w, x, s, uid, conflict);
      SelectLoopGrows(w, x, Appended(s, uid, s.utterances[uid], c), uid, conflict);
    }
  }
}
