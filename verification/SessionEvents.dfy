/** What one recognition event does to a session, and which utterance an event without a
    name goes to (app/session/state.py). */
module SessionEvents {
  import opened Wrappers
  import opened Text
  import opened Revision
  import opened Session
  import opened SessionInvariant
  import opened SessionRuns
  import opened SessionSteps
  import S = Stability
  import G = Segmentation

  /** An utterance the event is not for: only its selection may be released. */
  ghost predicate Bystands(v: Utterance, r: Utterance) {
    r == v.(selectedEnd := r.selectedEnd, reported := r.reported) && r.selectedEnd <= v.selectedEnd
  }

  /** Utterance `uid`, and no other, has heard the event. */
  ghost predicate Hears(s: Session, e: Event, r: Session, uid: string) {
    && s.lastSequence < e.sequence == r.lastSequence
    && uid in r.utterances && r.utterances.Keys == s.utterances.Keys + {uid}
    && r.order == (if uid in s.utterances then s.order else s.order + [uid])
    && r.utterances[uid].tracker.e.text == e.text && r.utterances[uid].tracker.e.final == e.final
    && r.utterances[uid].tracker.sequence == e.sequence && r.utterances[uid].speaker == e.speaker
    && (forall other :: other in s.utterances && other != uid ==>
          Bystands(s.utterances[other], r.utterances[other]))
  }

  /** The event's text is the utterance's, as a new revision if it differs. */
  ghost predicate Writes(s: Session, e: Event, r: Session, uid: string)
    requires uid in r.utterances
  {
    var was, v := if uid in s.utterances then s.utterances[uid].text else "", r.utterances[uid];
    && v.text == e.text && v.final == e.final && v.sequence == e.sequence
    && v.revision == (if uid in s.utterances then s.utterances[uid].revision else 0) + (if e.text != was then 1 else 0)
    && (e.text != was ==> !v.reported)
  }

  /** Segments are kept up to some point, and a final gives the failed ones of its
      utterance another chance. */
  ghost predicate Keeps(s: Session, e: Event, r: Session, uid: string) {
    && |r.segments| <= |s.segments|
    && forall i :: 0 <= i < |r.segments| ==>
         r.segments[i] == if e.final && s.segments[i].uid == uid && s.segments[i].status == Failed
                          then s.segments[i].(status := Ready) else s.segments[i]
  }

  /** What is stable of the new text is what the tracker says on hearing it. */
  ghost predicate Stabilises(w: World, s: Session, e: Event, clock: real, r: Session, uid: string) {
    && uid in r.utterances && Tracked(w, Known(s, uid, e).tracker)
    && var t := Judgement(w, Known(s, uid, e), e, clock);
      t.Ok? && t.value.verdict.Some? && r.utterances[uid].stableEnd == t.value.verdict.value.stableEnd
  }

  /** Only the tracker of the utterance has heard it. */
  ghost predicate PutsOff(s: Session, r: Session, uid: string) {
    && uid in s.utterances && uid in r.utterances && r.segments == s.segments
    && r.utterances[uid] == s.utterances[uid].(tracker := r.utterances[uid].tracker)
  }

  // -------- One event

  lemma {:induction false} RolledBystands(h: Session, uid: string, e: Event, index: nat, other: string)
    requires index <= |h.segments| && other in h.utterances
    ensures var m := RollFor(h, uid, e, index);
      && other in m.utterances && Bystands(h.utterances[other], m.utterances[other])
      && m.segments == h.segments[..index] && m.utterances.Keys == h.utterances.Keys
      && m.order == h.order && m.autoId == h.autoId && m.nextUtterance == h.nextUtterance
      && m.lastSequence == h.lastSequence && m.pc == RollingBack(uid, e, Ids(h.segments[index..]))
  {
    UnselectReleases(h.utterances, h.segments[index..], other);
  }

  /** What settling writes. */
  lemma {:induction false} SettleWrites(w: World, m: Session, uid: string, e: Event, at: real)
    requires Sound(w, m) && m.pc.RollingBack? && m.pc.uid == uid && m.pc.event == e
    ensures uid in m.utterances && Tracked(w, m.utterances[uid].tracker) && m.utterances[uid].tracker.verdict.Some?
    ensures var r, v := Settle(w, m, uid, e, at), m.utterances[uid];
      && r == m.(utterances := r.utterances, segments := r.segments, pc := Idle)
      && r.segments == (if e.final then Retried(m.segments, uid) else m.segments)
      && uid in r.utterances && r.utterances == m.utterances[uid := r.utterances[uid]]
      && r.utterances[uid] == Retexted(v, e, v.tracker).(tracker := r.utterances[uid].tracker)
      && r.utterances[uid].tracker.e == v.tracker.e.(committed := r.utterances[uid].tracker.e.committed)
      && r.utterances[uid].tracker.sequence == v.tracker.sequence && r.utterances[uid].final == e.final
      && r.utterances[uid].stableEnd == v.tracker.verdict.value.stableEnd
  {
    assert UtteranceOk(w, m, uid);
    var t := m.utterances[uid].tracker;
    SettledUtterance(w, m.utterances[uid], e, Of(m.segments, uid), m.lastSequence, at);
    var c := S.Committed(w.settings.stability, w.u, t, t.verdict.value.stableEnd, e.final, at).value;
    CommitKeeps(w, t, t.verdict.value.stableEnd, e.final, at);
    hide Tracked, S.Committed, S.Judged, Retried, Retexted;
  }

  lemma {:induction false} CommitKeeps(w: World, t: S.Tracker, end: int, allowFinal: bool, clock: real)
    requires Tracked(w, t)
    ensures var r := S.Committed(w.settings.stability, w.u, t, end, allowFinal, clock);
      r.Ok? ==> r.value.sequence == t.sequence && r.value.e == t.e.(committed := r.value.e.committed)
  {
    hide S.Judged, S.Evaluated;
  }

  /** The names a session hands out and what it has heard do not change while it settles. */
  ghost predicate Names(s: Session, e: Event, r: Session, uid: string) {
    && r.autoId == (if e.utterance.None? then Some(uid) else s.autoId)
    && r.nextUtterance == Counted(s, e).nextUtterance
  }

  lemma {:induction false} HeardParts(s: Session, e: Event, uid: string, t: S.Tracker)
    ensures var h := Heard(Counted(s, e), e, uid, t);
      && h.utterances == s.utterances[uid := Known(s, uid, e).(tracker := t)]
      && h.order == (if uid in s.utterances then s.order else s.order + [uid])
      && h.segments == s.segments && h.lastSequence == e.sequence && h.pc == s.pc && Names(s, e, h, uid)
  {
  }

  lemma {:induction false} SettledEvent(w: World, s: Session, e: Event, uid: string, clock: real, later: real)
    requires Sound(w, s) && s.pc == Idle && uid == UtteranceId(s, e) && Refusal(w, s, e).None?
    requires e.final || S.Protects(w.u, Known(s, uid, e).tracker.e.(text := e.text))
    ensures var r := AfterEvent(w, s, e, clock, later);
      && r.pc == Idle && Hears(s, e, r, uid) && Writes(s, e, r, uid) && Keeps(s, e, r, uid) && Names(s, e, r, uid)
      && Stabilises(w, s, e, clock, r, uid)
  {
    CheckedWhy(w, s, e);
    SpeakerChecked(w, s, e, uid);
    var t, index, at := AfterHeard(w, s, e, uid, clock, later);
    CutAtIs(s, e, uid, t, index);
    HeardParts(s, e, uid, t);
    StabilisedBy(w, s, e, uid, clock, t);
    hide *;
    CutWrites(w, s, e, uid, t, Heard(Counted(s, e), e, uid, t), index, at);
  }

  lemma {:induction false} StabilisedBy(w: World, s: Session, e: Event, uid: string, clock: real, t: S.Tracker)
    requires Tracked(w, Known(s, uid, e).tracker) && Judgement(w, Known(s, uid, e), e, clock) == Ok(t)
    requires t.verdict.Some?
    ensures forall r: Session ::
      (uid in r.utterances && r.utterances[uid].stableEnd == t.verdict.value.stableEnd
       ==> Stabilises(w, s, e, clock, r, uid))
  {
    hide Tracked, Judgement, Known;
  }

  lemma {:induction false} CutWrites(w: World, s: Session, e: Event, uid: string, t: S.Tracker, h: Session, index: nat,
                                     at: real)
    requires Known(s, uid, e).speaker == e.speaker && s.lastSequence < e.sequence && index <= |s.segments|
    requires t.e.text == e.text && t.e.final == e.final && t.sequence == e.sequence && t.verdict.Some?
    requires h.utterances == s.utterances[uid := Known(s, uid, e).(tracker := t)]
    requires h.order == (if uid in s.utterances then s.order else s.order + [uid])
    requires h.segments == s.segments && h.lastSequence == e.sequence && Names(s, e, h, uid)
    requires Sound(w, RollFor(h, uid, e, index)) && RollFor(h, uid, e, index).pc.RollingBack?
    ensures var m := RollFor(h, uid, e, index);
      && uid in m.utterances && Tracked(w, m.utterances[uid].tracker) && m.utterances[uid].tracker.verdict.Some?
      && var r := Settle(w, m, uid, e, at);
      && r.pc == Idle && Hears(s, e, r, uid) && Writes(s, e, r, uid) && Keeps(s, e, r, uid) && Names(s, e, r, uid)
      && uid in r.utterances && r.utterances[uid].stableEnd == t.verdict.value.stableEnd
  {
    var m := RollFor(h, uid, e, index);
    assert uid in h.utterances;
    RolledBystands(h, uid, e, index, uid);
    SettleWrites(w, m, uid, e, at);
    var r := Settle(w, m, uid, e, at);
    hide *;
    OthersBystand(s, h, uid, e, index, r);
    WrittenParts(s, e, uid, t, h, m, r);
    RetriedKeeps(s, e, r, uid, index);
    HearsParts(s, e, r, uid, t, h, m);
  }

  lemma {:induction false} OthersBystand(s: Session, h: Session, uid: string, e: Event, index: nat, r: Session)
    requires index <= |h.segments| && uid in h.utterances && h.utterances == s.utterances[uid := h.utterances[uid]]
    requires uid in r.utterances
    requires r.utterances == RollFor(h, uid, e, index).utterances[uid := r.utterances[uid]]
    ensures r.utterances.Keys == s.utterances.Keys + {uid}
    ensures forall other :: other in s.utterances && other != uid ==>
      Bystands(s.utterances[other], r.utterances[other])
  {
    RolledBystands(h, uid, e, index, uid);
    hide RollFor, Bystands;
    forall other | other in s.utterances && other != uid
      ensures Bystands(s.utterances[other], r.utterances[other])
    {
      RolledBystands(h, uid, e, index, other);
    }
  }

  lemma {:induction false} HearsParts(s: Session, e: Event, r: Session, uid: string, t: S.Tracker, h: Session,
                                      m: Session)
    requires Known(s, uid, e).speaker == e.speaker && s.lastSequence < e.sequence == r.lastSequence
    requires t.e.text == e.text && t.e.final == e.final && t.sequence == e.sequence && t.verdict.Some?
    requires uid in r.utterances && uid in m.utterances && r.utterances.Keys == s.utterances.Keys + {uid}
    requires h.utterances == s.utterances[uid := Known(s, uid, e).(tracker := t)]
    requires Bystands(h.utterances[uid], m.utterances[uid])
    requires r.utterances[uid].speaker == Known(s, uid, e).speaker
    requires r.utterances[uid].tracker.e
          == m.utterances[uid].tracker.e.(committed := r.utterances[uid].tracker.e.committed)
    requires r.utterances[uid].tracker.sequence == m.utterances[uid].tracker.sequence
    requires r.order == (if uid in s.utterances then s.order else s.order + [uid])
    requires forall other :: other in s.utterances && other != uid ==>
      Bystands(s.utterances[other], r.utterances[other])
    ensures Hears(s, e, r, uid)
  {
  }

  lemma {:induction false} CutAtIs(s: Session, e: Event, uid: string, t: S.Tracker, index: nat)
    requires index <= |s.segments|
    ensures CutAt(s, e, uid, t, index) == RollFor(Heard(Counted(s, e), e, uid, t), uid, e, index)
  {
  }

  lemma {:induction false} SpeakerChecked(w: World, s: Session, e: Event, uid: string)
    requires Refusal(w, s, e).None? && uid == UtteranceId(s, e)
    ensures Checked(w, s, e).None? && Admissible(w, s, e, uid).None?
    ensures Known(s, uid, e).speaker == e.speaker
  {
  }

  lemma {:induction false} RetriedKeeps(s: Session, e: Event, r: Session, uid: string, index: nat)
    requires index <= |s.segments|
    requires r.segments == if e.final then Retried(s.segments[..index], uid) else s.segments[..index]
    ensures Keeps(s, e, r, uid)
  {
  }

  lemma {:induction false} WrittenParts(s: Session, e: Event, uid: string, t: S.Tracker, h: Session, m: Session,
                                        r: Session)
    requires h.utterances == s.utterances[uid := Known(s, uid, e).(tracker := t)] && t.verdict.Some?
    requires uid in m.utterances && Bystands(h.utterances[uid], m.utterances[uid])
    requires uid in r.utterances
    requires r.utterances[uid]
          == Retexted(m.utterances[uid], e, m.utterances[uid].tracker).(tracker := r.utterances[uid].tracker)
    ensures Writes(s, e, r, uid) && r.utterances[uid].speaker == Known(s, uid, e).speaker
  {
  }

  lemma {:induction false} DeferredEvent(w: World, s: Session, e: Event, uid: string, clock: real, later: real)
    requires Sound(w, s) && s.pc == Idle && uid == UtteranceId(s, e) && Refusal(w, s, e).None?
    requires !e.final && Contradicts(w, s, e)
    ensures var r := AfterEvent(w, s, e, clock, later);
      r.pc == Idle && Hears(s, e, r, uid) && PutsOff(s, r, uid) && Names(s, e, r, uid)
  {
    CheckedWhy(w, s, e);
    SpeakerChecked(w, s, e, uid);
    ContradictsMeans(w, s, e, uid);
    var t := DeferredHears(w, s, e, uid, clock);
    HeardParts(s, e, uid, t);
    KnownIs(s, e, uid);
    AfterDeferred(w, s, e, clock, later, Heard(Counted(s, e), e, uid, t));
    DeferredParts(s, e, uid, t, Heard(Counted(s, e), e, uid, t));
    hide *;
  }

  lemma {:induction false} AfterDeferred(w: World, s: Session, e: Event, clock: real, later: real, h: Session)
    requires Sound(w, s) && s.pc == Idle && forall v :: v in s.utterances ==> Tracked(w, s.utterances[v].tracker)
    requires w.settings.Valid() && IngestStart(w, s, e, clock) == Deferred(h)
    ensures AfterEvent(w, s, e, clock, later) == h
  {
    hide Sound, Tracked, IngestStart;
  }

  lemma {:induction false} DeferredParts(s: Session, e: Event, uid: string, t: S.Tracker, h: Session)
    requires uid in s.utterances && s.utterances[uid].speaker == e.speaker && s.lastSequence < e.sequence
    requires t.e.text == e.text && t.e.final == e.final && t.sequence == e.sequence
    requires h.utterances == s.utterances[uid := s.utterances[uid].(tracker := t)] && h.order == s.order
    requires h.segments == s.segments && h.lastSequence == e.sequence
    ensures Hears(s, e, h, uid) && PutsOff(s, h, uid)
  {
  }

  lemma {:induction false} DeferredHears(w: World, s: Session, e: Event, uid: string, clock: real)
      returns (t: S.Tracker)
    requires Sound(w, s) && s.pc == Idle && uid == UtteranceId(s, e) && uid in s.utterances && !e.final
    requires Checked(w, s, e).None? && Admissible(w, s, e, uid).None?
    requires !S.Protects(w.u, s.utterances[uid].tracker.e.(text := e.text))
    ensures forall v :: v in s.utterances ==> Tracked(w, s.utterances[v].tracker)
    ensures w.settings.Valid() && IngestStart(w, s, e, clock) == Deferred(Heard(Counted(s, e), e, uid, t))
    ensures t.e.text == e.text && t.e.final == e.final && t.sequence == e.sequence
  {
    hide Sound, Checked, Admissible, Tracked, S.Observed, Revise, Prefixed, Tiles, Rested, S.Judged, S.Protects;
    AllTracked(w, s);
    SoundValid(w, s);
    CheckedWhy(w, s, e);
    KnownFollowed(w, s, e, uid);
    KnownIs(s, e, uid);
    ObservedOk(w, s.utterances[uid].tracker, e, clock);
    t := Judgement(w, s.utterances[uid], e, clock).value;
    SameProtection(w, t.e, s.utterances[uid].tracker.e.(text := e.text));
  }

  /** An event is refused by its checks, and then only the counter of automatic names may
      move; or exactly one utterance hears it, and then its text is written, unless a
      partial contradicts the protected prefix and is put off. */
  lemma {:induction false} EventIs(w: World, s: Session, e: Event, clock: real, later: real)
    requires Sound(w, s) && s.pc == Idle
    ensures var r, uid := AfterEvent(w, s, e, clock, later), UtteranceId(s, e);
      if Refusal(w, s, e).Some? then r == s.(nextUtterance := r.nextUtterance)
      else r.pc == Idle && Hears(s, e, r, uid) && Names(s, e, r, uid)
           && if Contradicts(w, s, e) && !e.final then PutsOff(s, r, uid)
              else Writes(s, e, r, uid) && Keeps(s, e, r, uid) && Stabilises(w, s, e, clock, r, uid)
  {
    var uid := UtteranceId(s, e);
    hide Sound, Hears, Writes, Keeps, PutsOff, Names, Stabilises, Checked, Admissible, AfterEvent, S.Protects, Known;
    if Refusal(w, s, e).Some? {
      RefusedEvent(w, s, e, clock, later);
    } else if Contradicts(w, s, e) && !e.final {
      DeferredEvent(w, s, e, uid, clock, later);
    } else {
      if !Contradicts(w, s, e) { UncontradictedProtects(w, s, e, uid); }
      SettledEvent(w, s, e, uid, clock, later);
    }
  }

  lemma {:induction false} RefusedEvent(w: World, s: Session, e: Event, clock: real, later: real)
    requires Sound(w, s) && s.pc == Idle && Refusal(w, s, e).Some?
    ensures var r := AfterEvent(w, s, e, clock, later); r == s.(nextUtterance := r.nextUtterance)
  {
    IngestStartSound(w, s, e, clock);
    hide Sound, Checked, Admissible, Tracked;
  }

  /** At most one utterance hears an event. */
  lemma {:induction false} OneHears(w: World, s: Session, e: Event, r: Session, uid: string, other: string)
    requires Sound(w, s) && Hears(s, e, r, uid) && Hears(s, e, r, other)
    ensures uid == other
  {
    if uid != other && uid in s.utterances {
      HeardEarlier(w, s, e, r, other, uid);
    }
  }

  lemma {:induction false} HeardEarlier(w: World, s: Session, e: Event, r: Session, uid: string, other: string)
    requires Sound(w, s) && Hears(s, e, r, uid) && other in s.utterances && other != uid
    ensures r.utterances[other].tracker.sequence < e.sequence
  {
    assert UtteranceOk(w, s, other);
    assert Bystands(s.utterances[other], r.utterances[other]);
  }

  // -------- Which events are refused

  /** The session as it would stand with the event's text in place of the old one. */
  ghost function Holding(s: Session, e: Event, uid: string): Session {
    s.(utterances := s.utterances[uid := Known(s, uid, e).(text := e.text)],
       order := if uid in s.utterances then s.order else s.order + [uid])
  }

  ghost predicate Once(order: seq<string>) {
    forall i, j :: 0 <= i < j < |order| ==> order[i] != order[j]
  }

  /** The event is for this session, new, in its languages and not too long. */
  ghost predicate Fitting(w: World, s: Session, e: Event) {
    && (e.session.Some? ==> e.session.value == s.id) && s.lastSequence < e.sequence
    && (e.language.Some? ==> e.language.value == w.settings.sourceLanguage)
    && (e.target.Some? ==> e.target.value == w.settings.targetLanguage)
    && |e.text| <= w.settings.maxSourceChars
  }

  /** An event is accepted if and only if it fits; keeps its utterance's speaker; does not
      take back a final; and leaves the session within its limits on text, bytes and
      utterances. */
  lemma {:induction false} AcceptedIff(w: World, s: Session, e: Event)
    requires Sound(w, s) && Once(s.order)
    ensures var uid := UtteranceId(s, e); var r := Holding(s, e, uid);
      Refusal(w, s, e).None? <==>
        && Fitting(w, s, e)
        && (uid in s.utterances ==>
              s.utterances[uid].speaker == e.speaker && (s.utterances[uid].final ==> e.final))
        && Chars(r.utterances, r.order) <= w.settings.maxSessionChars
        && StateBytes(w, r) <= w.settings.maxStateBytes
        && (uid !in s.utterances ==> |s.utterances| < w.settings.maxUtterances)
  {
    SoundListed(w, s);
    CheckedIff(w, s, e);
    AdmissibleIff(w, s, e, UtteranceId(s, e));
    hide Sound, Chars, StateBytes, Once, UtteranceId, Holding, Checked, Admissible, Fitting, Listed;
  }

  lemma {:induction false} CheckedIff(w: World, s: Session, e: Event)
    ensures Checked(w, s, e).None? <==> Fitting(w, s, e)
  {
  }

  lemma {:induction false} AdmissibleIff(w: World, s: Session, e: Event, uid: string)
    requires Listed(s) && Once(s.order)
    ensures var r := Holding(s, e, uid);
      Admissible(w, s, e, uid).None? <==>
        && (uid in s.utterances ==>
              s.utterances[uid].speaker == e.speaker && (s.utterances[uid].final ==> e.final))
        && Chars(r.utterances, r.order) <= w.settings.maxSessionChars
        && StateBytes(w, r) <= w.settings.maxStateBytes
        && (uid !in s.utterances ==> |s.utterances| < w.settings.maxUtterances)
  {
    HoldingIs(w, s, e, uid);
    hide Chars, StateBytes, Once, Holding, Listed;
  }

  lemma {:induction false} HoldingIs(w: World, s: Session, e: Event, uid: string)
    requires Listed(s) && Once(s.order)
    ensures var r, known := Holding(s, e, uid), uid in s.utterances;
      && Chars(r.utterances, r.order)
         == Chars(s.utterances, s.order) - (if known then |s.utterances[uid].text| else 0) + |e.text|
      && StateBytes(w, r) == StateBytes(w, s) - (if known then w.bytes(s.utterances[uid].text) else 0) + w.bytes(e.text)
  {
    CharsPut(s.utterances, s.order, uid, Known(s, uid, e).(text := e.text));
    BytesPut(w, s.utterances, s.order, uid, Known(s, uid, e).(text := e.text));
    hide Chars, SourceBytes, TranslationBytes, Once;
  }

  lemma {:induction false} CharsPut(utterances: map<string, Utterance>, order: seq<string>, uid: string, v: Utterance)
    requires Once(order) && forall o :: o in order ==> o in utterances
    ensures uid in order ==>
      |utterances[uid].text| <= Chars(utterances, order)
      && Chars(utterances[uid := v], order) == Chars(utterances, order) - |utterances[uid].text| + |v.text|
    ensures uid !in order ==>
      && Chars(utterances[uid := v], order) == Chars(utterances, order)
      && Chars(utterances[uid := v], order + [uid]) == Chars(utterances, order) + |v.text|
  {
    var more := utterances[uid := v];
    if order == [] {
      assert order + [uid] == [uid] && [uid][1..] == [];
    } else {
      assert order[0] in order;
      CharsPut(utterances, order[1..], uid, v);
      assert (order + [uid])[1..] == order[1..] + [uid];
      assert order == [order[0]] + order[1..];
    }
  }

  lemma {:induction false} BytesPut(w: World, utterances: map<string, Utterance>, order: seq<string>, uid: string,
                                    v: Utterance)
    requires Once(order) && forall o :: o in order ==> o in utterances
    ensures uid in order ==>
      w.bytes(utterances[uid].text) <= SourceBytes(w, utterances, order)
      && SourceBytes(w, utterances[uid := v], order)
         == SourceBytes(w, utterances, order) - w.bytes(utterances[uid].text) + w.bytes(v.text)
    ensures uid !in order ==>
      && SourceBytes(w, utterances[uid := v], order) == SourceBytes(w, utterances, order)
      && SourceBytes(w, utterances[uid := v], order + [uid]) == SourceBytes(w, utterances, order) + w.bytes(v.text)
  {
    var more := utterances[uid := v];
    if order == [] {
      assert order + [uid] == [uid] && [uid][1..] == [];
    } else {
      assert order[0] in order;
      BytesPut(w, utterances, order[1..], uid, v);
      assert (order + [uid])[1..] == order[1..] + [uid];
      assert order == [order[0]] + order[1..];
    }
  }

  // -------- What leaves texts and names alone

  /** Same utterances, with the same texts, and the same names to hand out. */
  ghost predicate Steady(s: Session, r: Session) {
    && r.autoId == s.autoId && r.nextUtterance == s.nextUtterance && r.utterances.Keys == s.utterances.Keys
    && forall uid :: uid in s.utterances ==> SameWords(s.utterances[uid], r.utterances[uid])
  }

  ghost predicate SameWords(v: Utterance, r: Utterance) {
    && r.final == v.final && r.text == v.text && r.speaker == v.speaker && r.sequence == v.sequence
    && r.revision == v.revision
  }

  lemma {:induction false} SteadyTwice(a: Session, b: Session, c: Session)
    requires Steady(a, b) && Steady(b, c)
    ensures Steady(a, c)
  {
  }

  lemma {:induction false} SelectLoopSteady(w: World, x: Weather, s: Session, uid: string, conflict: bool)
    requires uid in s.utterances
    ensures Steady(s, SelectLoop(w, x, s, uid, conflict).0)
    decreases |s.utterances[uid].text| - s.utterances[uid].selectedEnd
  {
    hide HasContent, Blocked, QueryFor, Choice, Steady, Appended, Reported;
    SteadySelf(s);
    if Choice(w, x, s, uid, conflict).Some? {
      var c := Choice(w, x, s, uid, conflict).value;
      SelectsExactly(w, x, s, uid, conflict);
      TurnSteady(s, uid, c);
      var n := Appended(s, uid, s.utterances[uid], c);
      SelectLoopSteady(w, x, n, uid, conflict);
      SteadyTwice(s, n, SelectLoop(w, x, n, uid, conflict).0);
    } else {
      TurnSteady(s, uid, G.Candidate(0, 0, "", "", 0, false));
    }
  }

  lemma {:induction false} TurnSteady(s: Session, uid: string, c: G.Candidate)
    requires uid in s.utterances
    ensures var n := Appended(s, uid, s.utterances[uid], c);
      && Steady(s, n) && uid in n.utterances && n.utterances[uid].text == s.utterances[uid].text
      && n.utterances[uid].selectedEnd == c.end
    ensures Steady(s, Reported(s, uid))
  {
  }

  lemma {:induction false} SelectUtteranceSteady(w: World, x: Weather, s: Session, uid: string)
    requires uid in s.utterances && Selectable(w, s)
    ensures Steady(s, SelectUtterance(w, x, s, uid).0)
  {
    hide SelectLoop, Selectable;
    SelectableAt(w, s, uid);
    var v := Restabilised(w, x, s.utterances[uid], uid);
    if v.Ok? {
      var t := S.Refreshed(w.settings.stability, w.u, s.utterances[uid].tracker, x.clock(uid));
      var conflict := t.verdict.value.conflict;
      var n := s.(utterances := s.utterances[uid := v.value]);
      assert Steady(s, n);
      SelectLoopSteady(w, x, n, uid, conflict);
      SteadyTwice(s, n, SelectLoop(w, x, n, uid, conflict).0);
    }
  }

  lemma {:induction false} SweepSteady(w: World, x: Weather, s: Session, k: nat)
    requires k <= |s.order| && Selectable(w, s)
    ensures Steady(s, Sweep(w, x, s, k).0)
    decreases |s.order| - k
  {
    hide Pending, SelectUtterance, Steady;
    SteadySelf(s);
    if k < |s.order| {
      if !Pending(w, s, s.order[k]) {
        SweepSteady(w, x, s, k + 1);
      } else {
        var r := SelectUtterance(w, x, s, s.order[k]);
        SelectUtteranceSteady(w, x, s, s.order[k]);
        if r.1 == Carry {
          SweepSteady(w, x, r.0, k + 1);
          SteadyTwice(s, r.0, Sweep(w, x, r.0, k + 1).0);
        }
      }
    }
  }

  lemma {:induction false} SteadySelf(s: Session)
    ensures Steady(s, s)
  {
  }

  /** Nothing but an event, its second half and a reset changes texts or names. */
  lemma {:induction false} ActionSteady(w: World, s: Session, a: Action)
    requires Sound(w, s) && !a.Ingest? && !a.Resume? && !a.Reset?
    ensures Steady(s, Perform(w, s, a))
  {
    if a.Timer? {
      TimerSteady(w, s, a);
    } else {
      PlainAction(w, s, a);
      hide Perform, Sound;
    }
  }

  lemma {:induction false} TimerSteady(w: World, s: Session, a: Action)
    requires Sound(w, s) && a.Timer?
    ensures Steady(s, Perform(w, s, a))
  {
    SoundIsSelectable(w, s);
    SteadySelf(s);
    EvaluateSteady(w, a.weather, s, a.uid, a.generation);
    hide Sound, Evaluate, Selectable, Steady;
  }

  lemma {:induction false} EvaluateSteady(w: World, x: Weather, s: Session, uid: string, generation: nat)
    requires Selectable(w, s)
    ensures Steady(s, Evaluate(w, x, s, uid, generation))
  {
    SweepSteady(w, x, s, 0);
    SteadySelf(s);
    PcSteady(s, Sweep(w, x, s, 0).0, Dispatching);
    hide Sweep, Selectable, Steady;
  }

  lemma {:induction false} PcSteady(s: Session, r: Session, pc: Pc)
    requires Steady(s, r)
    ensures Steady(s, r.(pc := pc))
  {
  }

  lemma {:induction false} PlainAction(w: World, s: Session, a: Action)
    requires Sound(w, s) && !a.Ingest? && !a.Resume? && !a.Reset? && !a.Timer?
    ensures var r := Perform(w, s, a);
      r.utterances == s.utterances && r.autoId == s.autoId && r.nextUtterance == s.nextUtterance
  {
    hide Sound, Selectable, Accepts, Fails, Unproposable, Stopped;
  }

  // -------- Names that the session hands out

  /** The names events without a name are given. */
  function AutoName(k: nat): string {
    "auto:" + Decimal(k)
  }

  lemma {:induction false} DecimalApart(a: nat, b: nat)
    requires Decimal(a) == Decimal(b)
    ensures a == b
    decreases a
  {
    DecimalEnds(a);
    DecimalEnds(b);
    if a >= 10 && b >= 10 {
      assert Decimal(a / 10) == Decimal(a)[..|Decimal(a)| - 1];
      assert Decimal(b / 10) == Decimal(b)[..|Decimal(b)| - 1];
      DecimalApart(a / 10, b / 10);
    }
  }

  lemma {:induction false} DecimalEnds(n: nat)
    ensures Decimal(n) != [] && (n < 10 <==> |Decimal(n)| == 1)
    ensures Decimal(n)[|Decimal(n)| - 1] == ('0' as int + n % 10) as char
    decreases n
  {
    if n >= 10 { DecimalEnds(n / 10); }
  }

  lemma {:induction false} AutoNamesApart(a: nat, b: nat)
    requires AutoName(a) == AutoName(b)
    ensures a == b
  {
    assert AutoName(a)[5..] == Decimal(a) && AutoName(b)[5..] == Decimal(b);
    DecimalApart(a, b);
  }

  /** What an action may do to names. */
  ghost predicate Renames(s: Session, a: Action, r: Session) {
    && s.nextUtterance <= r.nextUtterance
    && (r.autoId == s.autoId || r.autoId == None || r.autoId == Some(AutoName(r.nextUtterance)))
    && (forall uid :: uid in r.utterances && uid !in s.utterances ==>
          a.Ingest?
          && (a.event.utterance == Some(uid) || (a.event.utterance == None && uid == AutoName(r.nextUtterance))))
    && (!a.Reset? && !Unnamed(a) ==> r.autoId == s.autoId && s.utterances.Keys <= r.utterances.Keys)
  }

  predicate Unnamed(a: Action) {
    a.Ingest? && a.event.utterance.None?
  }

  lemma {:induction false} FinishNames(w: World, s: Session, clock: real)
    requires Sound(w, s) && s.pc.RollingBack? && Resumable(w, s)
    ensures var r := IngestFinish(w, s, clock);
      && r == s.(utterances := r.utterances, segments := r.segments, pc := Idle)
      && r.utterances.Keys == s.utterances.Keys && s.pc.uid in s.utterances
      && r.utterances[s.pc.uid].tracker.sequence == s.utterances[s.pc.uid].tracker.sequence
      && r.utterances[s.pc.uid].final == s.pc.event.final
      && forall other :: other in s.utterances && other != s.pc.uid ==> r.utterances[other] == s.utterances[other]
  {
    hide *;
    FinishIs(w, s, clock);
    SettleWrites(w, s, s.pc.uid, s.pc.event, clock);
  }

  lemma {:induction false} FinishIs(w: World, s: Session, clock: real)
    requires s.pc.RollingBack? && Resumable(w, s)
    ensures s.pc.uid in s.utterances && s.utterances[s.pc.uid].tracker.verdict.Some?
    ensures Tracked(w, s.utterances[s.pc.uid].tracker)
    ensures IngestFinish(w, s, clock) == Settle(w, s, s.pc.uid, s.pc.event, clock)
  {
    hide Tracked, Settle;
  }

  /** An event's first half and then, if it waits, its second. */
  lemma {:induction false} EventHalves(w: World, s: Session, e: Event, clock: real, later: real)
    requires Sound(w, s) && s.pc == Idle
    ensures var r := Perform(w, s, Ingest(e, clock));
      && Sound(w, r) && (r.pc == Idle || r.pc.RollingBack?) && (r.pc.RollingBack? ==> Resumable(w, r))
      && AfterEvent(w, s, e, clock, later) == if r.pc.RollingBack? then IngestFinish(w, r, later) else r
  {
    AllTracked(w, s);
    IngestStartSound(w, s, e, clock);
    var i := IngestStart(w, s, e, clock);
    if i.Cut? { IngestFinishSound(w, i.state, later); }
    hide Sound, Tracked, IngestStart, IngestFinish;
  }

  lemma {:induction false} UnnamedGoes(s: Session, e: Event)
    requires Listed(s)
    ensures e.utterance.Some? ==> UtteranceId(s, e) == e.utterance.value && Counted(s, e) == s
    ensures e.utterance.None? ==>
      var c := Counted(s, e);
      if s.autoId.Some? && !s.utterances[s.autoId.value].final
      then UtteranceId(s, e) == s.autoId.value && c == s
      else UtteranceId(s, e) == AutoName(c.nextUtterance) && c.nextUtterance == s.nextUtterance + 1
  {
  }

  lemma {:induction false} SoundListed(w: World, s: Session)
    requires Sound(w, s)
    ensures Listed(s)
  {
  }

  /** What the first half of an event has done already. */
  ghost predicate Begun(s: Session, e: Event, r: Session, uid: string) {
    && s.lastSequence < e.sequence == r.lastSequence && Names(s, e, r, uid)
    && uid in r.utterances && r.utterances.Keys == s.utterances.Keys + {uid}
    && r.order == (if uid in s.utterances then s.order else s.order + [uid])
    && r.utterances[uid].tracker.sequence == e.sequence
    && (r.pc == Idle || r.pc.RollingBack?)
  }

  lemma {:induction false} EventBegins(w: World, s: Session, e: Event, clock: real)
    requires Sound(w, s) && s.pc == Idle
    ensures var r := Perform(w, s, Ingest(e, clock));
      if Refusal(w, s, e).Some? then r == s.(nextUtterance := r.nextUtterance) && s.nextUtterance <= r.nextUtterance
      else Begun(s, e, r, UtteranceId(s, e))
  {
    var r, uid := Perform(w, s, Ingest(e, clock)), UtteranceId(s, e);
    EventIs(w, s, e, clock, 0.0);
    EventHalves(w, s, e, clock, 0.0);
    if Refusal(w, s, e).Some? { CounterMoves(w, s, e, clock); }
    hide Sound, Perform, AfterEvent, Refusal, Writes, Keeps, PutsOff, Stabilises, IngestFinish, UtteranceId, Counted,
         Contradicts;
    if r.pc.RollingBack? {
      FinishNames(w, r, 0.0);
      FinishBegun(w, s, e, r, IngestFinish(w, r, 0.0), uid);
    } else if Refusal(w, s, e).None? {
      HearsBegun(s, e, r, uid);
    }
  }

  lemma {:induction false} HearsBegun(s: Session, e: Event, r: Session, uid: string)
    requires Hears(s, e, r, uid) && Names(s, e, r, uid) && r.pc == Idle
    ensures Begun(s, e, r, uid)
  {
  }

  lemma {:induction false} FinishBegun(w: World, s: Session, e: Event, r: Session, f: Session, uid: string)
    requires r.pc.RollingBack? && s.pc == Idle
    requires f == r.(utterances := f.utterances, segments := f.segments, pc := Idle)
    requires f.utterances.Keys == r.utterances.Keys && r.pc.uid in r.utterances
    requires f.utterances[r.pc.uid].tracker.sequence == r.utterances[r.pc.uid].tracker.sequence
    requires forall other :: other in r.utterances && other != r.pc.uid ==> f.utterances[other] == r.utterances[other]
    requires if Refusal(w, s, e).Some? then f == s.(nextUtterance := f.nextUtterance)
             else Hears(s, e, f, uid) && Names(s, e, f, uid)
    ensures Refusal(w, s, e).None? ==> Begun(s, e, r, uid)
  {
    hide Refusal, Bystands, Counted;
  }

  lemma {:induction false} EventRenames(w: World, s: Session, e: Event, clock: real)
    requires Sound(w, s) && s.pc == Idle
    ensures Renames(s, Ingest(e, clock), Perform(w, s, Ingest(e, clock)))
  {
    EventBegins(w, s, e, clock);
    SoundListed(w, s);
    UnnamedGoes(s, e);
    hide Sound, Perform, Refusal, UtteranceId, Counted, AutoName;
  }

  lemma {:induction false} CounterMoves(w: World, s: Session, e: Event, clock: real)
    requires Sound(w, s) && s.pc == Idle && Refusal(w, s, e).Some?
    ensures s.nextUtterance <= Perform(w, s, Ingest(e, clock)).nextUtterance
  {
    hide Sound, Checked, Admissible, Hear, UtteranceId, NeedsNewAuto, Tracked;
    AllTracked(w, s);
  }

  lemma {:induction false} ActionRenames(w: World, s: Session, a: Action)
    requires Sound(w, s)
    ensures Renames(s, a, Perform(w, s, a))
  {
    StandingRenames(s, a);
    match a
    case Ingest(e, clock) => if s.pc == Idle { EventRenames(w, s, e, clock); }
    case Resume(clock) => if s.pc.RollingBack? { ResumeRenames(w, s, clock); }
    case Reset =>
    case _ =>
      ActionSteady(w, s, a);
      SteadyRenames(s, a, Perform(w, s, a));
  }

  lemma {:induction false} StandingRenames(s: Session, a: Action)
    ensures Renames(s, a, s)
  {
  }

  lemma {:induction false} SteadyRenames(s: Session, a: Action, r: Session)
    requires Steady(s, r)
    ensures Renames(s, a, r)
  {
  }

  lemma {:induction false} ResumeRenames(w: World, s: Session, clock: real)
    requires Sound(w, s) && s.pc.RollingBack?
    ensures Renames(s, Resume(clock), Perform(w, s, Resume(clock)))
  {
    IngestFinishSound(w, s, clock);
    ResumeIs(w, s, clock);
    hide *;
    FinishNames(w, s, clock);
    FinishRenames(s, clock, IngestFinish(w, s, clock));
  }

  lemma {:induction false} ResumeIs(w: World, s: Session, clock: real)
    requires Sound(w, s) && s.pc.RollingBack?
    ensures Resumable(w, s) && Perform(w, s, Resume(clock)) == IngestFinish(w, s, clock)
  {
    hide Sound, IngestFinish, Tracked, IngestStart, Evaluate, Resulted, NextReady, Dispatched, Attached, DetachStart,
         DetachFinish, ResetStart, CloseStart;
    IngestFinishSound(w, s, clock);
  }

  lemma {:induction false} FinishRenames(s: Session, clock: real, r: Session)
    requires r == s.(utterances := r.utterances, segments := r.segments, pc := Idle)
    requires r.utterances.Keys == s.utterances.Keys
    ensures Renames(s, Resume(clock), r)
  {
  }

  ghost predicate Mentions(actions: seq<Action>, name: string) {
    exists a :: a in actions && a.Ingest? && a.event.utterance == Some(name)
  }

  /** Unnamed events go to an utterance the session has named, and a name it has yet to
      hand out is in use only if some event brought it. */
  ghost predicate Naming(s: Session, actions: seq<Action>) {
    && (s.autoId.Some? ==> exists k: nat :: k <= s.nextUtterance && s.autoId.value == AutoName(k))
    && (forall k: nat :: s.nextUtterance < k && AutoName(k) in s.utterances ==> Mentions(actions, AutoName(k)))
  }

  lemma {:induction false} MentionsLater(actions: seq<Action>, a: Action, name: string)
    requires Mentions(actions, name) || (a.Ingest? && a.event.utterance == Some(name))
    ensures Mentions(actions + [a], name)
  {
    if b :| b in actions && b.Ingest? && b.event.utterance == Some(name) {
      assert b in actions + [a];
    } else {
      assert a in actions + [a];
    }
  }

  lemma {:induction false} StepNaming(s: Session, a: Action, r: Session, actions: seq<Action>)
    requires Naming(s, actions) && Renames(s, a, r)
    ensures Naming(r, actions + [a])
  {
    hide Mentions;
    if r.autoId.Some? && r.autoId != s.autoId {
      assert r.autoId.value == AutoName(r.nextUtterance);
    }
    forall k: nat | r.nextUtterance < k && AutoName(k) in r.utterances
      ensures Mentions(actions + [a], AutoName(k))
    {
      if AutoName(k) !in s.utterances && a.event.utterance == None { AutoNamesApart(k, r.nextUtterance); }
      MentionsLater(actions, a, AutoName(k));
    }
  }

  lemma {:induction false} RunNaming(w: World, s: Session, actions: seq<Action>, before: seq<Action>)
    requires Sound(w, s) && Naming(s, before)
    ensures Naming(RunOf(w, s, actions), before + actions)
    decreases |actions|
  {
    hide Sound, Perform, Naming, Renames;
    if actions == [] {
      assert before + [] == before;
    } else {
      PerformSound(w, s, actions[0]);
      ActionRenames(w, s, actions[0]);
      StepNaming(s, actions[0], Perform(w, s, actions[0]), before);
      RunNaming(w, Perform(w, s, actions[0]), actions[1..], before + [actions[0]]);
      assert before + [actions[0]] + actions[1..] == before + actions;
    }
  }

  /** Without resets and other unnamed events the next unnamed event's utterance stays. */
  lemma {:induction false} RunStays(w: World, s: Session, actions: seq<Action>)
    requires Sound(w, s) && forall a :: a in actions ==> !a.Reset? && !Unnamed(a)
    ensures var r := RunOf(w, s, actions); r.autoId == s.autoId && s.utterances.Keys <= r.utterances.Keys
    decreases |actions|
  {
    hide Sound, Perform;
    if actions != [] {
      assert actions[0] in actions;
      PerformSound(w, s, actions[0]);
      ActionRenames(w, s, actions[0]);
      RunStays(w, Perform(w, s, actions[0]), actions[1..]);
    }
  }

  ghost predicate Accepted(s: Session, e: Event, r: Session) {
    s.lastSequence < e.sequence == r.lastSequence
  }

  /** Where an unnamed event goes, in session `s`, after one that `uid` heard. */
  ghost predicate Follows(w: World, s: Session, uid: string, e: Event, r: Session, actions: seq<Action>) {
    uid in s.utterances
    && if !Accepted(s, e, r) then r.utterances == s.utterances
       else if !s.utterances[uid].final then
         && Hears(s, e, r, uid) && r.utterances.Keys == s.utterances.Keys
         && (e.final || S.Protects(w.u, s.utterances[uid].tracker.e.(text := e.text)) ==> Writes(s, e, r, uid))
       else exists k: nat :: Starts(s, uid, e, r, k) && (AutoName(k) in s.utterances ==> Mentions(actions, AutoName(k)))
  }

  ghost predicate Starts(s: Session, uid: string, e: Event, r: Session, k: nat) {
    AutoName(k) != uid && Hears(s, e, r, AutoName(k))
  }

  lemma {:induction false} NextFollows(w: World, s: Session, uid: string, e: Event, clock: real, later: real,
                                       actions: seq<Action>)
    requires Sound(w, s) && s.pc == Idle && s.autoId == Some(uid) && Naming(s, actions) && e.utterance.None?
    ensures Follows(w, s, uid, e, AfterEvent(w, s, e, clock, later), actions)
  {
    EventIs(w, s, e, clock, later);
    SoundListed(w, s);
    UnnamedGoes(s, e);
    var r := AfterEvent(w, s, e, clock, later);
    AutoKnown(s);
    hide Sound, AfterEvent, Refusal, Counted, Keeps, PutsOff, Stabilises, Writes, Hears, S.Protects, UtteranceId,
         Contradicts, Naming;
    if Refusal(w, s, e).Some? {
      RefusedFollows(w, s, uid, e, r, actions);
    } else if s.utterances[uid].final {
      StartsNext(w, s, uid, e, r, Counted(s, e).nextUtterance, actions);
    } else {
      ContradictsIff(w, s, e, uid);
      GoesOnThere(w, s, uid, e, r, actions);
    }
  }

  lemma {:induction false} AutoKnown(s: Session)
    requires Listed(s)
    ensures s.autoId.Some? ==> s.autoId.value in s.utterances
  {
  }

  lemma {:induction false} ContradictsIff(w: World, s: Session, e: Event, uid: string)
    requires uid == UtteranceId(s, e) && uid in s.utterances
    ensures Contradicts(w, s, e) <==> !S.Protects(w.u, s.utterances[uid].tracker.e.(text := e.text))
  {
  }

  lemma {:induction false} RefusedFollows(w: World, s: Session, uid: string, e: Event, r: Session, actions: seq<Action>)
    requires uid in s.utterances && r == s.(nextUtterance := r.nextUtterance)
    ensures Follows(w, s, uid, e, r, actions)
  {
    hide Hears, Writes, Mentions, Starts, S.Protects;
  }

  lemma {:induction false} GoesOnThere(w: World, s: Session, uid: string, e: Event, r: Session, actions: seq<Action>)
    requires uid in s.utterances && !s.utterances[uid].final && Hears(s, e, r, uid)
    requires e.final || S.Protects(w.u, s.utterances[uid].tracker.e.(text := e.text)) ==> Writes(s, e, r, uid)
    ensures Follows(w, s, uid, e, r, actions)
  {
    hide Writes, Bystands, Mentions, Starts, S.Protects;
    assert r.utterances.Keys == s.utterances.Keys;
  }

  lemma {:induction false} StartsNext(w: World, s: Session, uid: string, e: Event, r: Session, next: nat,
                                      actions: seq<Action>)
    requires uid in s.utterances && s.utterances[uid].final && s.autoId == Some(uid) && Naming(s, actions)
    requires next == s.nextUtterance + 1 && Hears(s, e, r, AutoName(next))
    ensures Follows(w, s, uid, e, r, actions)
  {
    hide Writes, Bystands, Mentions, S.Protects;
    var k: nat :| k <= s.nextUtterance && uid == AutoName(k);
    if AutoName(next) == uid { AutoNamesApart(k, next); }
    assert Starts(s, uid, e, r, next);
  }

  /** Some utterance heard the unnamed event, and the next one, whatever happened in
      between, goes to it, or, once it is final, to one under a name of the session's. */
  ghost predicate GoesOn(w: World, heard: Session, first: Event, s: Session, e: Event, r: Session,
                         actions: seq<Action>)
  {
    exists uid :: uid in heard.utterances && heard.utterances[uid].tracker.sequence == first.sequence
                  && Follows(w, s, uid, e, r, actions)
  }

  /** In any run: after an accepted event without a name, through any actions but resets
      and other such events (so through events with names, timers, results and
      connections), the next event without a name goes to the utterance that heard the
      first and opens no other, and its text becomes the event's unless a partial
      contradicts what is protected. Once that utterance is final it goes to another one
      instead, under the session's next name, which is in use only if an event of the run
      brought it. A refused event changes no utterance. */
  lemma {:induction false} UnnamedGoOn(w: World, id: string, before: seq<Action>, first: Event, clock: real,
                                       between: seq<Action>, e: Event, at: real, later: real)
    requires w.settings.Valid() && first.utterance.None? && e.utterance.None?
    requires forall a :: a in between ==> !a.Reset? && !Unnamed(a)
    ensures Sound(w, Opened(id)) && Sound(w, RunOf(w, Opened(id), before))
    ensures var s := RunOf(w, Opened(id), before); var h := Perform(w, s, Ingest(first, clock));
      Sound(w, h) && Sound(w, RunOf(w, h, between))
    ensures var s := RunOf(w, Opened(id), before); var h := Perform(w, s, Ingest(first, clock));
            var n := RunOf(w, h, between);
      s.pc == Idle && Accepted(s, first, h) && n.pc == Idle ==>
        GoesOn(w, h, first, n, e, AfterEvent(w, n, e, at, later), before + [Ingest(first, clock)] + between)
  {
    OpenedSound(w, id);
    RunSound(w, Opened(id), before);
    var s, a := RunOf(w, Opened(id), before), Ingest(first, clock);
    PerformSound(w, s, a);
    var h := Perform(w, s, a);
    RunSound(w, h, between);
    var n := RunOf(w, h, between);
    OpenedNaming(id);
    RunNaming(w, Opened(id), before, []);
    assert [] + before == before;
    ActionRenames(w, s, a);
    StepNaming(s, a, h, before);
    RunNaming(w, h, between, before + [a]);
    RunStays(w, h, between);
    hide *;
    if s.pc == Idle && Accepted(s, first, h) && n.pc == Idle {
      FirstHeard(w, s, first, clock);
      var uid := UtteranceId(s, first);
      NextFollows(w, n, uid, e, at, later, before + [a] + between);
      GoesOnBy(w, h, first, n, e, AfterEvent(w, n, e, at, later), before + [a] + between, uid);
    }
  }

  lemma {:induction false} OpenedNaming(id: string)
    ensures Naming(Opened(id), [])
  {
  }

  lemma {:induction false} FirstHeard(w: World, s: Session, e: Event, clock: real)
    requires Sound(w, s) && s.pc == Idle && e.utterance.None? && Accepted(s, e, Perform(w, s, Ingest(e, clock)))
    ensures var h, uid := Perform(w, s, Ingest(e, clock)), UtteranceId(s, e);
      h.autoId == Some(uid) && uid in h.utterances && h.utterances[uid].tracker.sequence == e.sequence
  {
    EventBegins(w, s, e, clock);
    hide Sound, Perform, Refusal, UtteranceId, Counted;
  }

  lemma {:induction false} GoesOnBy(w: World, heard: Session, first: Event, s: Session, e: Event, r: Session,
                                    actions: seq<Action>, uid: string)
    requires uid in heard.utterances && heard.utterances[uid].tracker.sequence == first.sequence
    requires Follows(w, s, uid, e, r, actions)
    ensures GoesOn(w, heard, first, s, e, r, actions)
  {
    hide Follows;
  }

  /** A named event is heard by the utterance it names, or refused. */
  lemma {:induction false} NamedHeard(w: World, s: Session, e: Event, clock: real, later: real)
    requires Sound(w, s) && s.pc == Idle && e.utterance.Some?
    ensures var r := AfterEvent(w, s, e, clock, later);
      if Accepted(s, e, r) then Hears(s, e, r, e.utterance.value) else r.utterances == s.utterances
  {
    AcceptedHears(w, s, e, clock, later);
    hide Sound, AfterEvent, Hears, Accepted, Names;
  }

  /** A client may take the name the session would hand out next: then an unnamed event
      joins the client's utterance instead of opening its own. */
  lemma {:induction false} NamesCanClash(w: World, id: string, named: Event, c1: real, l1: real, e: Event, c2: real,
                                         l2: real)
    requires w.settings.Valid() && named.utterance == Some("auto:1") && e.utterance.None?
    ensures Sound(w, Opened(id))
    ensures var s := Opened(id); var h := AfterEvent(w, s, named, c1, l1);
      && Accepted(s, named, h) ==>
        && Sound(w, h) && h.pc == Idle
        && var r := AfterEvent(w, h, e, c2, l2);
           Accepted(h, e, r) ==> Hears(h, e, r, "auto:1") && r.utterances.Keys == {"auto:1"}
  {
    OpenedSound(w, id);
    var s := Opened(id);
    var h := AfterEvent(w, s, named, c1, l1);
    AcceptedHears(w, s, named, c1, l1);
    AfterSound(w, s, named, c1, l1);
    hide AfterEvent, Hears, Accepted, Sound;
    if Accepted(s, named, h) {
      assert h.autoId == None && h.nextUtterance == 0 && h.utterances.Keys == {"auto:1"};
      hide *;
      FirstUnnamed(w, h, e, c2, l2);
    }
  }

  lemma {:induction false} FirstUnnamed(w: World, s: Session, e: Event, clock: real, later: real)
    requires Sound(w, s) && s.pc == Idle && s.autoId == None && s.nextUtterance == 0 && e.utterance.None?
    requires s.utterances.Keys == {"auto:1"}
    ensures var r := AfterEvent(w, s, e, clock, later);
      Accepted(s, e, r) ==> Hears(s, e, r, "auto:1") && r.utterances.Keys == {"auto:1"}
  {
    AcceptedHears(w, s, e, clock, later);
    FirstName(s, e);
    hide *;
  }

  lemma {:induction false} FirstName(s: Session, e: Event)
    requires s.autoId == None && s.nextUtterance == 0 && e.utterance.None?
    ensures UtteranceId(s, e) == "auto:1"
  {
    assert "auto:" + Decimal(1) == "auto:1";
  }

  lemma {:induction false} AcceptedHears(w: World, s: Session, e: Event, clock: real, later: real)
    requires Sound(w, s) && s.pc == Idle
    ensures var r, uid := AfterEvent(w, s, e, clock, later), UtteranceId(s, e);
      if Accepted(s, e, r)
      then Hears(s, e, r, uid) && Names(s, e, r, uid) && r.utterances.Keys == s.utterances.Keys + {uid}
      else r.utterances == s.utterances
  {
    EventIs(w, s, e, clock, later);
    hide Sound, AfterEvent, Refusal, Counted, Keeps, PutsOff, Stabilises, Writes, Bystands, UtteranceId, Contradicts,
         Names;
  }

  lemma {:induction false} AfterSound(w: World, s: Session, e: Event, clock: real, later: real)
    requires Sound(w, s) && s.pc == Idle
    ensures Sound(w, AfterEvent(w, s, e, clock, later)) && AfterEvent(w, s, e, clock, later).pc == Idle
  {
    IngestStartSound(w, s, e, clock);
    EventHalves(w, s, e, clock, later);
    var r := Perform(w, s, Ingest(e, clock));
    if r.pc.RollingBack? { IngestFinishSound(w, r, later); }
    hide Sound, Perform, IngestFinish, IngestStart, AfterEvent;
  }
}
