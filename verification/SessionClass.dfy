/** The session's own loops and assignments (app/session/state.py), each proved to be its
    atomic section. */
module SessionClass {
  import opened Wrappers
  import opened Text
  import opened Revision
  import opened Session
  import opened SessionInvariant
  import opened SessionRuns
  import opened SessionSteps
  import S = Stability
  import G = Segmentation

  // -------- Loops over segments

  /** The utterance's own segments, in order. */
  method Mine(segments: seq<Segment>, uid: string) returns (mine: seq<Segment>)
    ensures mine == Of(segments, uid)
  {
    mine := [];
    for k := 0 to |segments|
      invariant mine + Of(segments[k..], uid) == Of(segments, uid)
    {
      ghost var rest := segments[k..];
      assert rest[0] == segments[k] && rest[1..] == segments[k + 1..];
      if segments[k].uid == uid {
        assert (mine + [segments[k]]) + Of(segments[k + 1..], uid) == mine + Of(rest, uid);
        mine := mine + [segments[k]];
      }
    }
  }

  /** Where the utterance's `k`-th segment stands in the whole list. */
  method PositionOf(segments: seq<Segment>, uid: string, k: nat) returns (index: nat)
    requires k < |Of(segments, uid)|
    ensures index == IndexOf(segments, uid, k)
  {
    index := 0;
    var left := k;
    while segments[index].uid != uid || left > 0
      invariant index < |segments| && 0 <= left < |Of(segments[index..], uid)|
      invariant index + IndexOf(segments[index..], uid, left) == IndexOf(segments, uid, k)
      decreases |segments| - index
    {
      assert segments[index..][0] == segments[index] && segments[index..][1..] == segments[index + 1..];
      if segments[index].uid == uid { left := left - 1; }
      index := index + 1;
    }
    assert segments[index..][0] == segments[index];
  }

  method RetryFailed(segments: seq<Segment>, uid: string) returns (r: seq<Segment>)
    ensures r == Retried(segments, uid)
  {
    r := [];
    for k := 0 to |segments|
      invariant r == Retried(segments, uid)[..k]
    {
      var g := segments[k];
      r := r + [if g.uid == uid && g.status == Failed then g.(status := Ready) else g];
    }
  }

  method StopRunning(segments: seq<Segment>) returns (r: seq<Segment>)
    ensures r == Stopped(segments)
  {
    r := [];
    for k := 0 to |segments|
      invariant r == Stopped(segments)[..k]
    {
      var g := segments[k];
      r := r + [if g.status == Running then g.(status := Ready) else g];
    }
  }

  /** The first segment with this id, or the end. */
  method Seek(segments: seq<Segment>, id: nat) returns (i: nat)
    ensures i == Find(segments, id)
  {
    i := 0;
    while i < |segments| && segments[i].id != id
      invariant i <= |segments| && i + Find(segments[i..], id) == Find(segments, id)
    {
      i := i + 1;
    }
  }

  method SeekReady(segments: seq<Segment>) returns (i: nat)
    ensures i == FirstReady(segments)
  {
    i := 0;
    while i < |segments| && segments[i].status != Ready
      invariant i <= |segments| && i + FirstReady(segments[i..]) == FirstReady(segments)
    {
      i := i + 1;
    }
  }

  method CountWaiting(segments: seq<Segment>) returns (n: nat)
    ensures n == Waiting(segments)
  {
    n := 0;
    for k := 0 to |segments|
      invariant n + Waiting(segments[k..]) == Waiting(segments)
    {
      if segments[k].status in {Ready, Running} { n := n + 1; }
    }
  }

  // -------- The session

  lemma {:induction false} HearRefusal(w: World, s: Session, e: Event, uid: string, clock: real)
    requires w.settings.Valid() && (uid in s.utterances ==> Tracked(w, s.utterances[uid].tracker))
    ensures Hear(w, s, e, uid, clock).Refused? ==> Hear(w, s, e, uid, clock).error == PipelineError
  {
    hide Tracked, S.Observed, Planned, Settle;
  }

  /** Counting the utterance has no influence on whether it is admitted. */
  lemma {:induction false} CountedAdmits(w: World, s: Session, e: Event, uid: string)
    ensures Admissible(w, Counted(s, e), e, uid) == Admissible(w, s, e, uid)
  {
  }

  /** An event is refused by its checks or not at all. */
  lemma {:induction false} IngestUnfolds(w: World, s: Session, e: Event, clock: real)
    requires Sound(w, s) && s.pc == Idle
    ensures var uid, s1, r := UtteranceId(s, e), Counted(s, e), Perform(w, s, Action.Ingest(e, clock));
      && w.settings.Valid() && (uid in s1.utterances ==> Tracked(w, s1.utterances[uid].tracker))
      && Admissible(w, s1, e, uid) == Admissible(w, s, e, uid)
      && if Checked(w, s, e).Some? then r == s
         else if Admissible(w, s, e, uid).Some? then r == s1
         else !Hear(w, s1, e, uid, clock).Refused? && r == Hear(w, s1, e, uid, clock).state
  {
    hide Sound, Hear, Checked, Admissible, UtteranceId, Tracked;
    AllTracked(w, s);
    IngestStartSound(w, s, e, clock);
    CountedAdmits(w, s, e, UtteranceId(s, e));
    HearRefusal(w, Counted(s, e), e, UtteranceId(s, e), clock);
  }

  lemma {:induction false} HearUnfolds(w: World, s: Session, e: Event, uid: string, clock: real)
    requires w.settings.Valid() && (uid in s.utterances ==> Tracked(w, s.utterances[uid].tracker))
    requires !Hear(w, s, e, uid, clock).Refused?
    ensures Tracked(w, Known(s, uid, e).tracker)
    ensures var o := Judgement(w, Known(s, uid, e), e, clock);
      && o.Ok? && o.value.verdict.Some? && Tracked(w, o.value)
      && var h := Heard(s, e, uid, o.value);
      if o.value.verdict.value.conflict && !e.final then Hear(w, s, e, uid, clock).state == h
      else !Revise(w, h, e, uid, clock).Refused?
           && Hear(w, s, e, uid, clock).state == Revise(w, h, e, uid, clock).state
  {
    FreshTracked(w);
    hide S.Judged, S.Recorded, S.Evaluated, Revise;
  }

  lemma {:induction false} HeardHas(s: Session, e: Event, uid: string, t: S.Tracker)
    ensures var h := Heard(s, e, uid, t); uid in h.utterances && h.utterances[uid].tracker == t
  {
  }

  /** The utterance's tracker observes the text. */
  method Consult(w: World, t: S.Tracker, e: Event, clock: real) returns (r: S.Tracker)
    requires Tracked(w, t)
    requires S.Observed(w.settings.stability, w.u, t, e.text, e.sequence, e.final, e.confidences, e.pauseMs, clock).Ok?
    ensures r == S.Observed(w.settings.stability, w.u, t, e.text, e.sequence, e.final, e.confidences, e.pauseMs,
                            clock).value
  {
    hide S.Judged, S.Observed;
    var tracker := new S.StabilityTracker.Restored(w.settings.stability, w.u, t);
    var verdict := tracker.Observe(e.text, e.sequence, e.final, e.confidences, e.pauseMs, clock);
    return tracker.State();
  }

  /** The tracker protects its text up to `end`. */
  method Protect(w: World, t: S.Tracker, end: int, allowFinal: bool, clock: real)
      returns (r: Result<S.Tracker, S.Error>)
    requires Tracked(w, t)
    ensures r == S.Committed(w.settings.stability, w.u, t, end, allowFinal, clock)
  {
    hide S.Judged, S.Committed;
    var tracker := new S.StabilityTracker.Restored(w.settings.stability, w.u, t);
    var committed := tracker.Commit(end, allowFinal, clock);
    return if committed.Ok? then Ok(tracker.State()) else Err(committed.error);
  }

  /** The tracker is asked again; an uncontradicted answer moves the protected prefix. */
  method Restabilise(w: World, x: Weather, v: Utterance, uid: string)
      returns (r: Result<Utterance, S.Error>, conflict: bool)
    requires Tracked(w, v.tracker)
    ensures r == Restabilised(w, x, v, uid)
    ensures r.Ok? ==>
      conflict == S.Refreshed(w.settings.stability, w.u, v.tracker, x.clock(uid)).verdict.value.conflict
  {
    hide S.Judged, S.Committed, S.Refreshed;
    var tracker := new S.StabilityTracker.Restored(w.settings.stability, w.u, v.tracker);
    var verdict := tracker.Refresh(x.clock(uid));
    if verdict.None? { return Err(S.NothingObserved), false; }
    var t := tracker.State();
    if verdict.value.conflict { return Ok(v.(tracker := t)), true; }
    var committed := Protect(w, t, verdict.value.stableEnd, v.final, x.clock(uid));
    if committed.Err? { return Err(committed.error), false; }
    return Ok(v.(tracker := committed.value, stableEnd := verdict.value.stableEnd)), false;
  }

  lemma {:induction false} ResumeIs(w: World, s: Session, clock: real)
    requires Sound(w, s) && s.pc.RollingBack?
    ensures s.pc.uid in s.utterances && s.utterances[s.pc.uid].tracker.verdict.Some?
    ensures Tracked(w, s.utterances[s.pc.uid].tracker)
    ensures Perform(w, s, Action.Resume(clock)) == Settle(w, s, s.pc.uid, s.pc.event, clock)
  {
    IngestFinishSound(w, s, clock);
    hide Sound, Tracked, Settle;
  }

  class TranslationSession {
    const id: string
    var w: World
    var lastSequence: int
    var generation: nat
    var utterances: map<string, Utterance>
    var order: seq<string>
    var segments: seq<Segment>
    var autoId: Option<string>
    var nextUtterance: nat
    var nextSegment: nat
    var active: Option<nat>
    var connected: bool
    var closed: bool
    var pc: Pc

    function State(): Session
      reads this
    {
      Session(id, lastSequence, generation, utterances, order, segments, autoId, nextUtterance, nextSegment,
              active, connected, closed, pc)
    }

    constructor (id: string, w: World)
      requires w.settings.Valid()
      ensures State() == Opened(id) && this.w == w
    {
      this.id, this.w := id, w;
      lastSequence, generation, utterances, order, segments := -1, 0, map[], [], [];
      autoId, nextUtterance, nextSegment, active, connected, closed, pc := None, 0, 0, None, false, false, Idle;
    }

    /** Other settings, taken only before the first utterance. */
    method Configure(settings: Settings) returns (refused: bool)
      requires Sound(w, State()) && settings.Valid()
      modifies this`w
      ensures refused <==> utterances != map[]
      ensures w == if refused then old(w) else old(w).(settings := settings)
      ensures Sound(w, State())
    {
      if utterances != map[] { return true; }
      ConfiguredSound(w, State(), settings);
      w := w.(settings := settings);
      return false;
    }

    // -------- Ingesting

    /** An event up to the point where dropped segments must be invalidated. */
    method Ingest(e: Event, clock: real) returns (refused: Option<Error>)
      requires Sound(w, State()) && pc == Idle
      modifies this`lastSequence, this`utterances, this`order, this`segments, this`autoId, this`nextUtterance,
               this`active, this`pc
      ensures State() == Perform(w, old(State()), Action.Ingest(e, clock))
      ensures refused == Refusal(w, old(State()), e)
      ensures refused.Some? ==> State() == old(State()).(nextUtterance := nextUtterance)
    {
      hide Sound, IngestStart, Hear, Checked, Admissible, UtteranceId, Tracked;
      IngestUnfolds(w, State(), e, clock);
      refused := Check(e);
      if refused.Some? { return; }
      var uid := NameUtterance(e);
      refused := Admit(e, uid);
      if refused.Some? { return; }
      Observe(e, uid, clock);
    }

    method Check(e: Event) returns (refused: Option<Error>)
      ensures refused == Checked(w, State(), e)
    {
      if e.session.Some? && e.session.value != id { return Some(SessionMismatch); }
      if e.sequence <= lastSequence { return Some(StaleSequence); }
      if (e.language.Some? && e.language.value != w.settings.sourceLanguage)
         || (e.target.Some? && e.target.value != w.settings.targetLanguage) {
        return Some(LanguageMismatch);
      }
      if |e.text| > w.settings.maxSourceChars { return Some(SourceLimit); }
      return None;
    }

    method NameUtterance(e: Event) returns (uid: string)
      modifies this`nextUtterance
      ensures uid == UtteranceId(old(State()), e)
      ensures State() == Counted(old(State()), e)
    {
      if e.utterance.Some? { return e.utterance.value; }
      if autoId.Some? && autoId.value in utterances && !utterances[autoId.value].final { return autoId.value; }
      nextUtterance := nextUtterance + 1;
      return "auto:" + Decimal(nextUtterance);
    }

    method Admit(e: Event, uid: string) returns (refused: Option<Error>)
      ensures refused == Admissible(w, State(), e, uid)
    {
      var known := uid in utterances;
      if known && utterances[uid].speaker != e.speaker { return Some(SpeakerMismatch); }
      if known && utterances[uid].final && !e.final { return Some(FinalRequiresFinal); }
      var chars := Chars(utterances, order) - if known then |utterances[uid].text| else 0;
      var bytes := StateBytes(w, State()) - if known then w.bytes(utterances[uid].text) else 0;
      if chars + |e.text| > w.settings.maxSessionChars || bytes + w.bytes(e.text) > w.settings.maxStateBytes
         || (!known && |utterances| >= w.settings.maxUtterances) {
        return Some(SessionLimit);
      }
      return None;
    }

    /** The tracker observes the text; a contradicting partial is put off. */
    method Observe(e: Event, uid: string, clock: real)
      requires w.settings.Valid() && pc == Idle
      requires uid in utterances ==> Tracked(w, utterances[uid].tracker)
      requires !Hear(w, State(), e, uid, clock).Refused?
      modifies this`lastSequence, this`utterances, this`order, this`segments, this`autoId, this`active, this`pc
      ensures State() == Hear(w, old(State()), e, uid, clock).state
    {
      hide Hear, Revise, Tracked, S.Judged, S.Observed, Heard;
      HearUnfolds(w, State(), e, uid, clock);
      var conflict := Record(e, uid, clock);
      HeardHas(old(State()), e, uid, Judgement(w, Known(old(State()), uid, e), e, clock).value);
      if !(conflict && !e.final) {
        ReviseText(e, uid, clock);
      }
    }

    method Record(e: Event, uid: string, clock: real) returns (conflict: bool)
      requires Tracked(w, Known(State(), uid, e).tracker)
      requires var o := Judgement(w, Known(State(), uid, e), e, clock); o.Ok? && o.value.verdict.Some?
      modifies this`order, this`utterances, this`autoId, this`lastSequence
      ensures var o := Judgement(w, Known(old(State()), uid, e), e, clock).value;
        State() == Heard(old(State()), e, uid, o) && conflict == o.verdict.value.conflict
    {
      hide S.Judged, S.Observed, Tracked;
      var v := Known(State(), uid, e);
      var tracker := Consult(w, v.tracker, e, clock);
      if uid !in utterances { order := order + [uid]; }
      utterances := utterances[uid := v.(tracker := tracker)];
      if e.utterance.None? { autoId := Some(uid); }
      lastSequence := e.sequence;
      return tracker.verdict.value.conflict;
    }

    /** Whole segments that no longer match are dropped, or the event is settled at once. */
    method ReviseText(e: Event, uid: string, clock: real)
      requires uid in utterances && utterances[uid].tracker.verdict.Some? && Tracked(w, utterances[uid].tracker)
      requires !Revise(w, State(), e, uid, clock).Refused?
      modifies this`utterances, this`segments, this`active, this`pc
      ensures State() == Revise(w, old(State()), e, uid, clock).state
    {
      var mine := Mine(segments, uid);
      var plan := PlanRevision(w.u, utterances[uid].text, e.text, Spans(mine));
      if plan.rollbackIndex < |mine| {
        var index := PositionOf(segments, uid, plan.rollbackIndex);
        Rollback(uid, e, index);
      } else {
        SettleText(uid, e, clock);
      }
    }

    /** Segments from `index` on are dropped before the scheduler is told. */
    method Rollback(uid: string, e: Event, index: nat)
      requires index <= |segments|
      modifies this`segments, this`utterances, this`active, this`pc
      ensures State() == RollFor(old(State()), uid, e, index)
    {
      var affected := segments[index..];
      segments := segments[..index];
      for k := 0 to |affected|
        invariant Unselect(utterances, affected[k..]) == Unselect(old(utterances), affected)
        invariant State() == old(State()).(segments := old(segments)[..index], utterances := utterances)
      {
        var owner := affected[k].uid;
        if owner in utterances {
          utterances := utterances[owner := Released(utterances[owner], affected[k].start)];
        }
      }
      var identifiers := Ids(affected);
      if active.Some? && active.value in identifiers { active := None; }
      pc := RollingBack(uid, e, identifiers);
    }

    /** The new text, its protected prefix, and another chance for failed segments. */
    method SettleText(uid: string, e: Event, clock: real)
      requires uid in utterances && utterances[uid].tracker.verdict.Some? && Tracked(w, utterances[uid].tracker)
      modifies this`utterances, this`segments, this`pc
      ensures State() == Settle(w, old(State()), uid, e, clock)
    {
      hide S.Judged, S.Committed, Retried;
      var v := utterances[uid];
      utterances := utterances[uid := Retexted(v, e, v.tracker)];
      pc := Idle;
      var committed := Protect(w, v.tracker, v.tracker.verdict.value.stableEnd, e.final, clock);
      if committed.Err? { return; }
      utterances := utterances[uid := Retexted(v, e, v.tracker).(tracker := committed.value)];
      if e.final { segments := RetryFailed(segments, uid); }
    }

    /** The dropped segments have been invalidated. */
    method ResumeEvent(clock: real)
      requires Sound(w, State()) && pc.RollingBack?
      modifies this`utterances, this`segments, this`pc
      ensures State() == Perform(w, old(State()), Action.Resume(clock))
    {
      ResumeIs(w, State(), clock);
      hide Perform, Sound, Tracked, Settle;
      SettleText(pc.uid, pc.event, clock);
    }

    // -------- Evaluating

    /** A timer fired: utterances are visited in source order. */
    method EvaluateAll(x: Weather, uid: string, expected: nat)
      requires Sound(w, State()) && pc == Idle
      modifies this`utterances, this`segments, this`nextSegment, this`pc
      ensures State() == Perform(w, old(State()), Action.Timer(x, uid, expected))
    {
      hide Sound, Sweep, Selectable;
      SoundIsSelectable(w, State());
      if closed || expected != generation || uid !in utterances { return; }
      var outcome := VisitAll(x);
      if outcome != Raised { pc := Dispatching; }
    }

    method VisitAll(x: Weather) returns (outcome: Outcome)
      requires Selectable(w, State())
      modifies this`utterances, this`segments, this`nextSegment
      ensures (State(), outcome) == Sweep(w, x, old(State()), 0)
    {
      hide SelectUtterance, Pending, S.Judged;
      outcome := Carry;
      var k := 0;
      while k < |order| && outcome == Carry
        invariant k <= |order| && Selectable(w, State()) && Selectable(w, old(State()))
        invariant outcome == Carry ==> Sweep(w, x, State(), k) == Sweep(w, x, old(State()), 0)
        invariant outcome != Carry ==> (State(), outcome) == Sweep(w, x, old(State()), 0)
        decreases |order| - k
      {
        if Pending(w, State(), order[k]) {
          outcome := Select(x, order[k]);
        }
        k := k + 1;
      }
    }

    /** Takes segments of one utterance for as long as there is stable, complete source. */
    method Select(x: Weather, uid: string) returns (outcome: Outcome)
      requires uid in utterances && Selectable(w, State())
      modifies this`utterances, this`segments, this`nextSegment
      ensures (State(), outcome) == SelectUtterance(w, x, old(State()), uid)
      ensures Selectable(w, State()) && order == old(order)
    {
      hide S.Judged, SelectLoop, Restabilised, S.Refreshed;
      var stabilised, conflict := Restabilise(w, x, utterances[uid], uid);
      if stabilised.Err? { return if stabilised.error.NothingObserved? then Halt else Raised; }
      utterances := utterances[uid := stabilised.value];
      SelectLoopTracks(w, x, State(), uid, conflict);
      outcome := SelectMore(x, uid, conflict);
    }

    method SelectMore(x: Weather, uid: string, conflict: bool) returns (outcome: Outcome)
      requires uid in utterances
      modifies this`utterances, this`segments, this`nextSegment
      ensures (State(), outcome) == SelectLoop(w, x, old(State()), uid, conflict)
    {
      while HasContent(w.u, utterances[uid].text, utterances[uid].selectedEnd)
        invariant uid in utterances
        invariant SelectLoop(w, x, State(), uid, conflict) == SelectLoop(w, x, old(State()), uid, conflict)
        decreases |utterances[uid].text| - utterances[uid].selectedEnd
      {
        var v := utterances[uid];
        if |segments| >= w.settings.maxSegments { return Halt; }
        var waiting := CountWaiting(segments);
        if waiting >= w.settings.maxPending { return Halt; }
        var query := QueryFor(w, State(), v);
        var candidate := G.SegmentPrefix(w.u, w.g, query);
        if candidate.Err? { return Raised; }
        if conflict || !x.write(uid, v.selectedEnd) || candidate.value.None? {
          if v.final || x.overdue(uid, v.selectedEnd) {
            utterances := utterances[uid := v.(reported := true)];
            return Carry;
          }
          return if v.reported then Carry else Halt;
        }
        G.SegmentReach(w.u, w.g, query);
        Append(uid, candidate.value.value);
      }
      return Carry;
    }

    method Append(uid: string, chosen: G.Candidate)
      requires uid in utterances
      modifies this`utterances, this`segments, this`nextSegment
      ensures State() == Appended(old(State()), uid, old(utterances)[uid], chosen)
    {
      var v := utterances[uid];
      nextSegment := nextSegment + 1;
      segments := segments + [Segment(nextSegment, uid, chosen.start, chosen.end, chosen.text, v.revision, v.sequence,
                                      v.final, "", Ready)];
      utterances := utterances[uid := v.(selectedEnd := chosen.end)];
    }

    // -------- Dispatching and results

    /** The segment to submit now, if any. */
    method Offer() returns (index: Option<nat>)
      ensures index == NextReady(State())
    {
      if closed || !connected || active.Some? { return None; }
      var i := SeekReady(segments);
      return if i == |segments| then None else Some(i);
    }

    /** The scheduler took the job, or refused it and the segment stays ready. */
    method Offered(queued: bool)
      requires pc == Dispatching
      modifies this`segments, this`active, this`pc
      ensures var s := old(State());
        State() == if NextReady(s).Some? && queued then Dispatched(s, NextReady(s).value) else Resumed(s)
    {
      pc := Idle;
      var index := Offer();
      if index.Some? && queued {
        var g := segments[index.value];
        segments := segments[index.value := g.(status := Running)];
        active := Some(g.id);
      }
    }

    /** A translation, or None for any failure. Stale results are discarded; an accepted
        one raises exactly when it is a translation that cannot be proposed. */
    method OnResult(expected: nat, segment: nat, revision: nat, answer: Option<string>) returns (returned: bool)
      requires pc == Idle
      modifies this`segments, this`active, this`pc
      ensures State() == Resulted(w, old(State()), expected, segment, revision, answer)
      ensures !returned <==> Accepts(old(State()), expected, segment, revision)
                             && Unproposable(w, old(State()), answer)
    {
      var i := Seek(segments, segment);
      if closed || expected != generation || i == |segments| || segments[i].revision != revision
         || segments[i].status != Running || active != Some(segment) {
        return true;
      }
      var chars, bytes := TranslationChars(segments), StateBytes(w, State());
      active := None;
      if answer.None? || chars + |answer.value| > w.settings.maxTranslationChars
         || bytes + w.bytes(answer.value) > w.settings.maxStateBytes {
        segments := segments[i := segments[i].(status := Failed)];
      } else {
        segments := segments[i := segments[i].(status := Complete, translation := answer.value)];
        if Blank(w.u, answer.value) { return false; }
      }
      pc := Dispatching;
      return true;
    }

    // -------- Connection and lifetime

    method Connect() returns (refused: bool)
      requires pc == Idle
      modifies this`connected, this`pc
      ensures State() == Attached(old(State()))
      ensures refused == (old(connected) || old(closed))
    {
      if connected || closed { return true; }
      connected, pc := true, Dispatching;
      return false;
    }

    method Disconnect()
      requires pc == Idle
      modifies this`connected, this`generation, this`pc
      ensures State() == DetachStart(old(State()))
    {
      connected, generation, pc := false, generation + 1, Detaching;
    }

    /** The scheduler has cancelled the session's work. */
    method Disconnected()
      requires pc.Detaching?
      modifies this`segments, this`active, this`pc
      ensures State() == DetachFinish(old(State()))
    {
      segments := StopRunning(segments);
      active, pc := None, Idle;
    }

    method ResetAll()
      requires pc == Idle
      modifies this`generation, this`utterances, this`order, this`segments, this`autoId, this`active, this`pc
      ensures State() == ResetStart(old(State()))
    {
      generation := generation + 1;
      utterances, order, segments := map[], [], [];
      autoId, active, pc := None, None, Resetting;
    }

    method CloseAll()
      requires pc == Idle
      modifies this`closed, this`generation, this`pc
      ensures State() == CloseStart(old(State()))
    {
      closed, generation, pc := true, generation + 1, Closing;
    }
  }
}
