/** One session's streaming state machine (app/session/state.py). Each function is an
    atomic section under the session lock; `pc` says which scheduler call it awaits. */
module Session {
  import opened Wrappers
  import opened Text
  import opened Revision
  import S = Stability
  import G = Segmentation

  datatype Utterance = Utterance(
    tracker: S.Tracker, speaker: Option<string>, text: string, stableEnd: nat, selectedEnd: nat,
    revision: nat, sequence: int, final: bool, reported: bool)

  datatype Status = Ready | Running | Complete | Failed

  /** The source names segments "s" and a counter; `id` is that counter. */
  datatype Segment = Segment(
    id: nat, uid: string, start: nat, end: nat, source: string, revision: nat, sequence: int,
    final: bool, translation: string, status: Status)

  datatype Event = Event(
    session: Option<string>, language: Option<string>, target: Option<string>, sequence: int, text: string,
    final: bool, speaker: Option<string>, utterance: Option<string>,
    confidences: Option<seq<Option<real>>>, pauseMs: Option<real>)

  datatype Pc =
    | Idle
    | Dispatching
    | RollingBack(uid: string, event: Event, dropped: set<nat>)
    | Detaching
    | Resetting
    | Closing

  datatype Session = Session(
    id: string, lastSequence: int, generation: nat, utterances: map<string, Utterance>, order: seq<string>,
    segments: seq<Segment>, autoId: Option<string>, nextUtterance: nat, nextSegment: nat,
    active: Option<nat>, connected: bool, closed: bool, pc: Pc)

  datatype Settings = Settings(
    stability: S.Config, sourceLanguage: string, targetLanguage: string,
    maxSourceChars: nat, maxSessionChars: nat, maxStateBytes: nat, maxTranslationChars: nat,
    maxUtterances: nat, maxSegments: nat, maxPending: nat, maxTokens: nat, allowOversize: bool,
    contextSegments: nat)
  {
    predicate Valid() {
      stability.Valid() && stability.maxSourceChars == maxSourceChars && maxTokens >= 1
    }
  }

  /** Everything a session reads but does not own. */
  datatype World = World(u: Unicode, g: G.Grammar, bytes: string -> nat, settings: Settings)

  /** What the clock and the read/write policy say during one evaluation, by utterance
      and by how much of it has been selected. */
  datatype Weather = Weather(
    clock: string -> real, write: (string, nat) -> bool, overdue: (string, nat) -> bool)

  datatype Error =
    | SessionMismatch | StaleSequence | LanguageMismatch | SourceLimit | SpeakerMismatch
    | FinalRequiresFinal | SessionLimit | PipelineError

  function Opened(id: string): Session {
    Session(id, -1, 0, map[], [], [], None, 0, 0, None, false, false, Idle)
  }

  // -------- Reading the session

  function Of(segments: seq<Segment>, uid: string): (r: seq<Segment>)
    ensures forall g :: g in r <==> g in segments && g.uid == uid
  {
    if segments == [] then []
    else if segments[0].uid == uid then [segments[0]] + Of(segments[1..], uid)
    else Of(segments[1..], uid)
  }

  function Spans(segments: seq<Segment>): (r: seq<Span>)
    ensures |r| == |segments|
    ensures forall i :: 0 <= i < |r| ==> r[i] == Span(segments[i].start, segments[i].end)
  {
    seq(|segments|, i requires 0 <= i < |segments| => Span(segments[i].start, segments[i].end))
  }

  function Ids(segments: seq<Segment>): set<nat> {
    set g | g in segments :: g.id
  }

  predicate HasContent(u: Unicode, text: string, from: nat) {
    exists i :: from <= i < |text| && !u.isSpace(text[i])
  }

  function Waiting(segments: seq<Segment>): nat {
    if segments == [] then 0
    else (if segments[0].status in {Ready, Running} then 1 else 0) + Waiting(segments[1..])
  }

  function Joined(segments: seq<Segment>): string {
    if segments == [] then "" else if |segments| == 1 then segments[0].source
    else segments[0].source + "\n" + Joined(segments[1..])
  }

  function Context(segments: seq<Segment>, count: nat): string {
    if count == 0 then ""
    else if |segments| <= count then Joined(segments) else Joined(segments[|segments| - count..])
  }

  function Chars(utterances: map<string, Utterance>, order: seq<string>): nat {
    if order == [] then 0
    else (if order[0] in utterances then |utterances[order[0]].text| else 0) + Chars(utterances, order[1..])
  }

  function SourceBytes(w: World, utterances: map<string, Utterance>, order: seq<string>): nat {
    if order == [] then 0
    else (if order[0] in utterances then w.bytes(utterances[order[0]].text) else 0)
         + SourceBytes(w, utterances, order[1..])
  }

  function TranslationBytes(w: World, segments: seq<Segment>): nat {
    if segments == [] then 0 else w.bytes(segments[0].translation) + TranslationBytes(w, segments[1..])
  }

  function TranslationChars(segments: seq<Segment>): nat {
    if segments == [] then 0 else |segments[0].translation| + TranslationChars(segments[1..])
  }

  function StateBytes(w: World, s: Session): nat {
    SourceBytes(w, s.utterances, s.order) + TranslationBytes(w, s.segments)
  }

  // -------- Ingesting an event

  function Decimal(n: nat): string {
    if n < 10 then [('0' as int + n) as char] else Decimal(n / 10) + [('0' as int + n % 10) as char]
  }

  predicate NeedsNewAuto(s: Session, e: Event) {
    e.utterance.None? && (s.autoId.None? || s.autoId.value !in s.utterances || s.utterances[s.autoId.value].final)
  }

  function UtteranceId(s: Session, e: Event): string {
    if e.utterance.Some? then e.utterance.value
    else if NeedsNewAuto(s, e) then "auto:" + Decimal(s.nextUtterance + 1)
    else s.autoId.value
  }

  function Checked(w: World, s: Session, e: Event): Option<Error> {
    if e.session.Some? && e.session.value != s.id then Some(SessionMismatch)
    else if e.sequence <= s.lastSequence then Some(StaleSequence)
    else if (e.language.Some? && e.language.value != w.settings.sourceLanguage)
            || (e.target.Some? && e.target.value != w.settings.targetLanguage) then Some(LanguageMismatch)
    else if |e.text| > w.settings.maxSourceChars then Some(SourceLimit)
    else None
  }

  function Admissible(w: World, s: Session, e: Event, uid: string): Option<Error> {
    var known := uid in s.utterances;
    var chars := Chars(s.utterances, s.order) - if known then |s.utterances[uid].text| else 0;
    var bytes := StateBytes(w, s) - if known then w.bytes(s.utterances[uid].text) else 0;
    if known && s.utterances[uid].speaker != e.speaker then Some(SpeakerMismatch)
    else if known && s.utterances[uid].final && !e.final then Some(FinalRequiresFinal)
    else if chars + |e.text| > w.settings.maxSessionChars || bytes + w.bytes(e.text) > w.settings.maxStateBytes
            || (!known && |s.utterances| >= w.settings.maxUtterances) then Some(SessionLimit)
    else None
  }

  /** Why the event is refused, if it is: its own checks first, then the session's limits. */
  function Refusal(w: World, s: Session, e: Event): Option<Error> {
    if Checked(w, s, e).Some? then Checked(w, s, e) else Admissible(w, s, e, UtteranceId(s, e))
  }

  function Known(s: Session, uid: string, e: Event): Utterance {
    if uid in s.utterances then s.utterances[uid]
    else Utterance(S.Fresh, e.speaker, "", 0, 0, 0, 0, false, false)
  }

  /** The event is on record and the tracker has seen it. */
  ghost function Heard(s: Session, e: Event, uid: string, t: S.Tracker): Session {
    s.(utterances := s.utterances[uid := Known(s, uid, e).(tracker := t)],
       order := if uid in s.utterances then s.order else s.order + [uid],
       autoId := if e.utterance.None? then Some(uid) else s.autoId,
       lastSequence := e.sequence)
  }

  /** Each dropped segment gives its text back for selection. */
  function Unselect(utterances: map<string, Utterance>, dropped: seq<Segment>): (r: map<string, Utterance>)
    ensures r.Keys == utterances.Keys
  {
    if dropped == [] then utterances
    else
      var uid := dropped[0].uid;
      Unselect(if uid in utterances
               then utterances[uid := Released(utterances[uid], dropped[0].start)] else utterances,
               dropped[1..])
  }

  function Released(v: Utterance, start: nat): Utterance {
    v.(selectedEnd := if start < v.selectedEnd then start else v.selectedEnd, reported := false)
  }

  /** Whole segments from `index` on are invalid, in every utterance. */
  function Rolled(s: Session, index: nat): Session
    requires index <= |s.segments|
  {
    var dropped := s.segments[index..];
    s.(segments := s.segments[..index],
       utterances := Unselect(s.utterances, dropped),
       active := if s.active.Some? && s.active.value in Ids(dropped) then None else s.active)
  }

  /** Position in `segments` of the `k`-th segment of the utterance. */
  function IndexOf(segments: seq<Segment>, uid: string, k: nat): (i: nat)
    requires k < |Of(segments, uid)|
    ensures i < |segments|
  {
    if segments[0].uid != uid then 1 + IndexOf(segments[1..], uid, k)
    else if k == 0 then 0
    else 1 + IndexOf(segments[1..], uid, k - 1)
  }

  datatype Ingested =
    | Refused(error: Error, state: Session)
    | Deferred(state: Session)   // a partial contradicts the protected prefix
    | Cut(state: Session)        // awaiting the invalidation of dropped segments
    | Settled(state: Session)

  /** The event up to the point where dropped segments must be invalidated. */
  ghost function IngestStart(w: World, s: Session, e: Event, clock: real): Ingested
    requires w.settings.Valid() && forall v :: v in s.utterances ==> Tracked(w, s.utterances[v].tracker)
  {
    var uid := UtteranceId(s, e);
    var s1 := if NeedsNewAuto(s, e) then s.(nextUtterance := s.nextUtterance + 1) else s;
    if Checked(w, s, e).Some? then Refused(Checked(w, s, e).value, s)
    else if Admissible(w, s, e, uid).Some? then Refused(Admissible(w, s, e, uid).value, s1)
    else Hear(w, s1, e, uid, clock)
  }

  ghost function Hear(w: World, s: Session, e: Event, uid: string, clock: real): Ingested
    requires w.settings.Valid() && (uid in s.utterances ==> Tracked(w, s.utterances[uid].tracker))
  {
    FreshTracked(w);
    match S.Observed(w.settings.stability, w.u, Known(s, uid, e).tracker, e.text, e.sequence, e.final,
                     e.confidences, e.pauseMs, clock)
    case Err(_) => Refused(PipelineError, s)
    case Ok(t) =>
      if t.verdict.value.conflict && !e.final then Deferred(Heard(s, e, uid, t))
      else Revise(w, Heard(s, e, uid, t), e, uid, clock)
  }

  ghost function Revise(w: World, s: Session, e: Event, uid: string, clock: real): Ingested
    requires uid in s.utterances && s.utterances[uid].tracker.verdict.Some? && Tracked(w, s.utterances[uid].tracker)
  {
    var spans := Spans(Of(s.segments, uid));
    var plan := Planned(w.u, s.utterances[uid].text, e.text, spans);
    if plan.SpansOutOfOrder? then Refused(PipelineError, s)
    else if plan.rollbackIndex < |spans| then Cut(RollFor(s, uid, e, IndexOf(s.segments, uid, plan.rollbackIndex)))
    else Settled(Settle(w, s, uid, e, clock))
  }

  function RollFor(s: Session, uid: string, e: Event, index: nat): Session
    requires index <= |s.segments|
  {
    Rolled(s, index).(pc := RollingBack(uid, e, Ids(s.segments[index..])))
  }

  ghost predicate Tracked(w: World, t: S.Tracker) {
    S.Judged(w.settings.stability, w.u, t)
  }

  lemma {:induction false} FreshTracked(w: World)
    requires w.settings.Valid()
    ensures S.Judged(w.settings.stability, w.u, S.Fresh)
  {
  }

  function Retried(segments: seq<Segment>, uid: string): (r: seq<Segment>)
    ensures |r| == |segments|
    ensures forall i :: 0 <= i < |r| ==>
              r[i] == if segments[i].uid == uid && segments[i].status == Failed
                      then segments[i].(status := Ready) else segments[i]
  {
    seq(|segments|, i requires 0 <= i < |segments| =>
      if segments[i].uid == uid && segments[i].status == Failed then segments[i].(status := Ready) else segments[i])
  }

  function Retexted(v: Utterance, e: Event, t: S.Tracker): Utterance
    requires t.verdict.Some?
  {
    Utterance(t, v.speaker, e.text, t.verdict.value.stableEnd, v.selectedEnd,
              if e.text != v.text then v.revision + 1 else v.revision, e.sequence, e.final,
              if e.text != v.text then false else v.reported)
  }

  /** The rest of the event: new text, protected prefix, retried failures. */
  ghost function Settle(w: World, s: Session, uid: string, e: Event, clock: real): Session
    requires uid in s.utterances && s.utterances[uid].tracker.verdict.Some? && Tracked(w, s.utterances[uid].tracker)
  {
    var v := s.utterances[uid];
    var end := v.tracker.verdict.value.stableEnd;
    match S.Committed(w.settings.stability, w.u, v.tracker, end, e.final, clock)
    case Err(_) => s.(utterances := s.utterances[uid := Retexted(v, e, v.tracker)], pc := Idle)
    case Ok(t) =>
      s.(utterances := s.utterances[uid := Retexted(v, e, v.tracker).(tracker := t)],
         segments := if e.final then Retried(s.segments, uid) else s.segments,
         pc := Idle)
  }

  /** An interrupted event still knows its utterance and its verdict. */
  ghost predicate Resumable(w: World, s: Session) {
    s.pc.RollingBack? ==>
      s.pc.uid in s.utterances && s.utterances[s.pc.uid].tracker.verdict.Some?
      && Tracked(w, s.utterances[s.pc.uid].tracker)
  }

  ghost function IngestFinish(w: World, s: Session, clock: real): Session
    requires Resumable(w, s)
  {
    if s.pc.RollingBack? then Settle(w, s, s.pc.uid, s.pc.event, clock) else s
  }

  // -------- Selecting segments

  datatype Outcome = Carry | Halt | Raised

  function QueryFor(w: World, s: Session, v: Utterance): G.Query {
    G.Query(v.text, v.stableEnd, v.selectedEnd, Context(s.segments, w.settings.contextSegments),
            w.settings.maxTokens, w.settings.allowOversize)
  }

  function Selects(s: Session, uid: string, v: Utterance, c: G.Candidate): Segment {
    Segment(s.nextSegment + 1, uid, c.start, c.end, c.text, v.revision, v.sequence, v.final, "", Ready)
  }

  function Appended(s: Session, uid: string, v: Utterance, c: G.Candidate): Session {
    s.(segments := s.segments + [Selects(s, uid, v, c)], nextSegment := s.nextSegment + 1,
       utterances := s.utterances[uid := v.(selectedEnd := c.end)])
  }

  /** The candidate that would be written next, if any. */
  ghost function Choice(w: World, x: Weather, s: Session, uid: string, conflict: bool): Option<G.Candidate>
    requires uid in s.utterances
  {
    var v := s.utterances[uid];
    var c := G.Segmented(w.u, w.g, QueryFor(w, s, v));
    if c.Ok? && !conflict && x.write(uid, v.selectedEnd) then c.value else None
  }

  function Reported(s: Session, uid: string): Session
    requires uid in s.utterances
  {
    s.(utterances := s.utterances[uid := s.utterances[uid].(reported := true)])
  }

  predicate Blocked(w: World, s: Session) {
    |s.segments| >= w.settings.maxSegments || Waiting(s.segments) >= w.settings.maxPending
  }

  ghost function SelectLoop(w: World, x: Weather, s: Session, uid: string, conflict: bool): (Session, Outcome)
    requires uid in s.utterances
    decreases |s.utterances[uid].text| - s.utterances[uid].selectedEnd
  {
    var v := s.utterances[uid];
    if !HasContent(w.u, v.text, v.selectedEnd) then (s, Carry)
    else if Blocked(w, s) then (s, Halt)
    else if G.Segmented(w.u, w.g, QueryFor(w, s, v)).Err? then (s, Raised)
    else if Choice(w, x, s, uid, conflict).Some? then
      G.SegmentReach(w.u, w.g, QueryFor(w, s, v));
      SelectLoop(w, x, Appended(s, uid, v, Choice(w, x, s, uid, conflict).value), uid, conflict)
    else if v.final || x.overdue(uid, v.selectedEnd) then
      (Reported(s, uid), Carry)
    else (s, if v.reported then Carry else Halt)
  }

  /** Selecting touches no tracker. */
  lemma {:induction false} SelectLoopTracks(w: World, x: Weather, s: Session, uid: string, conflict: bool)
    requires uid in s.utterances && Selectable(w, s)
    ensures var r := SelectLoop(w, x, s, uid, conflict).0;
      Selectable(w, r) && r.order == s.order
    decreases |s.utterances[uid].text| - s.utterances[uid].selectedEnd
  {
    hide Selectable, HasContent, Blocked, Appended, Reported;
    var v := s.utterances[uid];
    var c := Choice(w, x, s, uid, conflict);
    if c.Some? {
      G.SegmentReach(w.u, w.g, QueryFor(w, s, v));
      EditTracks(w, s, uid, c.value);
      SelectLoopTracks(w, x, Appended(s, uid, v, c.value), uid, conflict);
    } else {
      EditTracks(w, s, uid, G.Candidate(0, 0, "", "", 0, false));
    }
  }

  lemma {:induction false} EditTracks(w: World, s: Session, uid: string, c: G.Candidate)
    requires uid in s.utterances && Selectable(w, s)
    ensures var n := Appended(s, uid, s.utterances[uid], c);
      && Selectable(w, n) && n.order == s.order && uid in n.utterances
      && n.utterances[uid].text == s.utterances[uid].text && n.utterances[uid].selectedEnd == c.end
    ensures Selectable(w, Reported(s, uid)) && Reported(s, uid).order == s.order
  {
  }

  ghost predicate Selectable(w: World, s: Session) {
    && (forall uid :: uid in s.order ==> uid in s.utterances)
    && (forall uid :: uid in s.utterances ==> Tracked(w, s.utterances[uid].tracker))
  }

  /** The tracker is asked again; an uncontradicted answer moves the protected prefix. */
  ghost function Restabilised(w: World, x: Weather, v: Utterance, uid: string): (r: Result<Utterance, S.Error>)
    requires Tracked(w, v.tracker)
    ensures r.Ok? ==>
      && Tracked(w, r.value.tracker)
      && S.Refreshed(w.settings.stability, w.u, v.tracker, x.clock(uid)).verdict.Some?
  {
    var t := S.Refreshed(w.settings.stability, w.u, v.tracker, x.clock(uid));
    if t.verdict.None? then Err(S.NothingObserved)
    else if t.verdict.value.conflict then Ok(v.(tracker := t))
    else
      match S.Committed(w.settings.stability, w.u, t, t.verdict.value.stableEnd, v.final, x.clock(uid))
      case Err(e) => Err(e)
      case Ok(c) => Ok(v.(tracker := c, stableEnd := t.verdict.value.stableEnd))
  }

  lemma {:induction false} PutTracks(w: World, x: Weather, s: Session, uid: string, v: Utterance, conflict: bool)
    requires uid in s.utterances && Selectable(w, s) && Tracked(w, v.tracker)
    ensures var r := SelectLoop(w, x, s.(utterances := s.utterances[uid := v]), uid, conflict).0;
      Selectable(w, r) && r.order == s.order
  {
    hide Tracked, SelectLoop;
    SelectLoopTracks(w, x, s.(utterances := s.utterances[uid := v]), uid, conflict);
  }

  ghost function SelectUtterance(w: World, x: Weather, s: Session, uid: string): (r: (Session, Outcome))
    requires uid in s.utterances && Selectable(w, s)
    ensures Selectable(w, r.0) && r.0.order == s.order
  {
    var v := s.utterances[uid];
    match Restabilised(w, x, v, uid)
    case Err(e) => (s, if e.NothingObserved? then Halt else Raised)
    case Ok(v1) =>
      var conflict := S.Refreshed(w.settings.stability, w.u, v.tracker, x.clock(uid)).verdict.value.conflict;
      PutTracks(w, x, s, uid, v1, conflict);
      SelectLoop(w, x, s.(utterances := s.utterances[uid := v1]), uid, conflict)
  }

  /** Visits utterances in source order; a halt stops the sweep, an error abandons it. */
  ghost function Sweep(w: World, x: Weather, s: Session, k: nat): (Session, Outcome)
    requires k <= |s.order| && Selectable(w, s)
    decreases |s.order| - k
  {
    if k == |s.order| then (s, Carry)
    else if !Pending(w, s, s.order[k]) then Sweep(w, x, s, k + 1)
    else
      var r := SelectUtterance(w, x, s, s.order[k]);
      if r.1 == Carry then Sweep(w, x, r.0, k + 1) else r
  }

  predicate Pending(w: World, s: Session, uid: string)
    requires uid in s.utterances
  {
    HasContent(w.u, s.utterances[uid].text, s.utterances[uid].selectedEnd) && !s.utterances[uid].reported
  }

  /** A timer fired. Afterwards the session tries to dispatch, unless selection raised. */
  ghost function Evaluate(w: World, x: Weather, s: Session, uid: string, generation: nat): Session
    requires Selectable(w, s)
  {
    if s.closed || generation != s.generation || uid !in s.utterances then s
    else
      var r := Sweep(w, x, s, 0);
      if r.1 == Raised then r.0 else r.0.(pc := Dispatching)
  }

  // -------- Dispatching and results

  /** Index of the first ready segment, or the length. */
  function FirstReady(segments: seq<Segment>): (i: nat)
    ensures i <= |segments|
    ensures i < |segments| ==> segments[i].status == Ready
    ensures forall k :: 0 <= k < i ==> segments[k].status != Ready
  {
    if segments == [] || segments[0].status == Ready then 0 else 1 + FirstReady(segments[1..])
  }

  /** The segment the session would submit now. */
  function NextReady(s: Session): Option<nat> {
    if s.closed || !s.connected || s.active.Some? || FirstReady(s.segments) == |s.segments| then None
    else Some(FirstReady(s.segments))
  }

  /** The job was queued: its segment is running. */
  function Dispatched(s: Session, i: nat): Session
    requires i < |s.segments|
  {
    s.(segments := s.segments[i := s.segments[i].(status := Running)], active := Some(s.segments[i].id), pc := Idle)
  }

  function Find(segments: seq<Segment>, id: nat): (i: nat)
    ensures i <= |segments|
    ensures i < |segments| ==> segments[i].id == id
    ensures forall k :: 0 <= k < i ==> segments[k].id != id
  {
    if segments == [] || segments[0].id == id then 0 else 1 + Find(segments[1..], id)
  }

  /** Whether a result for (generation, segment, revision) may still change the session. */
  predicate Accepts(s: Session, generation: nat, segment: nat, revision: nat) {
    var i := Find(s.segments, segment);
    && !s.closed && generation == s.generation && i < |s.segments|
    && s.segments[i].revision == revision && s.segments[i].status == Running
    && s.active == Some(segment)
  }

  /** The backend failed, or the translation does not fit the history limits. */
  predicate Fails(w: World, s: Session, answer: Option<string>) {
    || answer.None?
    || TranslationChars(s.segments) + |answer.value| > w.settings.maxTranslationChars
    || StateBytes(w, s) + w.bytes(answer.value) > w.settings.maxStateBytes
  }

  predicate Blank(u: Unicode, text: string) {
    !HasContent(u, text, 0)
  }

  /** A blank translation is stored, but then it cannot be proposed: the callback raises
      and no dispatch follows. */
  predicate Unproposable(w: World, s: Session, answer: Option<string>) {
    !Fails(w, s, answer) && Blank(w.u, answer.value)
  }

  /** A translation, or None for any failure, reaches the session. */
  function Resulted(w: World, s: Session, generation: nat, segment: nat, revision: nat,
                    answer: Option<string>): Session
  {
    if !Accepts(s, generation, segment, revision) then s
    else
      var i := Find(s.segments, segment);
      var s1 := s.(active := None, pc := if Unproposable(w, s, answer) then s.pc else Dispatching);
      if Fails(w, s, answer) then s1.(segments := s.segments[i := s.segments[i].(status := Failed)])
      else s1.(segments := s.segments[i := s.segments[i].(status := Complete, translation := answer.value)])
  }

  // -------- Connection and lifetime

  function Attached(s: Session): Session {
    if s.connected || s.closed then s else s.(connected := true, pc := Dispatching)
  }

  function DetachStart(s: Session): Session {
    s.(connected := false, generation := s.generation + 1, pc := Detaching)
  }

  function Stopped(segments: seq<Segment>): (r: seq<Segment>)
    ensures |r| == |segments|
    ensures forall i :: 0 <= i < |r| ==>
              r[i] == if segments[i].status == Running then segments[i].(status := Ready) else segments[i]
  {
    seq(|segments|, i requires 0 <= i < |segments| =>
      if segments[i].status == Running then segments[i].(status := Ready) else segments[i])
  }

  function DetachFinish(s: Session): Session {
    if s.pc.Detaching? then s.(segments := Stopped(s.segments), active := None, pc := Idle) else s
  }

  function ResetStart(s: Session): Session {
    s.(generation := s.generation + 1, utterances := map[], order := [], segments := [],
       autoId := None, active := None, pc := Resetting)
  }

  function CloseStart(s: Session): Session {
    s.(closed := true, generation := s.generation + 1, pc := Closing)
  }

  function Resumed(s: Session): Session {
    s.(pc := Idle)
  }
}
