/** Two runs of one session, from its opening. In one a final turns the exclamation mark that
    ends a selected sentence into a longer token, and selection is stuck. In the other a
    blank translation is not followed by a dispatch. */
module SessionStuck {
  import opened Wrappers
  import opened Text
  import opened Revision
  import opened Session
  import opened SessionInvariant
  import opened SessionRuns
  import opened SessionSteps
  import S = Stability
  import G = Segmentation

  const Limits := Settings(
    S.Config(2, 0.5, 1.0, 1.0, 100, 1.0, 0.0, 0.0, 0.0, false), "en", "ko", 100, 100, 100, 100, 10, 10, 10, 10,
        false, 0)

  /** Only an exclamation mark on its own is a complete sentence. */
  const Marks := G.Grammar((clause, context) => G.Judgement(clause == "!", "", true), t => false)

  const Place := World(Ascii, Marks, t => 0, Limits)

  const Calm := Weather(uid => 0.0, (uid, end) => true, (uid, end) => false)

  const Before := "!b"
  /** The mark and a variation selector: one token. */
  const After := ['!', '\U{FE0F}']

  function Final(sequence: int, text: string): Event {
    Event(None, None, None, sequence, text, true, None, Some("u"), None, None)
  }

  // -------- The two texts

  lemma {:induction false} BeforeTokens()
    ensures Tokens(Ascii, Before) == [Token("!", 0, 1), Token("b", 1, 2)]
  {
    assert TokensFrom(Ascii, Before, 2) == [];
    assert TokenEnd(Ascii, Before, 1) == 2 && TokenEnd(Ascii, Before, 0) == 1;
    assert Before[0..1] == "!" && Before[1..2] == "b";
    assert TokensFrom(Ascii, Before, 1) == [Token("b", 1, 2)] + TokensFrom(Ascii, Before, 2);
    assert TokensFrom(Ascii, Before, 0) == [Token("!", 0, 1)] + TokensFrom(Ascii, Before, 1);
  }

  lemma {:induction false} AfterTokens()
    ensures Tokens(Ascii, After) == [Token(After, 0, 2)]
  {
    assert Extends(Ascii, After[1]);
    assert ClusterRest(Ascii, After, 1) == ClusterRest(Ascii, After, 2) == 2;
    assert TokenEnd(Ascii, After, 0) == 2 && TokensFrom(Ascii, After, 2) == [];
    assert After[0..2] == After;
  }

  // -------- What is selected

  lemma {:induction false} FirstSentence(q: G.Query)
    requires q.text == Before && q.stableEnd == 2 && q.start == 0 && q.maxTokens == 10
    ensures var c := G.Segmented(Ascii, Marks, q);
      c.Ok? && c.value.Some? && c.value.value.start == 0 && c.value.value.end == 1 && c.value.value.text == "!"
  {
    BeforeTokens();
    var ts := G.Inside(Tokens(Ascii, Before), 0, 2);
    assert ts == Tokens(Ascii, Before) by { InsideAll(Tokens(Ascii, Before)); }
    assert EndsAt(Tokens(Ascii, Before), 2) by { assert Tokens(Ascii, Before)[1].end == 2; }
    G.AvailableUsable(Ascii, q);
    assert G.RunEnd(ts, 0) == 1 && G.NextEnd(Marks, ts, 0) == Some(1);
    assert G.NextEnd(Marks, ts, 2) == None && G.NextEnd(Marks, ts, 1) == None;
    assert Before[0..1] == "!" && Before[1..2] == "b";
  }

  lemma {:induction false} InsideAll(ts: seq<Token>)
    requires ts == [Token("!", 0, 1), Token("b", 1, 2)]
    ensures G.Inside(ts, 0, 2) == ts && G.Inside(ts, 1, 2) == ts[1..]
  {
    assert ts[1..] == [Token("b", 1, 2)] && ts[1..][1..] == [];
    assert G.Inside(ts[1..], 0, 2) == ts[1..] && G.Inside(ts[1..], 1, 2) == ts[1..];
  }

  lemma {:induction false} NoSecondSentence(q: G.Query)
    requires q.text == Before && q.stableEnd == 2 && q.start == 1 && q.maxTokens == 10
    ensures G.Segmented(Ascii, Marks, q) == Ok(None)
  {
    BeforeTokens();
    var ts := G.Inside(Tokens(Ascii, Before), 1, 2);
    InsideAll(Tokens(Ascii, Before));
    assert EndsAt(Tokens(Ascii, Before), 2) by { assert Tokens(Ascii, Before)[1].end == 2; }
    assert EndsAt(Tokens(Ascii, Before), 1) by { assert Tokens(Ascii, Before)[0].end == 1; }
    G.AvailableUsable(Ascii, q);
    assert G.NextEnd(Marks, ts, 1) == None && G.NextEnd(Marks, ts, 0) == None;
    assert Before[1..2] == "b";
  }

  // -------- The run

  /** A final is the first event: its text is settled, and nothing else is there. */
  ghost predicate Settled1(w: World, s: Session, r: Session, e: Event, uid: string) {
    && r.utterances.Keys == {uid} && r.segments == [] && r.order == [uid] && r.pc == Idle
    && r == s.(utterances := r.utterances, order := r.order, lastSequence := e.sequence)
    && var v := r.utterances[uid];
      && v.text == e.text && v.stableEnd == S.CharEnd(Tokens(w.u, e.text), |Tokens(w.u, e.text)|)
      && v.selectedEnd == 0 && v.final && !v.reported && v.speaker == e.speaker && v.revision == 1
      && S.Protects(w.u, v.tracker.e) && v.tracker.e.text == e.text
  }

  lemma {:induction false} FirstObserved(w: World, e: Event, v: Utterance, clock: real)
      returns (t: S.Tracker, c: S.Tracker)
    requires w.settings.Valid() && 0 <= e.sequence && |e.text| <= w.settings.maxSourceChars && e.final
    requires v == Utterance(S.Fresh, e.speaker, "", 0, 0, 0, 0, false, false)
    ensures t.verdict.Some? && Smooth(w, v, e, [], clock, t, c)
    ensures t.verdict.value.stableEnd == S.CharEnd(Tokens(w.u, e.text), |Tokens(w.u, e.text)|)
    ensures S.Protects(w.u, c.e) && c.e.text == e.text
  {
    FreshTracked(w);
    ObservedOk(w, S.Fresh, e, clock);
    hide S.Judged, S.Observed;
    t, c := ObservedAligned(w, v, e, [], clock);
    FinalReach(w, t);
    S.CommitSucceeds(w.settings.stability, w.u, t, true, clock);
  }

  lemma {:induction false} FirstFinal(w: World, s: Session, e: Event, uid: string, clock: real)
    requires Sound(w, s) && s == Opened(s.id) && e.utterance == Some(uid) && e.final && |e.text| > 0
    requires Checked(w, s, e).None? && Admissible(w, s, e, uid).None?
    ensures Settled1(w, s, Perform(w, s, Ingest(e, clock)), e, uid)
  {
    SoundValid(w, s);
    CheckedWhy(w, s, e);
    hide Sound, S.Judged, S.Observed, S.Committed, Tracked, S.Protects, Admissible, Checked, Planned, Smooth;
    var t, c := FirstObserved(w, e, Known(s, uid, e), clock);
    HearIs(w, s, e, uid, clock, t, c);
    FirstHeard(w, s, e, uid, clock);
    FirstSettled(w, s, e, uid, clock, t, c);
  }

  lemma {:induction false} FirstHeard(w: World, s: Session, e: Event, uid: string, clock: real)
    requires Sound(w, s) && s == Opened(s.id) && e.utterance == Some(uid) && w.settings.Valid()
    requires Checked(w, s, e).None? && Admissible(w, s, e, uid).None?
    ensures Perform(w, s, Ingest(e, clock)) == Hear(w, s, e, uid, clock).state
  {
    hide Sound, Checked, Admissible, Hear;
  }

  lemma {:induction false} FirstSettled(w: World, s: Session, e: Event, uid: string, clock: real,
                                        t: S.Tracker, c: S.Tracker)
    requires s == Opened(s.id) && t.verdict.Some? && e.final && |e.text| > 0 && e.utterance == Some(uid)
    requires Smooth(w, Known(s, uid, e), e, [], clock, t, c)
    requires t.verdict.value.stableEnd == S.CharEnd(Tokens(w.u, e.text), |Tokens(w.u, e.text)|)
    requires S.Protects(w.u, c.e) && c.e.text == e.text
    ensures Tracked(w, Heard(s, e, uid, t).utterances[uid].tracker)
    ensures Settled1(w, s, Settle(w, Heard(s, e, uid, t), uid, e, clock), e, uid)
  {
    hide S.Judged, S.Observed, S.Committed, S.Protects, Planned, S.CharEnd;
    SettleIs(w, Heard(s, e, uid, t), uid, e, clock, c);
  }

  /** One utterance, all of it stable and `selected` of it selected. */
  ghost predicate Alone(s: Session, selected: nat) {
    && s.id == "s" && s.order == ["u"] && s.utterances.Keys == {"u"} && s.lastSequence == 0 && s.active == None
    && !s.closed && !s.connected && s.generation == 0
    && var v := s.utterances["u"];
      && v.text == Before && v.stableEnd == 2 && v.selectedEnd == selected && v.final && v.speaker == None
      && v.revision == 1
  }

  ghost predicate TookMark(s: Session) {
    |s.segments| == 1 && var g := s.segments[0];
      && g.uid == "u" && g.start == 0 && g.end == 1 && g.status == Ready && g.translation == ""
      && g.id == 1 && g.revision == 1
  }

  lemma {:induction false} LoopOnce(w: World, x: Weather, s: Session, uid: string)
    requires uid in s.utterances && HasContent(w.u, s.utterances[uid].text, s.utterances[uid].selectedEnd)
    requires !Blocked(w, s) && Choice(w, x, s, uid, false).Some?
    ensures SelectLoop(w, x, s, uid, false)
         == SelectLoop(w, x, Appended(s, uid, s.utterances[uid], Choice(w, x, s, uid, false).value), uid, false)
  {
    hide HasContent, Blocked, G.Segmented, Appended, QueryFor;
  }

  lemma {:induction false} LoopStops(w: World, x: Weather, s: Session, uid: string)
    requires uid in s.utterances && HasContent(w.u, s.utterances[uid].text, s.utterances[uid].selectedEnd)
    requires !Blocked(w, s) && s.utterances[uid].final
    requires G.Segmented(w.u, w.g, QueryFor(w, s, s.utterances[uid])) == Ok(None)
    ensures SelectLoop(w, x, s, uid, false) == (Reported(s, uid), Carry)
  {
    hide HasContent, Blocked, G.Segmented, QueryFor;
  }

  lemma {:induction false} BeforeHasContent()
    ensures HasContent(Ascii, Before, 0) && HasContent(Ascii, Before, 1)
  {
    assert !Ascii.isSpace(Before[1]);
  }

  lemma {:induction false} LoopTakes(s: Session)
    requires Alone(s, 0) && s.segments == [] && s.nextSegment == 0
    ensures var r := SelectLoop(Place, Calm, s, "u", false);
      Alone(r.0, 1) && TookMark(r.0) && r.1 == Carry && r.0.pc == s.pc
  {
    var v := s.utterances["u"];
    BeforeHasContent();
    FirstSentence(QueryFor(Place, s, v));
    hide G.Segmented, HasContent, SelectLoop;
    var c := Choice(Place, Calm, s, "u", false).value;
    var n := Appended(s, "u", v, c);
    LoopOnce(Place, Calm, s, "u");
    assert Alone(n, 1) && TookMark(n);
    assert Waiting(n.segments) == 1 by { assert n.segments[1..] == []; }
    NoSecondSentence(QueryFor(Place, n, n.utterances["u"]));
    LoopStops(Place, Calm, n, "u");
  }

  /** What asking the tracker again leaves of an utterance. */
  lemma {:induction false} AskedAgain(w: World, x: Weather, s: Session, uid: string)
    requires Sound(w, s) && s.pc == Idle && uid in s.utterances && Selectable(w, s)
    ensures Restabilised(w, x, s.utterances[uid], uid).Ok?
    ensures var was, v := s.utterances[uid], Restabilised(w, x, s.utterances[uid], uid).value;
      && v.text == was.text && v.selectedEnd == was.selectedEnd && v.final == was.final && v.speaker == was.speaker
      && v.revision == was.revision
      && was.stableEnd <= v.stableEnd <= |v.text|
  {
    assert UtteranceOk(w, s, uid);
    hide Tiles, S.Judged, Prefixed, Restabilised, S.Refreshed, S.Protects;
    RestabilisedOk(w, x, s.utterances[uid], uid, Of(s.segments, uid), s.lastSequence);
    hide Sound, Rested, UtteranceOk, Selectable;
    PrefixedBound(w, Restabilised(w, x, s.utterances[uid], uid).value);
  }

  /** An utterance whose tracker agrees with its protected prefix goes on to the loop. */
  lemma {:induction false} GoesOn(w: World, x: Weather, s: Session, uid: string)
    requires uid in s.utterances && Selectable(w, s) && s.utterances[uid].tracker.verdict.Some?
    requires S.Protects(w.u, s.utterances[uid].tracker.e) && Restabilised(w, x, s.utterances[uid], uid).Ok?
    ensures var v := Restabilised(w, x, s.utterances[uid], uid).value;
      SelectUtterance(w, x, s, uid) == SelectLoop(w, x, s.(utterances := s.utterances[uid := v]), uid, false)
  {
    NoConflict(w, s.utterances[uid].tracker, x.clock(uid));
    hide S.Judged, S.Protects, S.Committed, S.Refreshed, SelectLoop, Restabilised;
  }

  lemma {:induction false} PrefixedBound(w: World, v: Utterance)
    requires Prefixed(w, v)
    ensures v.stableEnd <= |v.text|
  {
  }

  lemma {:induction false} NoConflict(w: World, t: S.Tracker, clock: real)
    requires Tracked(w, t) && t.verdict.Some? && S.Protects(w.u, t.e)
    ensures var r := S.Refreshed(w.settings.stability, w.u, t, clock); r.verdict.Some? && !r.verdict.value.conflict
  {
    var r := S.Refreshed(w.settings.stability, w.u, t, clock);
    S.VerdictReach(w.settings.stability, w.u, r.e, r.lastTime.value);
  }

  lemma {:induction false} SweepOne(w: World, x: Weather, s: Session, uid: string, r: (Session, Outcome))
    requires Sound(w, s) && s.pc == Idle && s.order == [uid] && Selectable(w, s) && Pending(w, s, uid)
    requires r == SelectUtterance(w, x, s, uid) && r.1 == Carry
    ensures Evaluate(w, x, s, uid, s.generation) == if s.closed then s else r.0.(pc := Dispatching)
  {
    assert uid in s.utterances;
    hide Sound, Selectable, SelectUtterance, Pending;
    assert Sweep(w, x, s, 0) == Sweep(w, x, r.0, 1) == r;
  }

  ghost predicate Fresh1(s: Session) {
    && s.pc == Idle && Alone(s, 0) && s.segments == [] && s.nextSegment == 0 && !s.utterances["u"].reported
    && S.Protects(Ascii, s.utterances["u"].tracker.e)
  }

  lemma {:induction false} AloneStill(s: Session, v: Utterance)
    requires Fresh1(s) && v.text == Before && v.selectedEnd == 0 && v.final && v.speaker == None && v.stableEnd == 2
    requires v.revision == 1
    ensures Alone(s.(utterances := s.utterances["u" := v]), 0)
  {
  }

  lemma {:induction false} StillPending(s: Session)
    requires Fresh1(s)
    ensures Pending(Place, s, "u")
  {
    BeforeHasContent();
  }

  lemma {:induction false} UtteranceTakes(s: Session)
    requires Sound(Place, s) && Fresh1(s) && Selectable(Place, s)
    ensures var r := SelectUtterance(Place, Calm, s, "u");
      Alone(r.0, 1) && TookMark(r.0) && r.1 == Carry
  {
    AskedAgain(Place, Calm, s, "u");
    assert UtteranceOk(Place, s, "u");
    GoesOn(Place, Calm, s, "u");
    hide Sound, Selectable, SelectUtterance, S.Protects, SelectLoop, Restabilised;
    var v := Restabilised(Place, Calm, s.utterances["u"], "u").value;
    AloneStill(s, v);
    LoopTakes(s.(utterances := s.utterances["u" := v]));
  }

  lemma {:induction false} TimerTakes(s: Session)
    requires Sound(Place, s) && Fresh1(s)
    ensures var r := Perform(Place, s, Timer(Calm, "u", 0));
      Alone(r, 1) && TookMark(r) && r.pc == Dispatching
  {
    TimerIs(Place, Calm, s, "u");
    StillPending(s);
    UtteranceTakes(s);
    hide Sound, Selectable, SelectUtterance, S.Protects, Evaluate, Pending, Perform;
    SweepOne(Place, Calm, s, "u", SelectUtterance(Place, Calm, s, "u"));
  }

  lemma {:induction false} TimerIs(w: World, x: Weather, s: Session, uid: string)
    requires Sound(w, s) && s.pc == Idle
    ensures Selectable(w, s) && Perform(w, s, Timer(x, uid, s.generation)) == Evaluate(w, x, s, uid, s.generation)
  {
    SoundIsSelectable(w, s);
    hide Sound, Selectable, Evaluate;
  }

  // -------- The final that gets stuck

  lemma {:induction false} AfterIsRun(w: World, s: Session, e: Event, clock: real, later: real)
    requires Sound(w, s) && s.pc == Idle
    ensures Sound(w, Perform(w, s, Ingest(e, clock)))
    ensures Perform(w, Perform(w, s, Ingest(e, clock)), Resume(later)) == AfterEvent(w, s, e, clock, later)
    ensures AfterEvent(w, s, e, clock, later).pc == Idle
  {
    PerformSound(w, s, Ingest(e, clock));
    AllTracked(w, s);
    IngestStartSound(w, s, e, clock);
    hide Sound, IngestStart, IngestFinish, Tracked;
    var i := IngestStart(w, s, e, clock);
    if i.Cut? { IngestFinishSound(w, i.state, later); }
  }

  lemma {:induction false} MarkKept()
    ensures Planned(Ascii, Before, After, [Span(0, 1)]) == Plan(1, 1, After[1..], true)
  {
    assert Lcp(Before, After, 0) == 1;
    assert Difference(Ascii, Before, After) == 1;
    assert [Span(0, 1)][1..] == [];
    assert FirstTouched([Span(0, 1)], 1) == 1;
    assert InOrder([Span(0, 1)], 0, 2) by { assert InOrder([], 1, 2); }
  }

  lemma {:induction false} Admitted2(s: Session)
    requires Alone(s, 1) && TookMark(s)
    ensures Checked(Place, s, Final(1, After)).None? && Admissible(Place, s, Final(1, After), "u").None?
    ensures UtteranceId(s, Final(1, After)) == "u"
  {
    assert s.order[1..] == [] && s.segments[1..] == [];
    assert Chars(s.utterances, s.order) == 2;
    assert SourceBytes(Place, s.utterances, s.order) == 0 && TranslationBytes(Place, s.segments) == 0;
  }

  lemma {:induction false} MarkIsKept(s: Session, e: Event)
    requires Alone(s, 1) && TookMark(s) && e == Final(1, After) && UtteranceId(s, e) == "u"
    ensures Of(s.segments, "u") == s.segments && Kept(Place, s, e) == 1
  {
    MarkKept();
    OfOne(s.segments[0], "u");
    assert s.segments == [s.segments[0]];
    hide Planned;
    assert Spans(Of(s.segments, "u")) == [Span(0, 1)];
    assert Known(s, "u", e).text == Before;
  }

  lemma {:induction false} SecondFinal(s: Session)
    requires Sound(Place, s) && s.pc == Idle && Alone(s, 1) && TookMark(s)
    ensures var r := AfterEvent(Place, s, Final(1, After), 0.0, 0.0);
      && "u" in r.utterances && r.utterances["u"].text == After && r.utterances["u"].selectedEnd == 1
      && |r.segments| == 1
  {
    var e := Final(1, After);
    Admitted2(s);
    MarkIsKept(s, e);
    hide Sound, AfterEvent, CutAt, Planned, Checked, Admissible, Tiles, SameShape, S.CharEnd, Kept;
    var t, index := FinalCuts(Place, s, e, "u", 0.0, 0.0);
    assert s.segments[..0] == [] && Of([], "u") == [] && s.segments[..1] == s.segments;
    assert index == 1;
    hide Of;
    CutShare(Place, s, e, "u", t, index);
    TilesEnd(s.segments, Before, CutAt(s, e, "u", t, index).utterances["u"].selectedEnd);
    SameSize(CutAt(s, e, "u", t, index).segments, AfterEvent(Place, s, e, 0.0, 0.0).segments);
  }

  lemma {:induction false} SameSize(a: seq<Segment>, b: seq<Segment>)
    requires SameShape(a, b)
    ensures |a| == |b|
  {
  }

  /** From the opening of a session: a final, a timer, a refused dispatch, another final. */
  function Story(): seq<Action> {
    [Ingest(Final(0, Before), 0.0), Timer(Calm, "u", 0), Dispatch(false), Ingest(Final(1, After), 0.0), Resume(0.0)]
  }

  lemma {:induction false} RunsOn(w: World, s: Session, a: Action, rest: seq<Action>)
    requires Sound(w, s)
    ensures Sound(w, Perform(w, s, a)) && RunOf(w, s, [a] + rest) == RunOf(w, Perform(w, s, a), rest)
  {
    PerformSound(w, s, a);
    hide Sound, Perform;
    assert ([a] + rest)[0] == a && ([a] + rest)[1..] == rest;
  }

  lemma {:induction false} RunsTwice(w: World, s: Session, a: Action, b: Action, rest: seq<Action>)
    requires Sound(w, s)
    ensures Sound(w, Perform(w, s, a)) && Sound(w, Perform(w, Perform(w, s, a), b))
    ensures RunOf(w, s, [a, b] + rest) == RunOf(w, Perform(w, Perform(w, s, a), b), rest)
  {
    RunsOn(w, s, a, [b] + rest);
    hide Sound, Perform, RunOf;
    RunsOn(w, Perform(w, s, a), b, rest);
    assert [a, b] + rest == [a] + ([b] + rest);
  }

  /** An event given and resumed, at the end of a run. */
  lemma {:induction false} EndsWith(w: World, s: Session, e: Event)
    requires Sound(w, s) && s.pc == Idle
    ensures RunOf(w, s, [Ingest(e, 0.0), Resume(0.0)]) == AfterEvent(w, s, e, 0.0, 0.0)
    ensures AfterEvent(w, s, e, 0.0, 0.0).pc == Idle
  {
    RunsTwice(w, s, Ingest(e, 0.0), Resume(0.0), []);
    AfterIsRun(w, s, e, 0.0, 0.0);
    hide Sound, Perform, AfterEvent;
    assert [Ingest(e, 0.0), Resume(0.0)] + [] == [Ingest(e, 0.0), Resume(0.0)];
  }

  /** Nothing is submitted. */
  lemma {:induction false} NotSubmitted(w: World, s: Session, rest: seq<Action>)
    requires Sound(w, s) && s.pc == Dispatching
    ensures Sound(w, s.(pc := Idle)) && RunOf(w, s, [Dispatch(false)] + rest) == RunOf(w, s.(pc := Idle), rest)
  {
    RunsOn(w, s, Dispatch(false), rest);
    hide Sound, RunOf;
    assert Perform(w, s, Dispatch(false)) == s.(pc := Idle);
  }

  lemma {:induction false} StartsSound()
    ensures Sound(Place, Opened("s"))
  {
    assert Place.settings.Valid();
    OpenedSound(Place, "s");
  }

  lemma {:induction false} NothingYet(s: Session)
    requires s == Opened("s")
    ensures |s.utterances| == 0 && Chars(s.utterances, s.order) == 0 && StateBytes(Place, s) == 0
  {
  }

  /** The first final meets every check. */
  lemma {:induction false} Checked1(s: Session, e: Event)
    requires s == Opened("s") && e == Final(0, Before)
    ensures Checked(Place, s, e).None?
  {
  }

  lemma {:induction false} AdmitsShort(s: Session, e: Event)
    requires s == Opened("s") && |e.text| == 2 && Place.bytes(e.text) == 0
    requires |s.utterances| == 0 && Chars(s.utterances, s.order) == 0 && StateBytes(Place, s) == 0
    ensures Admissible(Place, s, e, "u").None?
  {
    hide Chars, StateBytes;
  }

  lemma {:induction false} Admitted1(s: Session, e: Event)
    requires s == Opened("s") && e == Final(0, Before)
    ensures Admissible(Place, s, e, "u").None?
  {
    hide Chars, StateBytes, Final, Admissible;
    NothingYet(s);
    ShortText(e);
    AdmitsShort(s, e);
  }

  lemma {:induction false} ShortText(e: Event)
    requires e == Final(0, Before)
    ensures |e.text| == 2 && Place.bytes(e.text) == 0
  {
  }

  lemma {:induction false} FirstIsFresh(r: Session)
    requires Settled1(Place, Opened("s"), r, Final(0, Before), "u")
    ensures Fresh1(r)
  {
    BeforeTokens();
    hide S.Protects;
  }

  lemma {:induction false} FirstStep(s: Session, e: Event)
    requires s == Opened("s") && e == Final(0, Before)
    ensures Sound(Place, s) && Fresh1(Perform(Place, s, Ingest(e, 0.0)))
  {
    hide Checked, Admissible, Sound, Perform, Settled1, Fresh1;
    StartsSound();
    Checked1(s, e);
    Admitted1(s, e);
    FirstFinal(Place, s, e, "u", 0.0);
    FirstIsFresh(Perform(Place, s, Ingest(e, 0.0)));
  }

  /** The story up to the timer. */
  lemma {:induction false} ToTheTimer(s: Session, rest: seq<Action>) returns (r: Session)
    requires s == Opened("s")
    ensures Sound(Place, s) && Sound(Place, r) && r.pc == Dispatching && Alone(r, 1) && TookMark(r)
    ensures RunOf(Place, s, [Ingest(Final(0, Before), 0.0), Timer(Calm, "u", 0)] + rest) == RunOf(Place, r, rest)
  {
    FirstStep(s, Final(0, Before));
    hide Sound, Perform, RunOf, Fresh1, Alone, TookMark;
    RunsTwice(Place, s, Ingest(Final(0, Before), 0.0), Timer(Calm, "u", 0), rest);
    TimerTakes(Perform(Place, s, Ingest(Final(0, Before), 0.0)));
    r := Perform(Place, Perform(Place, s, Ingest(Final(0, Before), 0.0)), Timer(Calm, "u", 0));
  }

  ghost predicate Stuck(s: Session, x: Weather, conflict: bool) {
    && s.pc == Idle && "u" in s.utterances && !Blocked(Place, s)
    && var v := s.utterances["u"];
      && HasContent(Ascii, v.text, v.selectedEnd) && !G.OnBoundary(Ascii, v.text, v.selectedEnd)
      && SelectLoop(Place, x, s, "u", conflict) == (s, Raised)
  }

  lemma {:induction false} MarkGone(s: Session, x: Weather, conflict: bool)
    requires Sound(Place, s) && s.pc == Idle && |s.segments| == 1
    requires "u" in s.utterances && s.utterances["u"].text == After && s.utterances["u"].selectedEnd == 1
    ensures Stuck(s, x, conflict)
  {
    hide Sound, SelectLoop;
    AfterTokens();
    assert !Ascii.isSpace(After[1]);
    assert Waiting(s.segments[1..]) == 0;
    assert !Blocked(Place, s);
    StuckIff(Place, x, s, "u", conflict);
  }

  /** A session can get stuck: after this run there is text left to select, but every
      attempt to select it raises. */
  lemma {:induction false} SelectionCanGetStuck(s: Session, x: Weather, conflict: bool)
    requires s == Opened("s")
    ensures Sound(Place, s) && Stuck(RunOf(Place, s, Story()), x, conflict)
  {
    var e, end := Final(1, After), [Ingest(Final(1, After), 0.0), Resume(0.0)];
    hide Sound, RunOf, AfterEvent, SelectLoop, Stuck, Alone, TookMark;
    assert [Ingest(Final(0, Before), 0.0), Timer(Calm, "u", 0)] + ([Dispatch(false)] + end) == Story();
    var m := ToTheTimer(s, [Dispatch(false)] + end);
    RunSound(Place, s, Story());
    NotSubmitted(Place, m, end);
    EndsWith(Place, m.(pc := Idle), e);
    AloneIdle(m);
    SecondFinal(m.(pc := Idle));
    MarkGone(RunOf(Place, s, Story()), x, conflict);
  }

  lemma {:induction false} AloneIdle(s: Session)
    requires Alone(s, 1) && TookMark(s)
    ensures Alone(s.(pc := Idle), 1) && TookMark(s.(pc := Idle))
  {
  }

  // -------- A blank translation stops the session

  /** The first sentence is selected, submitted once a client is there, and answered with a
      blank translation. */
  function BlankStory(): seq<Action> {
    [Ingest(Final(0, Before), 0.0), Timer(Calm, "u", 0), Dispatch(false), Attach, Dispatch(true),
     Result(0, 1, 1, Some(" "))]
  }

  ghost predicate StoppedBlank(r: Session) {
    && r.pc == Idle && r.active == None && |r.segments| == 1
    && r.segments[0].status == Complete && r.segments[0].translation == " "
  }

  lemma {:induction false} AnsweredBlank(s: Session)
    requires Alone(s, 1) && TookMark(s) && s.pc == Idle
    ensures NextReady(Attached(s)) == Some(0)
    ensures StoppedBlank(Resulted(Place, Dispatched(Attached(s), 0), 0, 1, 1, Some(" ")))
  {
    var t := Dispatched(Attached(s), 0);
    assert Find(t.segments, 1) == 0 && Accepts(t, 0, 1, 1);
    assert s.order[1..] == [] && t.segments[1..] == [];
    assert SourceBytes(Place, t.utterances, t.order) == 0 && TranslationBytes(Place, t.segments) == 0;
    assert TranslationChars(t.segments) == 0;
    assert Blank(Ascii, " ") && Unproposable(Place, t, Some(" "));
  }

  /** A blank translation is stored, but no dispatch follows it. */
  lemma {:induction false} BlankIsNotFollowed(s: Session)
    requires s == Opened("s")
    ensures Sound(Place, s) && StoppedBlank(RunOf(Place, s, BlankStory()))
  {
    var end := [Attach, Dispatch(true), Result(0, 1, 1, Some(" "))];
    hide Sound, RunOf, Perform, Alone, TookMark, Resulted, Dispatched, Attached, NextReady, StoppedBlank;
    var m := ToTheTimer(s, [Dispatch(false)] + end);
    BlankStoryIs();
    hide BlankStory, Final;
    NotSubmitted(Place, m, end);
    BlankFrom(m.(pc := Idle), m);
  }

  lemma {:induction false} BlankStoryIs()
    ensures BlankStory() == [Ingest(Final(0, Before), 0.0), Timer(Calm, "u", 0)]
                            + ([Dispatch(false)] + [Attach, Dispatch(true), Result(0, 1, 1, Some(" "))])
  {
  }

  lemma {:induction false} BlankFrom(s: Session, m: Session)
    requires Sound(Place, s) && s == m.(pc := Idle) && Alone(m, 1) && TookMark(m)
    ensures StoppedBlank(RunOf(Place, s, [Attach, Dispatch(true), Result(0, 1, 1, Some(" "))]))
  {
    AloneIdle(m);
    assert !s.closed && !s.connected;
    hide Sound, RunOf, Alone, TookMark, Resulted, Dispatched, Attached, NextReady, StoppedBlank;
    AnsweredBlank(s);
    EndsBlank(Place, s);
  }

  lemma {:induction false} EndsBlank(w: World, s: Session)
    requires Sound(w, s) && s.pc == Idle && !s.closed && !s.connected && NextReady(Attached(s)) == Some(0)
    ensures RunOf(w, s, [Attach, Dispatch(true), Result(0, 1, 1, Some(" "))])
         == Resulted(w, Dispatched(Attached(s), 0), 0, 1, 1, Some(" "))
  {
    var t1, t2 := Attached(s), Dispatched(Attached(s), 0);
    AttachIs(w, s);
    SubmitIs(w, t1);
    ResultIs(w, t2, 0, 1, 1, Some(" "));
    hide RunOf, Sound, Resulted, Dispatched, Attached, Perform, NextReady;
    RunsThrice(w, s, t1, t2, Attach, Dispatch(true), Result(0, 1, 1, Some(" ")));
  }

  lemma {:induction false} RunsThrice(w: World, s: Session, t1: Session, t2: Session, a: Action, b: Action, c: Action)
    requires Sound(w, s) && Sound(w, t1) && Sound(w, t2) && Perform(w, s, a) == t1 && Perform(w, t1, b) == t2
    ensures RunOf(w, s, [a, b, c]) == Perform(w, t2, c)
  {
    hide RunOf, Sound, Perform;
    RunsTwice(w, s, a, b, [c]);
    RunsOn(w, t2, c, []);
    Stays(w, Perform(w, t2, c));
    assert [a, b] + [c] == [a, b, c] && [c] + [] == [c];
  }

  lemma {:induction false} AttachIs(w: World, s: Session)
    requires Sound(w, s) && s.pc == Idle && !s.closed && !s.connected
    ensures Perform(w, s, Attach) == Attached(s) && Attached(s).pc == Dispatching && Sound(w, Attached(s))
  {
    PerformSound(w, s, Attach);
    hide Sound;
  }

  lemma {:induction false} SubmitIs(w: World, s: Session)
    requires Sound(w, s) && s.pc == Dispatching && NextReady(s).Some?
    ensures var t := Dispatched(s, NextReady(s).value);
      Perform(w, s, Dispatch(true)) == t && t.pc == Idle && Sound(w, t)
  {
    PerformSound(w, s, Dispatch(true));
    SubmittedIs(w, s);
    hide Sound, NextReady, Perform;
  }

  lemma {:induction false} SubmittedIs(w: World, s: Session)
    requires Sound(w, s) && s.pc == Dispatching && NextReady(s).Some?
    ensures Perform(w, s, Dispatch(true)) == Dispatched(s, NextReady(s).value)
  {
    hide Sound, NextReady, Dispatched;
  }

  lemma {:induction false} ResultIs(w: World, s: Session, generation: nat, segment: nat, revision: nat,
                                    answer: Option<string>)
    requires Sound(w, s) && s.pc == Idle
    ensures Perform(w, s, Result(generation, segment, revision, answer))
         == Resulted(w, s, generation, segment, revision, answer)
  {
    hide Sound, Resulted;
  }

  lemma {:induction false} Stays(w: World, s: Session)
    requires Sound(w, s)
    ensures RunOf(w, s, []) == s
  {
    hide Sound;
  }
}
