# A model of the streaming speech translation engine

This project models the stateful core of a live speech translation system and proves what
it keeps over whole runs. Three machines are modelled.

**Streaming translation.** One session turns revisable, cumulative speech recognition text
into immutable source segments and schedules one translation at a time on a shared
round-robin scheduler. `Text`, `Stability`, `Revision` and `Segmentation` are the text
machinery; `Session` is one session's state machine, cut into the sections that run between
awaits; `Scheduler` is the shared queue; `Pipeline` interleaves any number of sessions with
the scheduler's workers, in any order. `SessionInvariant`, `SessionRuns` and `SessionSteps`
hold what one session keeps; `SessionEvents` says what an event does and which utterance it
goes to, `SessionSelection` which text is selected, when, and why selection stops,
`SessionLifetime` what a disconnection, a reset and a close cut off; `SchedulerFates` says what
becomes of every accepted request; `Pipeline` holds what ties every session to its scheduler
slot; `SessionStuck` holds two concrete runs.

**Speaker evidence.** `SpeakerCaptions` is an incremental index from speaker evidence to
captions; `SpeakerDecision` is its decision, once as a measure of time and once as the sweep
the code runs; `SpeakerNames` tells the names captions carry from the assignments observed
alone; `Speakers` is the tracker that mints identities and gives observations to them.

**Source timeline.** `SpeechWindows` cuts a stream into overlapping windows, `Normalizer`
keeps the clock of normalised audio (`NormalizerTimes` reads it over the chunks pushed),
`Ingress` answers receipt times from a bounded history, `Cues` merges overlapping captions, and
`Fence` retires a session whose native calls may still be running. `Common` holds a few
functions that several components share.

Each component is written twice. A step is a function on a value (the specification), and
what the component promises is proved about those functions, over every run. The code's own
objects and loops are classes and methods (`StabilityTracker`, `TranslationScheduler`,
`TranslationSession`, `SpeakerCaptionReducer`, `CaptionStore`, `SpeechWindowBuilder`,
`StreamingNormalizer`, `IngressTimeline`, `NativeCallFence`, `OnlineSpeakerTracker`), and
each method's postcondition equates the object's new state with the step.

Unicode tables, the completeness heuristics, voice similarity, the resampler, byte lengths,
the read/write policy, clocks and the translation backend are parameters; every lemma holds
for any of them. Every lemma turns automatic induction off, so each proof is the one written.

## What the code does not give

- A corrected final that contradicts the protected prefix can leave a kept segment ending in
  the middle of a token, because `plan_revision` moves a difference back to a token start
  only when the old text is a strict prefix of the new one (app/streaming/revision.py:40).
  `Revision.ConflictingFinalCanMisalign` is a concrete case,
  `SessionRuns.ContradictingFinal` says exactly when alignment survives,
  `SessionRuns.StuckIff` that selection then raises at every attempt, and
  `SessionStuck.SelectionCanGetStuck` runs a session into that state from its opening.
- A blank translation is stored before the draft committer refuses it
  (app/session/state.py:446-448), so the callback raises and no dispatch follows.
  `SessionStuck.BlankIsNotFollowed` is a concrete run and `TranslationSession.OnResult` says
  exactly when it raises; it cannot happen behind the scheduler, because the worker takes a
  blank result for a failure (`Pipeline.CallbackDispatches`).
- When finishing or extending a run of normalised audio raises, blocks already cut are lost
  with the exception while their positions and numbers are used up
  (MyVote-Mac-Demo/src/myvote_engine/dsp.py:209-232), so the run is numbered with a hole if
  it goes on. `Normalizer.NumbersCanHaveAHole` is a concrete run. `Normalizer.LosesIff` says,
  from the state before a call and its arguments, exactly which calls lose frames, and
  `Normalizer.RunKeeps` that a run is numbered without a gap if and only if no such call is
  followed by a returned frame of it, and is of exact length if and only if there is none.
- An event without an utterance name opens one under the session's next automatic name, but
  nothing reserves those names (app/session/state.py:228-232), so a client that uses one has
  unnamed events join its utterance: `SessionEvents.NamesCanClash`. A new utterance is opened
  if and only if the name is not in use, and it is in use only if an event brought it
  (`SessionEvents.UnnamedGoOn`). A named event moves where unnamed ones go only by finalising
  the utterance they go to.
- The tokenizer's opening comment says whitespace is not a token (app/utils/text.py:4), but a
  zero-width joiner takes whatever follows it into its token. `Text.TokenCanHoldSpace` is a
  concrete case and `Text.SpaceInsideIff` says exactly when it happens; nothing else here
  relies on tokens being free of whitespace.
- The scheduler's opening comment says accepted finals are never evicted for queue pressure.
  That holds (`Scheduler.AdmissionSparesFinals`), but a final that is already active can still
  be followed by a queued revision of the same segment (`Scheduler.FinalCanBeFollowed`); the
  two are ordered, not exclusive.

## Model

| member | source | states |
|---|---|---|
| Text.Tokenize | app/utils/text.py:41-71 | the tokenizer's loops compute the recursive token list |
| Text.ClusterEnd | app/utils/text.py:25-38 | the cluster scan ends where the recursive definition does |
| Text.TokensOrdered | app/utils/text.py:41-71 | tokens are nonempty, increasing and disjoint |
| Text.TokensExact | app/utils/text.py:41-71 | each token is the exact slice of the text it names and starts at no whitespace |
| Text.TokensCover | app/utils/text.py:41-71 | every character that is not whitespace lies in some token, so only whitespace lies between tokens |
| Text.PrefixStable | app/utils/text.py:41-71 | texts that agree up to a boundary of both have the same tokens and boundaries up to it |
| Text.ExtensionStable | app/utils/text.py:41-71 | extending a text leaves every old token as it was except those inside the one new token around the old end |
| Text.SpaceInsideIff | app/utils/text.py:25-38 | a whitespace character is part of a token if and only if a joiner that is itself inside the token, and not swallowed, stands right before it |
| Text.TokenCanHoldSpace | app/utils/text.py:34-35 | a concrete token that holds whitespace |
| Text.TokenGoesOnIff | app/utils/text.py:25-71 | a token that has come as far as a character holds it if and only if it is attached to what is before it, or the token is a word and it is a letter, digit or underscore other than Han and kana, an apostrophe before such a letter, or in a number a point or comma before a digit |
| Text.CommonPrefixLength | app/utils/text.py:74-82 | the loop returns the length of the shared prefix |
| Text.SharedFromAgrees | app/utils/text.py:74-82 | all sequences agree on that prefix |
| Text.SharedFromMaximal | app/utils/text.py:74-82 | and on no longer one |
| Stability.VerdictReach | app/streaming/stability.py:110-155 | a verdict ends on a token boundary, conflicts exactly when the protected prefix is lost, and never falls below it otherwise |
| Stability.VerdictEvidence | app/streaming/stability.py:110-155 | every stable token is protected, or passes the threshold with the whole window unanimous on it (or the text is final) |
| Stability.StableIff | app/streaming/stability.py:110-141 | before the final, without a conflict, a number of tokens is stable if and only if all are protected, or the whole window is unanimous on them, each passes the threshold and they are not the whole text with its last word still growing |
| Stability.ScoreBalances | app/streaming/stability.py:124-137 | a score is the weighted mean of what is known about the token: evidence above it and below it balance; what is unknown does not count |
| Stability.ScoreInRange | app/streaming/stability.py:124-137 | a score lies between the weakest and the strongest evidence |
| Stability.ScoreRises | app/streaming/stability.py:124-137 | waiting never lowers a score |
| Stability.ReportsLowest | app/streaming/stability.py:142-155 | a verdict reports the lowest score among the stable tokens, or among those scored if none is stable |
| Stability.WindowMoves | app/streaming/stability.py:52-88 | the window holds the latest hypotheses, each once |
| Stability.RecordsWhatIsSaid | app/streaming/stability.py:78-102 | exactly which hypotheses are refused, and that text, tokens, confidences and pause are recorded as supplied, confidences only when one probability came per token |
| Stability.CommitSucceeds | app/streaming/stability.py:157-169 | committing a verdict's own end succeeds unless it conflicts without an explicit final; afterwards nothing conflicts and the prefix has only grown |
| Stability.AgesStayExact | app/streaming/stability.py:78-102 | the recorded age of each token is when the unbroken agreement on it began, over the whole history of hypotheses |
| Stability.StabilityTracker.Observe | app/streaming/stability.py:78-102 | the new tracker state and result, or the error with the state unchanged |
| Stability.StabilityTracker.Refresh | app/streaming/stability.py:104-108 | a timer re-judges the same evidence and adds none |
| Stability.StabilityTracker.Commit | app/streaming/stability.py:157-169 | the new protected prefix and verdict, or the error with the state unchanged |
| Stability.StabilityTracker.Evaluate | app/streaming/stability.py:110-155 | the loops compute the verdict the evidence defines, reported score, confidence and age included |
| Revision.PlanRevision | app/streaming/revision.py:19-52 | the three loops compute the planned revision, ordering check included |
| Revision.KeptExactly | app/streaming/revision.py:33-52 | kept spans read the same in the new text, and the first dropped one was really touched |
| Revision.ProtectedSpansSurvive | app/streaming/revision.py:33-52 | spans inside a common prefix that ends on a boundary of the new text are all kept |
| Revision.BoundaryKeptIff | app/streaming/revision.py:33-52 | an old boundary before the first difference is a boundary of the new text unless one new token swallows both |
| Revision.KeptEndsAlignedIff | app/streaming/revision.py:39-44 | kept ends are all boundaries if and only if no new token joins the last kept end to the first difference |
| Revision.ExtensionKeepsAlignment | app/streaming/revision.py:40-44 | when the old text is a strict prefix, kept ends stay boundaries |
| Revision.ConflictingFinalCanMisalign | app/streaming/revision.py:40-44 | a concrete correction that leaves a kept end inside a token |
| Segmentation.SegmentPrefix | app/streaming/segmentation.py:223-274 | the loop computes the selection, and the guards give the two errors |
| Segmentation.Choose | app/streaming/segmentation.py:241-274 | the selection loop computes the recursive selection |
| Segmentation.SegmentMeaning | app/streaming/segmentation.py:223-274 | a selection starts at `start`, ends on a stable token, splits into consecutive chunks each accepted with the previous one as context, keeps to the budget but for one strong oversized sentence, and no longer run of accepted sentences fits |
| Segmentation.SegmentReach | app/streaming/segmentation.py:223-274 | a selection is a nonempty exact slice inside the stable prefix ending on a boundary |
| Segmentation.SelectionNotBlank | app/streaming/segmentation.py:240-274 | a selection always holds a character that is not whitespace |
| SessionInvariant.UnselectReleases | app/session/state.py:295-304 | a rollback releases an utterance to the earliest of its dropped segments, and one without dropped segments not at all |
| SessionInvariant.FoldTiles | app/session/state.py:295-304 | dropping the tail of a tiling gives back exactly the text from its first segment |
| SessionInvariant.RolledTiles | app/session/state.py:295-304 | after a rollback anywhere in the list each utterance's remaining segments still tile what is selected |
| SessionInvariant.PlanFits | app/session/state.py:269-274 | the ordering check in planning never fires, and kept segments read the same in the new text |
| SessionInvariant.SettleSound | app/session/state.py:275-293 | the rest of an event keeps the session invariant and its commit never fails |
| SessionInvariant.IngestStartSound | app/session/state.py:217-293 | an event is refused by its own checks or not at all, and every outcome keeps the invariant |
| SessionInvariant.IngestFinishSound | app/session/state.py:269-293 | an event that waited for an invalidation completes and keeps the invariant |
| SessionRuns.RestabilisedOk | app/session/state.py:352-358 | asking the tracker again never fails and only moves the protected prefix forward |
| SessionRuns.AppendedSound | app/session/state.py:385-394 | a selected segment continues its utterance's tiling and no other utterance's share changes |
| SessionRuns.SelectLoopSound | app/session/state.py:359-396 | selection terminates, keeps the invariant, and in an aligned session stays aligned and never raises |
| SessionRuns.EvaluateSound | app/session/state.py:337-350 | a timer keeps the invariant; in an aligned session it never fails |
| SessionRuns.UncontradictedEvent | app/session/state.py:260-282 | an accepted event that respects the protected prefix drops no segment and keeps every selected, stable and segment end a boundary of the new text |
| SessionRuns.ContradictingPartial | app/session/state.py:266-268 | a contradicting partial is put off: texts, segments and alignment stay |
| SessionRuns.ContradictingFinal | app/session/state.py:269-282 | after a contradicting final every other utterance stays aligned, and its own does if and only if no token joins its last kept segment to the first difference |
| SessionRuns.StuckIff | app/streaming/segmentation.py:233-238 | an attempt to select raises at once if and only if what is selected is not a stable boundary |
| SessionStuck.SelectionCanGetStuck | app/streaming/segmentation.py:233-238 | a concrete run from the opening of a session after which text is left and every attempt to select it raises |
| SessionStuck.BlankIsNotFollowed | app/session/state.py:446-448 | a concrete run from the opening of a session in which a blank translation is stored and no dispatch follows |
| SessionSteps.DispatchedSound | app/session/state.py:424-425 | dispatching keeps the session invariant |
| SessionSteps.ResultedSound | app/session/state.py:427-467 | a result keeps the session invariant whatever it names |
| SessionSteps.PerformSound | app/session/state.py:168-522 | every section of the session keeps its invariant |
| SessionSteps.RunSound | app/session/state.py:168-522 | over any run segments tile the selected text, identities stay apart and running means active |
| SessionSteps.SessionKeeps | app/session/state.py:168-522 | the same from a session's opening, each part written out, and alignment of every end without contradicting finals |
| SessionSteps.ConfiguredSound | app/session/state.py:199-205 | a session without utterances is sound and aligned under any settings |
| SessionSteps.SelectLoopAppends | app/session/state.py:359-396 | selection only appends untranslated segments with new identities |
| SessionSteps.PerformGrows | app/session/state.py:168-522 | only a result translates; nothing else changes, moves or revives a translation |
| SessionSteps.PerformAligned | app/session/state.py:260-282 | a section other than a reset or a contradicting final drops no segment and keeps alignment |
| SessionSteps.RunAligned | app/session/state.py:260-396 | a run without contradicting finals stays aligned, through resets too; without resets it never rolls anything back and the segments selected so far stay, in order, with their text |
| SessionEvents.AcceptedIff | app/session/state.py:217-244 | an event is accepted if and only if it fits the session, keeps its utterance's speaker, takes back no final, and what the session would then hold is within its limits |
| SessionEvents.EventIs | app/session/state.py:217-293 | a refused event moves at most the counter of names; an accepted one is heard by exactly one utterance, and then its text, finality, revision and stable end are written and failed segments retried, unless it is a contradicting partial; every other utterance at most gives back selected text |
| SessionEvents.OneHears | app/session/state.py:251-263 | no event is heard by two utterances |
| SessionEvents.NamedHeard | app/session/state.py:228-254 | an event with a name is heard by the utterance it names, or refused |
| SessionEvents.UnnamedGoOn | app/session/state.py:228-254 | in any run, after an event without a name the next such event goes to the same utterance and opens none, whatever named events, timers and results came between, until that utterance is final; then it goes to another, under the next automatic name |
| SessionEvents.NamesCanClash | app/session/state.py:228-232 | a client that takes the next automatic name has unnamed events join its utterance |
| SessionEvents.ActionSteady | app/session/state.py:168-522 | nothing but an event and a reset changes texts, finality or where unnamed events go |
| SessionSelection.StableIsCurrent | app/session/state.py:352-358 | before selecting, a session takes what the tracker now calls stable, unless the text is contradicted |
| SessionSelection.SelectionStops | app/session/state.py:359-396 | selection touches one utterance, adds segments only while both limits leave room, and stops only because nothing is left, there is no room, the segmenter raises, or there is nothing to write |
| SessionSelection.SegmentsAreChosen | app/session/state.py:359-394 | every segment selected is what the segmenter offered there and the policy wrote, under the next number |
| SessionSelection.SweepEnds | app/session/state.py:345-349 | a sweep ends with nothing waiting, or at an utterance where selection stopped for a reason, all before it done |
| SessionSelection.EarlierFirst | app/session/state.py:343-349 | in any run a timer selects nothing from a later utterance while an earlier one waits, and adds segments only while there is room |
| SessionSelection.TimerSweeps | app/session/state.py:337-350 | a timer of the current generation sweeps and lets the session dispatch unless selection raised; any other does nothing |
| SessionSelection.ContextIsNewest | app/session/state.py:368-369 | the context is the newest segments in order, as many as asked for |
| SessionSelection.ResultWrites | app/session/state.py:427-449 | a result completes the one running segment it names with its translation if that fits the limits, and otherwise marks it failed |
| SessionSelection.OtherResults | app/session/state.py:427-434 | any other result changes nothing |
| SessionSelection.DispatchesFirst | app/session/state.py:399-425 | the segment submitted is the first ready one of a connected session with nothing running |
| SessionSelection.NothingDispatches | app/session/state.py:399-423 | otherwise, or when the queue is full, no segment changes |
| SessionLifetime.PerformLives | app/session/state.py:168-197 | every disconnection, reset and close starts a new generation and nothing else does; a session connects unless closed, and a close is for good |
| SessionLifetime.LateChangesNothing | app/session/state.py:427-434 | once a session has been cut off, however it goes on, no timer and no answer started before has any effect |
| SessionLifetime.ReconnectionRetries | app/session/state.py:168-197 | a disconnection loses no segment, and the next connection starts again with the first one not done |
| SessionLifetime.ClosedForGood | app/session/state.py:513-522 | in any run a closed session selects, submits and translates nothing more |
| SessionClass.Mine | app/session/state.py:269 | the filter loop computes the utterance's share of the list |
| SessionClass.PositionOf | app/session/state.py:272-273 | the search finds where the utterance's segment stands in the list |
| SessionClass.TranslationSession.Ingest | app/session/state.py:217-293 | the session's whole new state after an event; it is refused exactly for the first check it fails, and then only the counter of automatic names moves |
| SessionClass.TranslationSession.Configure | app/session/state.py:199-205 | other settings are taken exactly while there is no utterance, and keep the session sound |
| SessionClass.TranslationSession.Rollback | app/session/state.py:295-305 | the new state once affected segments are dropped, before the scheduler is told |
| SessionClass.TranslationSession.SettleText | app/session/state.py:275-293 | the new state once text, protected prefix and retries are written |
| SessionClass.TranslationSession.ResumeEvent | app/session/state.py:305-310 | the new state when the invalidation returns |
| SessionClass.TranslationSession.EvaluateAll | app/session/state.py:337-350 | the sweep over utterances in source order computes the timer's step |
| SessionClass.TranslationSession.SelectMore | app/session/state.py:359-396 | the selection loop computes the recursive selection and its outcome |
| SessionClass.TranslationSession.Offered | app/session/state.py:399-425 | the new state after a submission, accepted or refused |
| SessionClass.TranslationSession.OnResult | app/session/state.py:427-467 | the new state after a result, stale ones discarded; the callback raises exactly when it has accepted a translation that cannot be proposed |
| SessionClass.TranslationSession.Disconnected | app/session/state.py:186-197 | running segments are ready again once the scheduler has cancelled |
| Scheduler.CoalesceHolds | app/translation/scheduler.py:118-133 | coalescing removes exactly the replaceable entries and adds the new one, with the length the limits are checked against |
| Scheduler.CoalescePlace | app/translation/scheduler.py:126-137 | the new entry stands where the first one it replaces stood, or at the end, and the others keep their order |
| Scheduler.SubmittedIff | app/translation/scheduler.py:109-137 | a job is refused exactly when the scheduler is closing, a newer revision of its segment is live, or what it would leave queued exceeds a limit |
| Scheduler.AdmittedKeeps | app/translation/scheduler.py:105-142 | admission keeps the scheduler invariant, both limits included |
| Scheduler.AdmissionSparesFinals | app/translation/scheduler.py:112-139 | admission removes no queued final and marks no active final stale, and touches no other session's requests |
| Scheduler.TakeIs | app/translation/scheduler.py:172-187 | the first ready session always has work and no active job, so the inner loop never skips |
| Scheduler.StepKeeps | app/translation/scheduler.py:88-254 | every step keeps limits, per-segment order, one active job per session, an exact ready set and an exact ledger |
| Scheduler.RunKeeps | app/translation/scheduler.py:88-254 | in every run from the start both limits hold, at most one job per session and `workers` in all are active, queues are ordered per segment, and exactly the sessions with work and no active job are ready, once each |
| Scheduler.FinalCanBeFollowed | app/translation/scheduler.py:135-139 | a concrete run with a final active and a revision of its segment queued |
| Scheduler.StepFates | app/translation/scheduler.py:189-221 | a callback starts only for a live request of an open scheduler, and a superseded, cancelled or invalidated entry never gets one |
| Scheduler.RunFates | app/translation/scheduler.py:98-254 | over a run what was delivered stays delivered once, and what was doomed is never delivered |
| Scheduler.CloseDooms | app/translation/scheduler.py:235-254 | closing dooms everything not yet delivered |
| SchedulerFates.StepFate | app/translation/scheduler.py:98-254 | a step dooms exactly the waiting requests it withdraws (a later revision of one that is not final, a cancellation, an invalidation of its segment, the end), and the return of a live one delivers it |
| SchedulerFates.RunFate | app/translation/scheduler.py:98-254 | over any run a request is doomed exactly if a step withdrew it in time, and otherwise delivered or still waiting |
| Scheduler.OvertakenAtMost | app/translation/scheduler.py:88-96 | a session at ready position k is overtaken by at most k takes |
| SchedulerClass.FindReplacements | app/translation/scheduler.py:118-120 | the comprehension finds exactly the replaceable positions |
| SchedulerClass.Rebuild | app/translation/scheduler.py:127-133 | the rebuilt queue is the coalesced one |
| SchedulerClass.TranslationScheduler.Submit | app/translation/scheduler.py:105-142 | the new state of an admission, or the error with the state unchanged |
| SchedulerClass.TranslationScheduler.CancelSession | app/translation/scheduler.py:144-150 | the whole new state after a cancellation |
| SchedulerClass.TranslationScheduler.Invalidate | app/translation/scheduler.py:152-170 | the whole new state after an invalidation |
| SchedulerClass.TranslationScheduler.Take | app/translation/scheduler.py:172-187 | the whole new state after a turn |
| SchedulerClass.TranslationScheduler.Return | app/translation/scheduler.py:189-221 | the whole new state when a backend returns, and whether its callback runs |
| SchedulerClass.TranslationScheduler.Close | app/translation/scheduler.py:235-254 | the whole new state after closing |
| Pipeline.NextKeeps | app/session/state.py:168-522 | every step of any session, worker or shutdown keeps the joint invariant |
| Pipeline.RunKeeps | app/session/state.py:168-522 | and so does every interleaving |
| Pipeline.RunningIffOwned | app/session/state.py:399-467 | in every reachable state a segment is running exactly when it is active and exactly when the session's one live scheduler entry is for it, with its current revision and source |
| Pipeline.CallbackIffFresh | app/session/state.py:427-434 | while the scheduler is open a callback changes its session exactly when its entry was never marked stale, and otherwise changes nothing |
| Pipeline.AcceptsIffFresh | app/session/state.py:427-434 | the session's own staleness test agrees with the scheduler's flag |
| Pipeline.DispatchNeverOutrun | app/translation/scheduler.py:112-117 | a session never submits a revision the scheduler has outrun |
| Pipeline.TranslationsCurrent | app/session/state.py:427-467 | in every reachable state each translation is the backend's answer for exactly the text its segment covers now |
| Pipeline.RepliesNotBlank | app/translation/worker.py:79-87 | in every reachable state no worker has passed on a blank translation |
| Pipeline.CallbackDispatches | app/session/state.py:444-467 | in every run the callback of a fresh entry can propose its translation, returns, and goes on to dispatch |
| Pipeline.DispatchQueues | app/session/state.py:399-425 | in every run, with room in the queue, dispatching queues exactly the job of the first ready segment, which is then running |
| SpeakerDecision.Sweep | MyVote-Mac-Demo/src/myvote_engine/speaker_captions.py:304-334 | the boundary sweep measures exactly the time each label is heard alone and the time several or unknown voices are |
| SpeakerDecision.Decide | MyVote-Mac-Demo/src/myvote_engine/speaker_captions.py:304-347 | the code's decision is the decision by measure, with coverage and reason |
| SpeakerDecision.CoveredChangesNothing | MyVote-Mac-Demo/src/myvote_engine/speaker_captions.py:304-347 | evidence covered instant by instant by the same label changes no decision |
| SpeakerDecision.NamedIff | MyVote-Mac-Demo/src/myvote_engine/speaker_captions.py:304-347 | a caption is named after a voice if and only if no other is known in it, little enough is muddled, and the voice is alone for long enough |
| SpeakerCaptions.PruneKeepsRelevant | MyVote-Mac-Demo/src/myvote_engine/speaker_captions.py:153-172 | expiry, eviction and forgotten resolutions change nothing a retained caption hears |
| SpeakerCaptions.UntouchedRelevant | MyVote-Mac-Demo/src/myvote_engine/speaker_captions.py:268-292 | evidence that does not touch a caption changes nothing it hears, renamed earlier intervals included |
| SpeakerCaptions.PatchedNames | MyVote-Mac-Demo/src/myvote_engine/speaker_captions.py:349-374 | rechecking a list of captions names each by its decision and no other |
| SpeakerCaptions.RegisterKeeps | MyVote-Mac-Demo/src/myvote_engine/speaker_captions.py:181-209 | registering a caption keeps the agreement with recomputation |
| SpeakerCaptions.ObserveKeeps | MyVote-Mac-Demo/src/myvote_engine/speaker_captions.py:240-293 | so does new evidence |
| SpeakerCaptions.ExpireKeeps | MyVote-Mac-Demo/src/myvote_engine/speaker_captions.py:174-179 | so does the clock |
| SpeakerCaptions.ApplyKeeps | MyVote-Mac-Demo/src/myvote_engine/captions.py:153-283 | so do newer sources, overrides by people and supersession |
| SpeakerCaptions.RunKeeps | MyVote-Mac-Demo/src/myvote_engine/speaker_captions.py:153-374 | over any run from an empty reducer every retained current caption that no person named carries the decision of a full recomputation, and both capacities hold |
| SpeakerCaptions.PruneForgetsLittle | MyVote-Mac-Demo/src/myvote_engine/speaker_captions.py:153-172 | pruning forgets evidence older than the history, then the earliest endings beyond the capacity, and captions that start before what is left; nothing else |
| SpeakerNames.EvidenceStays | MyVote-Mac-Demo/src/myvote_engine/speaker_captions.py:153-293 | in any run evidence taken in is retained until it ends before the floor, which rises only with the clock or for want of room |
| SpeakerNames.RegistrationStays | MyVote-Mac-Demo/src/myvote_engine/speaker_captions.py:181-209 | a registered caption is retained unless it starts before the floor, and no other goes but for age, being out of date, or to make way |
| SpeakerNames.CaptionsStay | MyVote-Mac-Demo/src/myvote_engine/speaker_captions.py:240-293 | evidence makes no caption go but those too old and those out of date |
| SpeakerNames.ConfirmedIff | MyVote-Mac-Demo/src/myvote_engine/speaker_captions.py:153-172 | over any run a candidate is resolved to a speaker exactly when an assignment confirmed it so and evidence of it has been retained ever since |
| SpeakerNames.NamedFromAssignments | MyVote-Mac-Demo/src/myvote_engine/speaker_captions.py:295-347 | over any run the name of every retained current caption that no person named is decided by the assignments observed: confirmed ones speak for their speaker, provisional ones for whom their candidate was confirmed as |
| SpeakerNames.OneVoiceNames | MyVote-Mac-Demo/src/myvote_engine/speaker_captions.py:295-347 | a caption that hears a single voice, directly or through a confirmed candidate, carries its name exactly if it hears it for long enough |
| SpeakerNames.NoVoiceNoName | MyVote-Mac-Demo/src/myvote_engine/speaker_captions.py:295-347 | a caption that hears only evidence that speaks for nobody carries no name |
| SpeakerNames.ConfirmationReachesBack | MyVote-Mac-Demo/src/myvote_engine/speaker_captions.py:262-293 | once a confirmation is taken in and kept, every current caption no person named that hears, at every instant, only its speaker or its candidate carries its name |
| SpeakerCaptionsClass.Merge | MyVote-Mac-Demo/src/myvote_engine/speaker_captions.py:279-284 | merged intervals are separate, ordered and cover the same instants |
| SpeakerCaptionsClass.BisectLeft | MyVote-Mac-Demo/src/myvote_engine/speaker_captions.py:290 | the bisection splits the starts at the caption's end |
| SpeakerCaptionsClass.MeetsAny | MyVote-Mac-Demo/src/myvote_engine/speaker_captions.py:285-292 | looking at the last interval that starts in time decides whether any meets the caption |
| SpeakerCaptionsClass.SelectTouched | MyVote-Mac-Demo/src/myvote_engine/speaker_captions.py:268-293 | the captions to recheck are exactly those some affected interval meets |
| SpeakerCaptionsClass.CaptionStore.UpsertSource | MyVote-Mac-Demo/src/myvote_engine/captions.py:153-176 | a newer source keeps the speaker fields, an older one is not stored, and one that moves track or brings a verdict is an error |
| SpeakerCaptionsClass.CaptionStore.UpdateSpeaker | MyVote-Mac-Demo/src/myvote_engine/captions.py:218-245 | exactly when an update is accepted and what it writes |
| SpeakerCaptionsClass.CaptionStore.SupersedeSegment | MyVote-Mac-Demo/src/myvote_engine/captions.py:266-283 | a caption is superseded once |
| SpeakerCaptionsClass.SpeakerCaptionReducer.Prune | MyVote-Mac-Demo/src/myvote_engine/speaker_captions.py:153-172 | the prune loops compute the pruned state, floor included |
| SpeakerCaptionsClass.SpeakerCaptionReducer.RegisterCaption | MyVote-Mac-Demo/src/myvote_engine/speaker_captions.py:181-209 | reducer and store after a registration, or the error with both unchanged |
| SpeakerCaptionsClass.SpeakerCaptionReducer.Observe | MyVote-Mac-Demo/src/myvote_engine/speaker_captions.py:240-293 | reducer and store after an observation, or the error with both unchanged |
| SpeakerCaptionsClass.SpeakerCaptionReducer.Recheck | MyVote-Mac-Demo/src/myvote_engine/speaker_captions.py:349-374 | one recheck drops, preserves or renames |
| Speakers.CreditBacks | MyVote-Mac-Demo/src/myvote_engine/speakers.py:284-291 | crediting a candidate extends its disjoint clean evidence |
| Speakers.WeighedKeeps | MyVote-Mac-Demo/src/myvote_engine/speakers.py:308-326 | weighing a candidate keeps, drops or mints it with enough evidence behind it |
| Speakers.ObserveKeeps | MyVote-Mac-Demo/src/myvote_engine/speakers.py:228-326 | an observation keeps the evidence invariant and all capacities |
| Speakers.RunKeeps | MyVote-Mac-Demo/src/myvote_engine/speakers.py:194-326 | over any run from a fresh or resumed tracker every new speaker was minted on enough clean observations, pairwise disjoint in time, with enough speech, and all capacities hold |
| Speakers.IdentifiersAreFresh | MyVote-Mac-Demo/src/myvote_engine/speakers.py:194-326 | an observation brings only speaker and candidate numbers above all earlier ones |
| Speakers.NoNumberTwice | MyVote-Mac-Demo/src/myvote_engine/speakers.py:194-326 | over a whole run no speaker or candidate number is issued twice, nor one from before it |
| Speakers.MatchIff | MyVote-Mac-Demo/src/myvote_engine/speakers.py:254-277 | a clean observation is given to a known speaker if and only if that speaker is alike enough and ahead of every other by the margin |
| Speakers.MatchMoves | MyVote-Mac-Demo/src/myvote_engine/speakers.py:263-277 | a match changes the profile it names and no other, and its prototype only on strong evidence later than what it rests on |
| Speakers.NobodyStandsOut | MyVote-Mac-Demo/src/myvote_engine/speakers.py:260-279 | a voice too close to a known speaker, with none standing out, is given to nobody and moves nobody |
| Speakers.CandidateMoves | MyVote-Mac-Demo/src/myvote_engine/speakers.py:281-326 | a new voice is credited to the candidate that stands out, unless its audio overlaps that one's evidence, and no other moves; that candidate then waits, is made a speaker or is given up for want of room |
| Speakers.NoCandidateStandsOut | MyVote-Mac-Demo/src/myvote_engine/speakers.py:281-297 | a voice too close to a candidate, with none standing out, is given to nobody and moves nobody |
| Speakers.StrangerStarts | MyVote-Mac-Demo/src/myvote_engine/speakers.py:293-307 | a voice unlike everyone starts a candidate, and if there is no room the one with the oldest evidence makes way |
| Speakers.KeptIff | MyVote-Mac-Demo/src/myvote_engine/speakers.py:194-204 | exactly the candidates idle for too long are forgotten |
| Speakers.RemembersLatest | MyVote-Mac-Demo/src/myvote_engine/speakers.py:228-252 | over any run the tracker remembers exactly the latest samples it took in, in order, and its clock never runs back |
| Speakers.OnlineSpeakerTracker.Observe | MyVote-Mac-Demo/src/myvote_engine/speakers.py:228-326 | the tracker's whole new state and the assignment with its similarity, or the error with the state unchanged |
| Speakers.OnlineSpeakerTracker.Expire | MyVote-Mac-Demo/src/myvote_engine/speakers.py:194-204 | the expiry loop computes the step, and the clock never runs back |
| SpeechWindows.SplitKeeps | MyVote-Mac-Demo/src/myvote_engine/audio.py:339-344 | splitting at the maximum keeps every window exact and every spoken sample owed or emitted |
| SpeechWindows.PushKeeps | MyVote-Mac-Demo/src/myvote_engine/audio.py:307-354 | a frame keeps the record of what was heard, emitted and is still owed |
| SpeechWindows.SpeechEmittedOnce | MyVote-Mac-Demo/src/myvote_engine/audio.py:225-369 | over any stream, once flushed, every spoken sample is emitted by exactly one final window; final intervals are ordered and disjoint; every window is an exact slice of at most the maximum |
| SpeechWindows.ShownOnTime | MyVote-Mac-Demo/src/myvote_engine/audio.py:307-354 | after any stream, what counts as speech by the two thresholds, when a segment is open, and exactly which windows a frame brings: full ones with their overlap, the last one of a segment, or one incremental window exactly when it is due |
| SpeechWindows.FlushLaid | MyVote-Mac-Demo/src/myvote_engine/audio.py:356-369 | a flush brings what the open segment still has to show, and nothing else |
| SpeechWindows.OpenIff | MyVote-Mac-Demo/src/myvote_engine/audio.py:320-351 | a segment is open exactly while there was speech within the endpoint silence |
| SpeechWindows.AcceptedIff | MyVote-Mac-Demo/src/myvote_engine/audio.py:307-316 | a frame is accepted exactly when the builder is open and unbroken, the probability is one, and the frame goes on where the last ended; a break is for good |
| SpeechWindows.HeldIsBounded | MyVote-Mac-Demo/src/myvote_engine/audio.py:282-284 | held audio stays below maximum window plus endpoint plus pre-roll |
| SpeechWindows.ClockIsExact | MyVote-Mac-Demo/src/myvote_engine/audio.py:86-97 | an accepted frame starts exactly where the counted samples end on the capture clock |
| SpeechWindows.SpeechWindowBuilder.PushFrame | MyVote-Mac-Demo/src/myvote_engine/audio.py:307-354 | the builder's whole new state and the windows, or the error |
| SpeechWindows.SpeechWindowBuilder.Emit | MyVote-Mac-Demo/src/myvote_engine/audio.py:335-354 | the splitting loop and the endpoint compute the step |
| SpeechWindows.SpeechWindowBuilder.FlushAll | MyVote-Mac-Demo/src/myvote_engine/audio.py:356-369 | the last window and the closed state |
| Cues.RoundingIsTight | MyVote-Mac-Demo/src/myvote_engine/captions.py:356-362 | rounding widens a cue by less than a millisecond on either side and never empties it |
| Cues.List | MyVote-Mac-Demo/src/myvote_engine/captions.py:345-362 | the loop lists exactly the exported cues, or reports impossible timing |
| Cues.ListedProper | MyVote-Mac-Demo/src/myvote_engine/captions.py:352-362 | every listed cue lasts some time |
| Cues.Merge | MyVote-Mac-Demo/src/myvote_engine/captions.py:365-381 | merged cues are ordered and disjoint, and at every millisecond show exactly the texts of the cues active then, in order |
| Ingress.ObservedKeeps | MyVote-Mac-Demo/src/myvote_engine/ingress_timing.py:42-63 | observing keeps frames of one run consecutive and the history bounded, through gaps and evictions |
| Ingress.AnchorIff | MyVote-Mac-Demo/src/myvote_engine/ingress_timing.py:65-87 | a receipt is returned if and only if retained frames of one unbroken run cover the interval and the one it ends in has the track and epoch; it is that frame's receipt |
| Ingress.RunsAreUnbroken | MyVote-Mac-Demo/src/myvote_engine/ingress_timing.py:38-63 | the latest frames given are retained as they were, and two neighbours share a run if and only if epoch, number and time go on and no gap was marked between them |
| Ingress.AnchorFromFrames | MyVote-Mac-Demo/src/myvote_engine/ingress_timing.py:42-87 | an interval is answered exactly when, among the latest frames given, unbroken ones lead from its start to one of the track and epoch that it ends in |
| Ingress.IngressTimeline.Observe | MyVote-Mac-Demo/src/myvote_engine/ingress_timing.py:42-63 | the timeline's whole new state, or the error with the state unchanged |
| Ingress.IngressTimeline.Lookup | MyVote-Mac-Demo/src/myvote_engine/ingress_timing.py:65-87 | the backward loop computes the search and counts misses |
| Normalizer.ChopExtends | MyVote-Mac-Demo/src/myvote_engine/dsp.py:209-220 | cutting emits consecutive, consecutively numbered blocks and loses no sample |
| Normalizer.FinishIff | MyVote-Mac-Demo/src/myvote_engine/dsp.py:194-232 | finishing a run succeeds exactly when what was sent, what is pending and the tail fit the completed duration, and cuts frames only to lose them exactly when they fall short of it |
| Normalizer.LosesIff | MyVote-Mac-Demo/src/myvote_engine/dsp.py:194-331 | a call loses frames it has cut if and only if the state before it and its arguments say so: a gap or flush falls short of the run's duration, or a gap completes a run that still owed frames and the chunk's own output is out of bounds |
| Normalizer.LostOf | MyVote-Mac-Demo/src/myvote_engine/dsp.py:194-331 | only frames of the run that was current can be lost |
| Normalizer.NumbersCanHaveAHole | MyVote-Mac-Demo/src/myvote_engine/dsp.py:222-232 | a concrete run whose only returned frame is number 1 |
| Normalizer.PushKeeps | MyVote-Mac-Demo/src/myvote_engine/dsp.py:251-322 | a chunk keeps the record of everything cut, through gaps, drops and errors |
| Normalizer.RunKeeps | MyVote-Mac-Demo/src/myvote_engine/dsp.py:194-342 | from the start, through gaps, drops, resets and errors, returned frames never overlap or rewind and numbers rise; a run is numbered from zero without a gap if and only if no loss in it is followed by a returned frame; a finished run has returned its input's duration rounded down less what it lost, and all of it if and only if no call lost frames of it |
| Normalizer.NativeRateNeverRaises | MyVote-Mac-Demo/src/myvote_engine/dsp.py:194-232 | at 16 kHz no call of any run raises over the resampler's output and no frame is ever lost |
| Normalizer.PushLater | MyVote-Mac-Demo/src/myvote_engine/dsp.py:251-322 | whatever a call does, raising or not, run, number and time only move forward |
| NormalizerTimes.RunEndsIff | MyVote-Mac-Demo/src/myvote_engine/dsp.py:251-300 | a run ends exactly at a bad time stamp or a chunk that departs from the one before it by flag, number, device position or clock; where none has begun, a chunk from before the last frame's end is dropped |
| NormalizerTimes.FramesStartOnTime | MyVote-Mac-Demo/src/myvote_engine/dsp.py:211-303 | over any run the frames of each continuous run start one after the other, sample by sample, from the capture time of the chunk that began it |
| NormalizerTimes.AlarmIff | MyVote-Mac-Demo/src/myvote_engine/dsp.py:304-318 | the drift alarm is set exactly when the clock has slipped too far from the device's samples since the chunk that began the run |
| Normalizer.StreamingNormalizer.Drain | MyVote-Mac-Demo/src/myvote_engine/dsp.py:209-220 | the block loop computes the recursive cut |
| Normalizer.StreamingNormalizer.PushChunk | MyVote-Mac-Demo/src/myvote_engine/dsp.py:251-322 | the whole new state with the frames, or with the error |
| Fence.ResolvedIsEmpty | MyVote-Mac-Demo/src/myvote_engine/gateway_server.py:105-134 | a resolved fence is closed and no call runs under it |
| Fence.WokenExactlyOnce | MyVote-Mac-Demo/src/myvote_engine/gateway_server.py:105-131 | once a fence is closed and empty exactly one side wakes the waiter, before that none |
| Fence.ResolvedForGood | MyVote-Mac-Demo/src/myvote_engine/gateway_server.py:105-121 | after a fence closes no further function starts under it |
| Fence.ResetFollowsEveryCall | MyVote-Mac-Demo/src/myvote_engine/gateway_server.py:245-257 | the engine is reset, and a new session admitted, only when no native call is running |
| Fence.RunKeeps | MyVote-Mac-Demo/src/myvote_engine/gateway_server.py:82-257 | every interleaving keeps counts and wake-ups exact |
| Fence.NativeCallFence.Begin | MyVote-Mac-Demo/src/myvote_engine/gateway_server.py:105-109 | a call gets inside if and only if the fence has not closed |
| Fence.NativeCallFence.End | MyVote-Mac-Demo/src/myvote_engine/gateway_server.py:112-116 | a leaving call is told to wake the waiter if and only if the fence is closed and nobody is left inside |
| Fence.NativeCallFence.Close | MyVote-Mac-Demo/src/myvote_engine/gateway_server.py:126-131 | the closer is told to wake the waiter if and only if nobody is inside, and whoever is inside stays |

## Left out

- HTTP, WebSocket, gRPC and model adapters, launchers, authentication, metrics, logging and configuration ranges: input and output, or bookkeeping.
- The completeness heuristics for English and Korean, prompts, and the branches of the read/write policy: word lists and thresholds without a specification beyond themselves; they are parameters.
- The draft committer, committed flags, snapshots, the glossary and the translation context sent with a job: apart from the blank translation above they do not influence which segment is translated or stored.
- A run of one session keeps its settings: `configure` is a method of its own and, since it needs a session without utterances, runs under the new settings start from there.
- Argument checks on a job and a draft that concern their source, identifiers and sizes (app/translation/worker.py:31-66, app/streaming/commit.py:39-43): a selected source is proved not blank; the rest is validation.
- Timers: an evaluation may happen at any moment, which includes every moment a timer would choose.
- Utterances, segments and trackers inside a session are values replaced in its map and list, so aliasing between them is not modelled; a segment name "s7" is the number 7 and its uniqueness is proved.
- Nothing orders a worker's slot being given back after the dispatch its callback triggers; the code does, so the model allows more interleavings than the code.
- Cancellation of worker or retirement tasks by a process that is shutting down.
- How long a worker waits: the order in which ready sessions are served is proved, wall-clock time is not modelled.
- Automatic speaker updates by anyone but the reducer: its documentation makes it the only automatic writer; people may override at any time.
- Speaker and caption float fractions are reals; ties between equal similarities go to the larger number, which is the larger name up to four digits.
- Identifier and length checks on captions, evidence and observations: validation.
- Sample values, decoding and clipping in the normalizer: only how many samples there are matters to its clock; a run number stands for the capture epoch, and a resampler that raises by itself counts as one with bad output.
- Text export beyond the cue list (escaping, labels, time stamps): formatting.
- The sort of captions into export order: it is the library's; the model starts from captions in that order.
