# Verified model of the interview back end

Dafny model and proofs for the parts of the back end whose correctness is hard to see by reading
one function: the interview orchestrator, the shell that drives it, the model-call wrapper with its
ledgers, the rubric version store with its policy gate, and the feature-flag cache.
`dafny verify dfyconfig.toml` checks everything.

* **The machine.** `StateMachine.Transition` is the total transition function over 7 phases, 9 events
  and 11 commands; `Execute` folds it over any event sequence, so a theorem about `Execute` covers
  every order of candidate turns, agent replies, late assessments, ticks, resumes and aborts.
  `Raised` stands for `OrchestratorStateError`. The loop that folds assessment items is a method,
  proved equal to its fold. `MachineClocks` and `MachineDecisions` give every deadline and every
  decision from the events of the run alone, in microseconds and over the assessor's whole history.
* **The shell.** `DevSession` says what `_drive`, `create_session`, `post_turn` and a scheduled assessor
  run do to one session; `DevSessionService.Service` is the object with its mutable fields and its
  worklist loop, proved to do exactly that. Agents, clock, enforcement flag and trace sink are chosen
  by an arbitrary environment. The payload of every agent request is built as JSON and measured
  (`RequestPayload`): one that is too long raises, and that error leaves the drive; what a request says
  is in `RequestContents`. `DevSessionTrail` shows that a whole session is a run of the machine;
  `DevSessionReplies` and `DevSessionScores` follow what the agents produce into transcript and coverage.
* **The wrapper.** `ModelCall` has the three nested retries, the one trace write per call and the two
  ledgers; `SharedBudget` cuts a call at its awaits and interleaves the stretches of any calls, and
  `SessionBudget` is the ledger of checks and charges that this refines.
* **The rubric store.** `RubricStore.Store` flattens files into five tables and rebuilds a version's tree
  by grouping; `RubricGate` is the diff gate in front of it. The import, the snapshot and the gate are
  methods with the program's own loops.
* **Feature flags.** `FeatureFlags` runs each stretch of a call between two awaits as one step, with
  writers, notifications, listener loss and the clock in between.

## What the proofs found

* **A long plan gets a session stuck.** A request may carry 200 000 characters
  (app/backend/llm/vertex.py:97), plan validation sets no limit, and nothing catches the error of building
  the request (app/backend/agents/interviewer.py:228-238). An operation fails exactly when a request it
  builds does not fit (`DevSessionRuns.SessionsSettleIffRequestsFit`); after `post_turn` has failed so, the
  session is refused every turn although it has not ended. `DevSessionWitness.LongPlanGetsStuck` is one. A plan,
  scripts and answers short enough together never get there (`DevSessionLimits.ShortSessionsSettle`).
* **An empty answer misleads the assessor.** The inputs of an assessment are the entries its turn id names
  exactly when the answer has text (`DevSessionTranscript.AssessorSeesItsTurn`); an empty answer is scored
  as the turn before, word for word (`DevSessionWitness.EmptyAnswerIsScoredAsTheOneBefore`). The HTTP layer
  refuses empty text (app/backend/api/dev_sessions.py:76); the service itself does not.
* **Evidence can be revoked.** `best_confidence` is that of the last item at the best level, so an item that is
  no lower than the best so far, and below the confidence asked for, takes an answer back; nothing else does
  (`MachineEvidence.AnswersAreTakenBackIff`). `MachineWitness.AnsweredIsProbedAgain` is a run in which an
  answered competency has gone on to its next seed and is then probed again.
* **The last competency is never closed.** A recorded gap comes with a `close_competency` move exactly when
  another competency follows; the last one gives way to Q&A with an acknowledgement
  (`MachineVerdicts.RunsMarkTheirVerdicts`).
* **A candidate turn id reused while its assessment is pending loses one.** A result takes every pending entry
  of its id. What is scheduled splits into pending and resolved exactly when each result found its id pending
  once (`MachineAssessments.AssessmentsSplit`); whatever order results come in, nothing is lost exactly when no
  answer is accepted under an id still pending (`NoOrderLosesIff`). `MachineWitness.ReusedIdLosesAnAssessment`
  is a run that loses one; an id reused after its result has landed does no harm (`ReusedLaterLosesNothing`).
  No session of the shell loses any (`DevSessionTrail.SessionsLoseNothing`).
* **The gate and the importer disagree on ids that start with `block.`.** The importer's rename check ignores
  them on the new side only, so it refuses every later payload once a competency carries such an id:
  `RubricGateProperties.GateImpliesImporter` is the exact condition, and
  `GatePassesWhatTheImporterRefuses` a pair of directories.
* **A notification does not settle a flag by itself.** A read in flight can put the older value back for up
  to a minute; `FeatureFlags.NotificationSettles` is the exact condition, and
  `FeatureFlags.OlderValueAfterNotification` a run.
* **The session budget is overshot by concurrent callers,** by at most one call each, and that much is
  reachable (`SessionBudget.OvershootIsBounded`, `OvershootIsReached`); the wrapper, its calls interleaved at every
  await over one shared record, is such a system (`SharedBudget.ConcurrentCallsAreBounded`).
* **`attempts` says 1** when the wall clock or an unclassified exception ends a call
  (`ModelCallProperties.AttemptsAreCounted`).

## Model

| member | source | states |
|---|---|---|
| StateMachine.RecordLevels | app/backend/orchestrator/state_machine.py:963-991 | the loop over the items leaves their fold, or marks the focus not assessable when there are none |
| MachineInvariant.ReachableInvariant | app/backend/orchestrator/state_machine.py:576-595 | from any payload, over any events, no run raises, and plan, loop indices, probe count, turn-taking, pending turn id and failure streak fit together |
| MachineInvariant.StepKeepsInvariant | app/backend/orchestrator/state_machine.py:1367-1421 | every event keeps that invariant and is never refused in it |
| MachineEdges.RunsEndForACause | app/backend/orchestrator/state_machine.py:1367-1421 | every run that has ended was ended by one event: the operator, a refused plan, a tick for silence or out of CLOSE, the reply to the closing, or in TECH and Q&A the second failure of one interviewer turn; the decision recorded is the one for that event; nothing the candidate or the assessor does ends one |
| MachineClocks.ClocksHoldTheRun | app/backend/orchestrator/state_machine.py:1047-1079 | in every run the session clock holds when the session was opened, the competency clock when the competency was entered, the questions' clock when they began |
| MachineClocks.TicksKeepTime | app/backend/orchestrator/state_machine.py:1326-1346 | in every run a tick leaves TECH iff the session's minutes since its start are over, Q&A iff those or the questions' own are, CLOSE always, and aborts first of all iff the silence is longer than allowed, all in microseconds counted from the events |
| MachineClocks.QuestionsKeepTime | app/backend/orchestrator/state_machine.py:1190-1219 | in every run a question leads to the closing iff the minutes of the questions are over |
| MachineDecisions.LoopIsItsVisits | app/backend/orchestrator/state_machine.py:1128-1187 | in every run the loop stands at the competency after those left, with the seeds answered and probes spent since it was entered, and when that was |
| MachineDecisions.AnswersAreDecided | app/backend/orchestrator/state_machine.py:679-725 | in every run the next answer's verdict, gap marker and whether it leaves the competency are those of the decision table for the assessor's history, the answers before, and the microseconds since the competency was entered |
| MachineReview.ReviewIsItsHistory | app/backend/orchestrator/state_machine.py:1286-1308 | in every run the cheat count is the LIKELY_CHEATING entries of everything the assessor said, the drift count the replies that strayed from their move, and the session is flagged iff one has reached its threshold |
| MachineReview.FailuresAreMarked | app/backend/orchestrator/state_machine.py:1257-1283 | in every run the turns marked degraded are the interviewer turns that failed once, in order, each with its error |
| MachineReview.StreakIsTheLastTalk | app/backend/orchestrator/state_machine.py:1257-1283 | in every run the failure streak is 1 iff the last thing sent to the interviewer or on to the candidate was a retry, and 0 otherwise |
| MachineReview.StepsPersist | app/backend/orchestrator/state_machine.py:868-911 | a step asks to be persisted, last and once, iff it says anything and is no refused plan, no completion and no move in Q&A that no TECH answer has led to; a step that says nothing changes nothing |
| MachineEdges.MovesAreAboutTheLoop | app/backend/orchestrator/state_machine.py:733-781 | in every run the outstanding move names the node, seed, probe branch and labels of where the loop stands |
| MachineVerdicts.RunsMarkTheirVerdicts | app/backend/orchestrator/state_machine.py:1105-1187 | in every run a depth probe goes out iff the verdict asks for more, a gap is recorded iff there is no evidence and for the competency that turn leaves, and the competency is closed iff moreover another follows |
| MachineVerdicts.RunsWalkThePlan | app/backend/orchestrator/state_machine.py:1159-1182 | in every run the competencies are visited one after the other from the first, none skipped, none after the last is left |
| MachineVerdicts.NoCompetencyIsReentered | app/backend/orchestrator/state_machine.py:1159-1182 | no competency is entered again once it is left, and none has two gaps |
| MachineVerdicts.VerdictsFollowHistory | app/backend/orchestrator/state_machine.py:661-725 | in every run the verdict is the one the whole ordered history of assessor outputs gives, with the last item at the best level deciding |
| MachineEvidence.RevocationIsExact | app/backend/orchestrator/state_machine.py:963-991 | further items take evidence back iff the best of them is at least as high as the best before, and below the confidence asked for |
| MachineEvidence.AnswersAreTakenBackIff | app/backend/orchestrator/state_machine.py:679-690 | in every run an event turns an answered competency into one that is not iff it is an assessment that is taken whose items for it do so |
| MachineWitness.AnsweredIsProbedAgain | app/backend/orchestrator/state_machine.py:1105-1187 | a run from the initial state with verdicts clarify, answered, clarify on one competency, the last one a depth probe |
| MachineVerdicts.SilentAssessorOnlySpendsBudget | app/backend/orchestrator/state_machine.py:679-690 | in every run in which no assessment completes nothing is answered, and only probe and time budgets close a competency |
| MachineVerdicts.TicksEndForSilence | app/backend/orchestrator/state_machine.py:934-940 | in every run a tick aborts for silence iff more than the configured minutes have passed since the candidate or the start was last heard |
| MachineVerdicts.CompetencyEndsOnTime | app/backend/orchestrator/state_machine.py:598-615 | a competency whose minutes are over is left by the next accepted turn, whatever evidence, seeds or probes remain |
| MachineTurns.OutboundStreamIsChain | app/backend/orchestrator/state_machine.py:810-846 | in every run the outbound stream is a chain of consecutive turn numbers: move, at most one retry, at most one delivery |
| MachineTurns.TurnsAreDeliveredOnce | app/backend/orchestrator/state_machine.py:1222-1283 | per turn id at most one delivery and two interviewer calls that differ in the retry flag only |
| MachineTurns.SupersededRepliesAreNoOps | app/backend/orchestrator/state_machine.py:623-640 | a reply or failure for a turn that is not outstanding changes nothing and emits nothing |
| MachineTurns.EveryReissueIsVerbatim | app/backend/orchestrator/state_machine.py:1352-1360 | every reissued command repeats the last outbound command of the run |
| MachineTurns.EndingsAreRecordedOnce | app/backend/orchestrator/state_machine.py:849-911 | one decision iff terminal, one EndSession iff completed, an abort reason iff aborted |
| MachineResume.ReconnectsAreInvisible | app/backend/orchestrator/state_machine.py:298-309 | dropping every reconnect changes neither the final state nor the commands other than reissues and persists |
| MachineResume.ResumesAreIdempotent | app/backend/orchestrator/state_machine.py:1352-1360 | two runs that agree up to reconnects agree in state and lasting commands |
| MachineBounds.AssessedTurnsAreBounded | app/backend/orchestrator/state_machine.py:1082-1187 | a run schedules at most one assessment per seed plus the probe budget of every competency |
| MachineBounds.RunSpends | app/backend/orchestrator/state_machine.py:699-725 | every scheduled assessment decreases the measure over competencies, seeds and probes left |
| MachineBounds.PhasesOnlyAdvance | app/backend/orchestrator/state_machine.py:87-100 | the phase rank never decreases in any run |
| MachineBounds.ThreeLateTicksEndTheSession | app/backend/orchestrator/state_machine.py:1326-1349 | from TECH on, any three ticks at or past the session budget end the session, with any events between |
| MachineCommute.ResultCommutes | app/backend/orchestrator/state_machine.py:1286-1323 | an assessor result commutes, in state and commands, with every independent event that does not end the session |
| MachineCommute.LateResultsAreHarmless | app/backend/orchestrator/state_machine.py:963-1014 | a result may land before or after any block of independent events |
| MachineNonInterference.RunsRouteAlike | app/backend/orchestrator/state_machine.py:364-366 | runs that differ in candidate text, red flags, manual-review marks and reported moves emit the same commands and agree on every routing field |
| MachineCoverage.CoverageIsItsHistory | app/backend/orchestrator/state_machine.py:141-168 | in every run each cell is its definition over the ordered history: maximum, confidence of the last item at it, last item, each marker iff its cause occurred |
| MachineCoverage.ReviewSignalsAddUp | app/backend/orchestrator/state_machine.py:994-1005 | cheat count = LIKELY_CHEATING entries of all cells, manual review iff some cell has it, flagged iff a threshold is reached |
| MachineAssessments.AssessmentsAreAccounted | app/backend/orchestrator/state_machine.py:1008-1014 | in every run, whatever ids: the scheduled assessments are the accepted TECH answers in order, and as a multiset the pending, the resolved and those a result dropped with its own; a pending id has the focus of its last call |
| MachineAssessments.AssessmentsSplit | app/backend/orchestrator/state_machine.py:1288-1320 | in every run the scheduled are exactly the pending and the resolved iff each result taken found its id pending once |
| MachineAssessments.NoOrderLosesIff | app/backend/orchestrator/state_machine.py:1008-1014 | wherever a run is cut off, no series of results loses an assessment, iff no answer is accepted under an id still pending |
| MachineAssessments.DistinctIdsSplit | app/backend/orchestrator/state_machine.py:1097-1101 | with distinct ids nothing is lost, and nothing is pending twice, resolved twice, or both |
| MachineWitness.ReusedIdLosesAnAssessment | app/backend/orchestrator/state_machine.py:1008-1014 | a run from the initial state, for every session and turn id, in which one result clears two scheduled assessments |
| MachineWitness.ReusedLaterLosesNothing | app/backend/orchestrator/state_machine.py:1008-1014 | a run in which the id is reused after its result has landed, and both assessments are folded |
| ModelCall.ModelClient.CallWithRetries | app/backend/llm/vertex.py:562-629 | the retry loop is the recursive reference |
| ModelCall.ModelClient.Call | app/backend/llm/vertex.py:327-554 | the wrapper does to state and result what the specification of one call says |
| ModelCall.ModelClient.EmitFailureTrace | app/backend/llm/vertex.py:758-793 | one row is appended, the total of kept rows grows by its cost if it is kept, and the caller always gets an error: the one given, or that of the lost write |
| ModelCall.ModelClient.Add | app/backend/llm/cost_ledger.py:49-56 | the total of the in-memory ledger grows by the cost, that of the trace-derived one stands |
| ModelCall.ModelClient.RunInterviewerTurn | app/backend/agents/interviewer.py:201-256 | the error of a request that does not fit, or one call and exactly one fresh one after a schema-class miss |
| ModelCall.ModelClient.RunAssessorTurn | app/backend/agents/assessor.py:294-364 | the same for the assessor, with its echo checks |
| ModelCallProperties.RetryStopsAtFirstVerdict | app/backend/llm/vertex.py:159-171 | the backend is called again after a transient fault or a lost connection and after nothing else, up to three times, unless the cap fires in the wait; the last answer is reported by its kind with the number of calls |
| ModelCallProperties.EveryCallIsTracedOnce | app/backend/llm/vertex.py:342-554 | one trace write per call on every outcome, at most three backend calls, none when refused; the row is decided by the last backend answer, costs what the tokens of the reply cost and nothing else, and the caller is told what it says, both ways |
| ModelCallProperties.AttemptsAreCounted | app/backend/llm/vertex.py:434-484 | recorded attempts are backend calls made, except 1 on wall clock or unclassified exceptions |
| ModelCallProperties.LedgersReconcile | app/backend/llm/persistent_cost.py:82-113 | over any calls at any prices: trace total plus lost ok rows = in-memory total plus schema misses |
| ModelCallProperties.KeptRowsMatchTheLedger | app/backend/llm/persistent_cost.py:82-113 | with no write lost the in-memory total is the ok rows, and the trace total exceeds it by the schema misses, at any prices |
| ModelCallProperties.AgentTurnSpan | app/backend/agents/interviewer.py:240-256 | an agent turn writes one or two rows of its turn and makes at most six backend calls |
| ModelCallProperties.AssessorEchoesItsRequest | app/backend/agents/assessor.py:367-399 | an output is passed on iff the last row is kept and ok and its reply carries that output, in bounds, with the turn, session and focus asked about |
| ModelCallProperties.InterviewerTurnSpan | app/backend/agents/interviewer.py:240-256 | an utterance is passed on iff the last row is kept and ok and its reply carries that utterance, of 1 to 1200 characters, and that move |
| ModelCallProperties.AgentTurnFollowsItsRows | app/backend/agents/interviewer.py:240-256 | a second call is made iff the first row is kept and is a schema miss or carries no acceptable body; the output, the miss or the error is that of the last row |
| SessionBudget.CallIsCheckThenCharge | app/backend/llm/vertex.py:391-408 | one call is a check then a charge of the total it reads, charging nothing unless under budget |
| SharedBudget.CallIsItsStretches | app/backend/llm/vertex.py:391-537 | the stretches of a call between its awaits, run one after the other, are the call |
| SharedBudget.RunsRefine | app/backend/llm/vertex.py:391-537 | every interleaving of the stretches of any calls over one shared record is a series of checks and charges of the ledger, each charge between nothing and the dearest reply |
| SharedBudget.ConcurrentCallsAreBounded | app/backend/llm/vertex.py:391-408 | with at most k calls at a time, interleaved at every await, the total the check reads stays below budget plus k calls, for both ledgers |
| SessionBudget.OvershootIsBounded | app/backend/llm/vertex.py:391-408 | every interleaving of k callers stays below budget plus k calls |
| SessionBudget.OvershootIsReached | app/backend/llm/vertex.py:518-520 | from any total under budget, k callers that check first add k full calls |
| DevSessionService.Service.DriveEvents | app/backend/services/dev_session.py:566-596 | the worklist loop ends as its recursive reference says, in that world, an escaped error included |
| DevSessionService.Service.ExecuteCommands | app/backend/services/dev_session.py:598-614 | commands run in order up to the first whose error escapes, and the events they produce come back in order |
| DevSessionService.Service.ExecuteCommand | app/backend/services/dev_session.py:616-684 | the effect of each command, its follow-up events, and whether an error escapes |
| DevSessionService.Service.RunInterviewerTurn | app/backend/services/dev_session.py:688-733 | ceiling guard, payload, agent turn, and the event each caught outcome becomes |
| DevSessionService.Service.RunAssessor | app/backend/services/dev_session.py:757-799 | the same for the assessor |
| DevSessionService.Service.Start | app/backend/services/dev_session.py:452-483 | create_session leaves what the reference leaves, and reports a refused plan |
| DevSessionService.Service.Post | app/backend/services/dev_session.py:494-533 | post_turn answers and leaves what the reference says, changes nothing when refused, and leaves the stored turn behind when its request fails |
| DevSessionService.Service.RunScheduled | app/backend/services/dev_session.py:735-755 | a scheduled assessment: score, reload, drive; or the error of its request |
| DevSessionDrive.EveryDriveSettles | app/backend/services/dev_session.py:566-596 | from rest, any event settles within three steps, never two queued, at rest again, unless it puts out a move whose request does not fit; then the error leaves at that call. The 64-event valve cannot trip |
| DevSessionDrive.AnswerDrive | app/backend/services/dev_session.py:688-733 | from a waiting machine: within two steps the turn is answered or the session ends, with at most one retry |
| DevSessionRuns.PostKeeps | app/backend/services/dev_session.py:494-533 | post_turn is refused iff the session has ended or is stuck, fails iff the move it puts out does not fit a request, and otherwise answers null iff the session became terminal; at most 4 rows and 12 backend calls, all for that turn; the invariant is kept |
| DevSessionRuns.TaskKeeps | app/backend/services/dev_session.py:735-755 | an assessor run never touches the conversation, fails iff its own request does not fit, and makes at most 2 rows and 6 backend calls, all for its turn |
| DevSessionRuns.CreateHolds | app/backend/services/dev_session.py:452-483 | one step; INTRO with the opening for a plan that meets its contract field by field, ABORTED with nothing said otherwise |
| DevSessionRuns.SessionsAreSafe | app/backend/services/dev_session.py:494-755 | after any series of turns and assessor runs, failed ones included: the machine has not raised, the valve has not tripped, the stored row is the state and transcript, speakers alternate from the opening on, one decision iff ended |
| DevSessionRuns.SessionsSettleIffRequestsFit | app/backend/llm/vertex.py:96-97 | in any session each operation succeeds iff every request it builds fits, and a session all of whose requests fit is never stuck |
| DevSessionLimits.ShortSessionsSettle | app/backend/services/dev_session.py:803-868 | with a plan, scripts and answers whose widths add up to at most 24 000, every request of every series of operations fits, each succeeds, and the session is never stuck |
| DevSessionLimits.AdmittedWordsSettle | app/backend/api/dev_sessions.py:76 | with a plan of at most 8 000 characters of JSON, answers of up to 8 000 plain characters never get a session stuck |
| DevSessionWitness.LongPlanGetsStuck | app/backend/services/dev_session.py:834-847 | a plan the machine accepts whose session fails on the first turn, refuses every later one, and has not ended |
| DevSessionRuns.CandidateTurnsAreDistinct | app/backend/services/dev_session.py:518-524 | candidate turn ids never repeat in a session |
| DevSessionTranscript.AssessorSeesItsTurn | app/backend/services/dev_session.py:849-868 | the assessor is given the last answer and the question before it iff the answer has text |
| DevSessionTranscript.EmptyAnswerRepeatsTheTurnBefore | app/backend/services/dev_session.py:849-868 | after an empty answer to a question the assessor is given the turn before again |
| DevSessionWitness.EmptyAnswerIsScoredAsTheOneBefore | app/backend/services/dev_session.py:849-868 | a session of three turns whose second assessment carries the id of the empty turn and the text of the one before |
| DevSessionRuns.TasksAreAboutTheirTurn | app/backend/services/dev_session.py:849-868 | every scheduled assessment is about exactly the entry its turn id names, whenever that has text |
| DevSessionRuns.SessionCosts | app/backend/orchestrator/state_machine.py:1257-1283 | n candidate turns write at most 6n rows and make at most 18n backend calls; at most 4 rows per machine turn and 2 per assessed turn; assessments within the bound of the plan |
| DevSessionTrail.DriveIsARun | app/backend/services/dev_session.py:566-596 | the events of a drive take the machine where the drive ends, also when an error ends it, its tasks being the assessor calls in order, with one row per decision |
| DevSessionTrail.SessionIsAMachineRun | app/backend/services/dev_session.py:452-533 | every session is a run of the machine from its initial state, its tasks the assessor calls of that run in order |
| DevSessionTrail.SessionsLoseNothing | app/backend/services/dev_session.py:518-524 | in every session each accepted answer is pending or resolved, once, and no order of results can lose one |
| DevSessionReplies.WordsAreAnswered | app/backend/services/dev_session.py:688-733 | post_turn answers exactly what the interviewer produced from the move's request, at the first or second attempt, the ceiling checked before each; otherwise the session ends with the reason; or the closing is said |
| DevSessionReplies.TasksAreTold | app/backend/services/dev_session.py:757-799 | a scheduled assessment is told to the machine as what the assessor produced, as a failure iff it produced nothing, and ends the session with cost_ceiling iff the kept rows cost the ceiling and it is enforced |
| DevSessionReplies.CallsAreReported | app/backend/services/dev_session.py:712-733 | the event of an agent call names its turn, the clock reading, and whether an output was refused twice or the wrapper failed |
| DevSessionReplies.ValveTripsPastSixtyFour | app/backend/services/dev_session.py:566-596 | a queue of ignored events is given up iff it takes more than 64; the steps and the longest queue reported are those |
| DevSessionReplies.InterviewersSayTheirReplies | app/backend/services/dev_session.py:640-647 | in every session, what the transcript gives as the interviewer's is to the letter what some backend reply carried |
| DevSessionScores.MachinesHearTheCandidate | app/backend/services/dev_session.py:518-524 | in every session the machine has heard exactly the candidate's entries, turn by turn and word for word |
| DevSessionScores.TasksToRunArePending | app/backend/services/dev_session.py:735-755 | in every session, a task not yet run is pending in the machine under the competency it is about |
| DevSessionScores.ScoresAreFolded | app/backend/services/dev_session.py:735-755 | in every session alive and under the ceiling, running a task folds its output into coverage, or marks its competency failed and changes nothing else of it |
| RequestContents.WidthIsLength | app/backend/llm/vertex.py:96-97 | the width a request is measured by is the length of the text json.dumps writes |
| RequestContents.RequestsAskForTheMove | app/backend/services/dev_session.py:803-847 | the request of a move says the plan, the first competency of its node, the last eight exchanges with their speakers, the move and its context |
| RequestContents.RequestsAskForTheScore | app/backend/services/dev_session.py:849-868 | the request of an assessment says focus, question and answer, and the up to four exchanges before the last two |
| RubricStore.Store.MaterialiseStack | app/backend/services/rubric_importer.py:557-633 | the three passes leave the closed form of the five tables, and the count is the rows added |
| RubricStore.Store.Seed | app/backend/services/rubric_importer.py:445-541 | the outcome in the order it is decided, the database unchanged unless a version is created, and the rows counted |
| RubricStore.Store.TakeSnapshot | app/backend/services/rubric_snapshot.py:32-134 | the four groupings rebuild the tree of a version, or report an unknown one |
| RubricTables.ByIdKeepsTheLast | app/backend/services/rubric_importer.py:575-576 | the dict of nodes holds each id once, with its last node |
| RubricRoundTrip.AllFilesMatch | app/backend/services/rubric_importer.py:557-633 | the rows of a new version are, by parent and name, the children the files declare, each once |
| RubricHistory.QueryReturns | app/backend/services/rubric_snapshot.py:50-88 | a query returns exactly the rows of its version, ordered |
| RubricHistory.SeedThenSnapshot | app/backend/services/rubric_snapshot.py:50-134 | the snapshot of a created version is the files' forest to depth three: ids, parents, ranks and descriptors, in order, each once, retired included |
| RubricHistory.EarlierSnapshotsStand | app/backend/services/rubric_importer.py:513-541 | no seed changes the snapshot of an earlier version |
| RubricHistory.SnapshotsAreImmutable | app/backend/services/rubric_importer.py:445-541 | over any history a version's snapshot never changes |
| RubricHistory.EveryVersionIsItsPayload | app/backend/services/rubric_importer.py:445-541 | over any history every version is the forest of the payload of one of the calls |
| RubricHistory.ReseedingChangesNothing | app/backend/services/rubric_importer.py:461-476 | seeding a known payload leaves the database as it is; it is a no-op iff it is the latest |
| RubricHistory.TagsNameTheHash | app/backend/services/rubric_importer.py:512-521 | a created version is tagged "tree:" and the first eight characters of its hash |
| RubricGate.IndexNodes | scripts/sync_rubric_to_db.py:100-119 | the nested loops leave the index |
| RubricGate.DetectDestructiveChanges | scripts/sync_rubric_to_db.py:122-175 | every difference is reported, once, in order of ids and of ranks within an id, and nothing else is |
| RubricGateProperties.FindingsAreDifferences | scripts/sync_rubric_to_db.py:122-175 | what is reported is exactly how the documents differ: ids gone, nodes retired or un-retired, levels removed or with another descriptor |
| RubricGate.Check | scripts/sync_rubric_to_db.py:186-233 | a missing directory gives 2; otherwise the code is that of the findings |
| RubricGateProperties.IndexIsLast | scripts/sync_rubric_to_db.py:100-119 | from the documents: an id is indexed with the last node that carries it, retired iff node or file is, each level under the descriptor that comes last for its rank |
| RubricGateProperties.SilentIffExtension | scripts/sync_rubric_to_db.py:122-175 | no findings iff every node of the baseline is still there, as retired as it was, and active ones with every level under its descriptor |
| RubricGateProperties.BenignChains | scripts/sync_rubric_to_db.py:122-175 | a chain of benign edits is benign end to end |
| RubricGateProperties.VerdictIsExact | scripts/sync_rubric_to_db.py:196-233 | over two directories: exit code 2 iff an id vanished whatever is cited, 0 without a citation iff an extension, never 1 with one |
| RubricGateProperties.PriorNamesAreDeclared | app/backend/services/rubric_importer.py:478-485 | the competency names of a created version are the competency ids of its files |
| RubricGateProperties.RenameCheckIsExact | app/backend/services/rubric_importer.py:478-503 | the importer refuses iff a baseline competency is gone or starts with `block.` |
| RubricGateProperties.GateImpliesImporter | app/backend/services/rubric_importer.py:478-503 | when the gate finds nothing removed, the importer still refuses iff some baseline competency starts with `block.` |
| RubricGateProperties.GatePassesWhatTheImporterRefuses | app/backend/services/rubric_importer.py:478-503 | a directory and an extension of it that the gate passes and the importer refuses |
| RubricGateProperties.TheImporterRefuses | app/backend/services/rubric_importer.py:497-503 | that refusal is what the seed answers on those directories, the database unchanged |
| FeatureFlags.FeatureFlagService.Begin | app/backend/services/feature_flags.py:168-181 | unknown name, unexpired entry, or a miss |
| FeatureFlags.FeatureFlagService.Finish | app/backend/services/feature_flags.py:182-185 | the flag is answered from the cache until a minute after the clock reading the call began with; every other flag as before |
| FeatureFlags.FeatureFlagService.OnNotify | app/backend/services/feature_flags.py:251-261 | the named flag misses the cache at any time, every other is answered as before; an empty payload changes nothing |
| FeatureFlags.FeatureFlagService.ValueOf | app/backend/services/feature_flags.py:195-213 | the row of the flag, or its default when there is none |
| FeatureFlags.AnswersAreRecent | app/backend/services/feature_flags.py:168-185 | under every interleaving an answer is a value the table held during the call or less than 60 s before its clock reading |
| FeatureFlags.NeverStaleIffSettled | app/backend/services/feature_flags.py:168-217 | no later answer differs from the table iff no unexpired entry and no call that has read holds another value |
| FeatureFlags.NotificationSettles | app/backend/services/feature_flags.py:215-261 | after a flip's notification, no later call gives the older value iff no call in flight has read it |
| FeatureFlags.TimeSettles | app/backend/services/feature_flags.py:178-180 | without any notification the older value is gone once the stale entry has expired and no call is holding a value |
| FeatureFlags.MissedCallsAnswerTheTable | app/backend/services/feature_flags.py:195-213 | after any moves a call that misses the cache answers what was last written, or the declared default without a row, and the cache answers that for a minute |
| FeatureFlags.WritesAreNotified | app/backend/services/feature_flags.py:251-261 | a write made while the listener is connected drops the flag from the cache once the notifications before it are handled |
| FeatureFlags.CallsReadOnce | app/backend/services/feature_flags.py:182-185 | whatever happens meanwhile a call keeps its name, its clock reading and, once read, its value until it ends |
| FeatureFlags.LostWithTheListener | app/backend/services/feature_flags.py:215-261 | what was on its way when the connection was lost, or is written meanwhile, is never notified |
| FeatureFlags.OlderValueReturns | app/backend/services/feature_flags.py:182-185 | a call that read before a flip puts the older value back after its notification, and later calls answer it |
| FeatureFlags.OlderValueAfterNotification | app/backend/services/feature_flags.py:168-185 | a run from the start, listener connected, in which the older value is answered after the flip was notified |

## Left out

- Field layout: the fields of the program's flat session and TECH state are grouped by purpose (`Turn`, `Loop`, `Evidence`, `Review`, `Clocks`); none is dropped except names fixed per variant.
- Identities: uuid5 turn ids are names (distinct derivations are distinct ids), row keys are row numbers, and the payload hash is any string, never assumed injective.
- Quantities: timestamps are whole microseconds; confidences, prices and costs are reals, so rounding of decimals is not modelled. An unset confidence is 0 and is read only beside a level.
- Time: the wall-clock cap of a model call is one way an attempt, or the wait after it, can end; the length of waits and latency are not modelled.
- Text: the prompts, what the two scripts say (a text with values of the plan in it, never empty), error texts, logging and trace payloads; of a request only the width of its payload is modelled, not its characters; an escaped provider error keeps its class only (`wrapper_error` stands for every exception name in an `error_kind`).
- Schema checking: `_validate_against_schema` is the environment's choice between a payload on and off schema; the agents' own validation of lengths, ranges and echoes is modelled.
- Overlapping drives of one session: load and persist take no lock, so session properties are stated for drives one after the other.
- Untyped failures other than that of a request too long (a missing prompt or script file, a system prompt over its limit, a flag lookup error, a database error) are not modelled; a persisted row is read back as it was written.
- DevSessionRuns.SessionsSettleIffRequestsFit: does not model that a text with U+0000, which the HTTP layer admits and an agent may produce, makes the JSONB cast of `_persist` (app/backend/services/dev_session.py:887-900) fail; texts here are ones the database can hold. The same goes for `DevSessionLimits.ShortSessionsSettle`.
- `get_session`, `list_traces` and views.
- At most one active rubric version: the importer never clears `is_active`, so this does not hold and is not claimed.
- Rubric seeds one after the other (they hold an advisory lock); that the latest version is the newest row also by `created_at` is taken for granted.
- Rubric order: database collation is taken to be code-point order, and the order of two levels of equal rank in one competency is not stated.
- Rubric files: YAML parsing, schema validation, workbook conversion and the position templates.
- The ADR citation regular expression is a Boolean; the messages of findings are not modelled.
- The listener's reconnect back-off: connecting and losing the connection may happen at any step.
