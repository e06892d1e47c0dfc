/** The interview orchestrator's functional core
    (app/backend/orchestrator/state_machine.py): one total transition function over
    7 phases, 9 events and 11 commands. Timestamps are microseconds; turn ids stand
    for the uuid5 values the program derives, so distinct names are distinct ids. */
module StateMachine {
  import opened Common
  import opened InterviewPlan

  type Time = int

  function Seconds(n: int): Time { n * 1_000_000 }

  function Minutes(n: int): Time { n * 60_000_000 }

  // ---------- vocabulary ----------

  datatype Phase = Created | Intro | Tech | Qa | Close | Completed | Aborted

  datatype Awaiting = Interviewer | Candidate

  datatype Move = AskSeed | DepthProbe | AcknowledgeAndTransition | Redirect | CloseCompetency

  datatype AbortReason = CandidateTimeout | CostCeiling | OperatorAborted | FatalAgentError

  datatype DecisionReason = PlanRejected | AgentFailure | TimedOut | ByOperator | Finished

  datatype Verdict = Answered | Clarify | NoEvidence

  datatype Basis = Assessment | Pending | Failed | NotAssessable

  datatype GapMarker = GapNotAssessable | GapBudgetExhausted | GapAssessmentFailed | LevelZero

  datatype RedFlag = FactuallyWrong | Contradiction | FabricatedTechnology | LikelyCheating | OtherFlag

  /** uuid5(session, "turn/n"), uuid5(session, "candidate-turn/n"), or any other id. */
  datatype TurnId =
    | MachineTurn(session: nat, number: nat)
    | CandidateTurn(session: nat, ordinal: nat)
    | ForeignTurn(tag: nat)

  // ---------- configuration ----------

  datatype Thresholds = Thresholds(
    confidenceMin: real,
    maxProbes: nat,
    minProbeSeconds: nat,
    cheatFlagsToReview: nat,
    driftToReview: nat,
    candidateTimeoutMinutes: nat,
    schemaVersion: nat)
  {
    predicate Valid()
    {
      && 0.0 <= confidenceMin <= 0.99
      && 1 <= cheatFlagsToReview && 1 <= driftToReview
      && 1 <= candidateTimeoutMinutes
      && 1 <= schemaVersion
    }
  }

  /** The loader rejects a document out of these bounds (config.py:33-87). */
  type Config = t: Thresholds | t.Valid() witness Thresholds(0.6, 2, 60, 1, 3, 10, 1)

  // ---------- agent outputs ----------

  datatype AssessmentItem = AssessmentItem(node: string, level: nat, confidence: real)

  datatype AssessorOutput = AssessorOutput(
    focus: string,
    assessments: seq<AssessmentItem>,
    redFlags: seq<RedFlag>,
    needsManualReview: bool)

  datatype InterviewerOutput = InterviewerOutput(utterance: string, moveExecuted: Move)

  // ---------- commands ----------

  datatype MoveContext =
    | FirstSeedContext(node: string, seed: string)
    | NextSeedContext(node: string, seedIndex: int, seed: string)
    | ProbeContext(node: string, probeIndex: int, branch: Option<string>)
    | AdvanceContext(closing: string, node: string, labelUk: string, seed: string)
    | QaContext(minutes: int)

  /** The commands a resume may have to re-issue. */
  datatype Outbound =
    | RunInterviewer(turnId: TurnId, move: Move, node: Option<string>, context: MoveContext, retry: bool)
    | DeliverUtterance(turnId: TurnId, utterance: string)
    | EmitScriptedOpening(turnId: TurnId)
    | EmitScriptedClosing(turnId: TurnId)

  datatype Command =
    | Send(out: Outbound)
    | RunAssessor(turnId: TurnId, focus: string)
    | FlagTurnDegraded(degraded: TurnId, errorKind: string)
    | RecordGap(gapNode: string, marker: GapMarker)
    | RecordDecision(reason: DecisionReason)
    | EndSession
    | PersistState
    | Reissue(pending: Outbound)

  // ---------- state ----------

  datatype CoverageCell = CoverageCell(
    bestLevel: Option<nat>,
    bestConfidence: real,
    latestLevel: Option<nat>,
    latestConfidence: real,
    gapNotAssessable: bool,
    assessmentFailed: bool,
    gapBudgetExhausted: bool,
    needsManualReview: bool,
    redFlags: seq<RedFlag>)

  /** A confidence is read only beside a level, so the unset one is 0. */
  const EMPTY_CELL := CoverageCell(None, 0.0, None, 0.0, false, false, false, false, [])

  type Coverage = map<string, CoverageCell>

  function CellAt(coverage: Coverage, node: string): CoverageCell
  {
    if node in coverage then coverage[node] else EMPTY_CELL
  }

  // The fields of SessionState and TechState, grouped by what they are for.

  /** Fixed when the session is created. */
  datatype Info = Info(schemaVersion: nat, id: nat, planInput: RawPlan)

  /** Whose move it is, and what is outstanding. */
  datatype Turn = Turn(
    awaiting: Option<Awaiting>,
    lastMove: Option<Move>,
    failureStreak: nat,
    number: nat,
    pending: Option<Outbound>)

  /** The position in the competency, seed and probe loop. */
  datatype Loop = Loop(competency: int, seed: int, probes: int, startedAt: Option<Time>)

  /** What the assessor has said, and what it still owes. */
  datatype Evidence = Evidence(coverage: Coverage, pending: seq<TurnId>, focus: map<TurnId, string>)

  /** Measurement for whoever rates the interview, never read by a routing decision. */
  datatype Review = Review(flagged: bool, needsManual: bool, cheatFlags: nat, drift: nat)

  datatype Clocks = Clocks(startedAt: Option<Time>, qaStartedAt: Option<Time>, lastActivity: Option<Time>)

  datatype SessionState = SessionState(
    info: Info,
    phase: Phase,
    plan: Option<Plan>,
    abortReason: Option<AbortReason>,
    turn: Turn,
    loop: Loop,
    evidence: Evidence,
    review: Review,
    clocks: Clocks)

  predicate Terminal(p: Phase)
  {
    p == Completed || p == Aborted
  }

  // ---------- events ----------

  datatype Event =
    | SessionStarted(now: Time)
    | CandidateTurnReceived(turnId: TurnId, text: string, now: Time)
    | InterviewerReplyReady(turnId: TurnId, reply: InterviewerOutput, now: Time)
    | InterviewerFailed(turnId: TurnId, errorKind: string, now: Time)
    | AssessmentCompleted(forTurn: TurnId, output: AssessorOutput, now: Time)
    | AssessmentFailed(forTurn: TurnId, errorKind: string, now: Time)
    | TimerTick(now: Time)
    | Reconnected(now: Time)
    | OperatorAbort(reason: AbortReason, now: Time)

  /** Either the two results of a transition, or OrchestratorStateError. */
  datatype Step = Raised | Stepped(state: SessionState, commands: seq<Command>)

  function Ignore(s: SessionState): Step
  {
    Stepped(s, [])
  }

  // ---------- adjudication ----------

  datatype Adjudication = Adjudication(verdict: Verdict, basis: Basis, gap: Option<GapMarker>)

  function BasisOf(cell: Option<CoverageCell>): Basis
  {
    if cell.None? then Pending
    else if cell.value.bestLevel.Some? then Assessment
    else if cell.value.gapNotAssessable then NotAssessable
    else if cell.value.assessmentFailed then Failed
    else Pending
  }

  function Adjudicate(cell: Option<CoverageCell>, targetLevel: int, probesUsed: int, remaining: Time, c: Config)
    : Adjudication
  {
    var basis := BasisOf(cell);
    if cell.Some? && cell.value.bestLevel.Some?
       && cell.value.bestLevel.value >= targetLevel
       && cell.value.bestConfidence >= c.confidenceMin
    then Adjudication(Answered, basis, None)
    else if cell.Some? && cell.value.latestLevel == Some(0)
    then Adjudication(NoEvidence, basis, Some(LevelZero))
    else if probesUsed >= c.maxProbes || remaining <= Seconds(c.minProbeSeconds)
    then Adjudication(NoEvidence, basis, Some(GapBudgetExhausted))
    else if cell.Some? && cell.value.gapNotAssessable && probesUsed >= 1
    then Adjudication(NoEvidence, basis, Some(GapNotAssessable))
    else Adjudication(Clarify, basis, None)
  }

  function Lookup(coverage: Coverage, node: string): Option<CoverageCell>
  {
    if node in coverage then Some(coverage[node]) else None
  }

  function TimeRemaining(comp: Competency, startedAt: Option<Time>, now: Time): Time
  {
    var budget := Minutes(comp.minutes);
    if startedAt.None? then budget else budget - (now - startedAt.value)
  }

  // ---------- state constructors ----------

  function InitialState(sessionId: nat, planInput: RawPlan, c: Config): SessionState
  {
    SessionState(Info(c.schemaVersion, sessionId, planInput), Created, None, None,
                 Turn(None, None, 0, 0, None), Loop(0, 0, 0, None), Evidence(map[], [], map[]),
                 Review(false, false, 0, 0), Clocks(None, None, None))
  }

  function NextTurn(s: SessionState): TurnId
  {
    MachineTurn(s.info.id, s.turn.number)
  }

  /** The command a new move puts on the wire. */
  function NewMove(s: SessionState, move: Move, node: Option<string>, context: MoveContext): Outbound
  {
    RunInterviewer(NextTurn(s), move, node, context, false)
  }

  /** The state after that command: it is outstanding, on a fresh turn number. */
  function Issued(s: SessionState, move: Move, node: Option<string>, context: MoveContext): SessionState
  {
    s.(turn := Turn(Some(Interviewer), Some(move), 0, s.turn.number + 1, Some(NewMove(s, move, node, context))))
  }

  function Abort(s: SessionState, reason: AbortReason, decision: DecisionReason, persist: bool): Step
  {
    Stepped(s.(phase := Aborted, abortReason := Some(reason), turn := s.turn.(awaiting := None, pending := None)),
            if persist then [RecordDecision(decision), PersistState] else [RecordDecision(decision)])
  }

  function EnterClose(s: SessionState): Step
  {
    var closing := EmitScriptedClosing(NextTurn(s));
    Stepped(s.(phase := Close,
               turn := Turn(Some(Interviewer), None, s.turn.failureStreak, s.turn.number + 1, Some(closing))),
            [Send(closing), PersistState])
  }

  function Complete(s: SessionState): Step
  {
    Stepped(s.(phase := Completed, turn := s.turn.(awaiting := None, pending := None)),
            [EndSession, RecordDecision(Finished)])
  }

  /** The Q&A entry shared by the last competency and the session budget. */
  function QaStaged(s: SessionState, now: Time): SessionState
  {
    s.(phase := Qa, clocks := s.clocks.(qaStartedAt := Some(now)))
  }

  function Heard(s: SessionState, now: Time): SessionState
  {
    s.(clocks := s.clocks.(lastActivity := Some(now)))
  }

  // ---------- budgets ----------

  predicate CandidateTimedOut(s: SessionState, now: Time, c: Config)
  {
    s.clocks.lastActivity.Some? && now - s.clocks.lastActivity.value > Minutes(c.candidateTimeoutMinutes)
  }

  predicate SessionBudgetExhausted(s: SessionState, now: Time)
  {
    s.clocks.startedAt.Some? && s.plan.Some?
    && now - s.clocks.startedAt.value >= Minutes(s.plan.value.sessionMaxMinutes)
  }

  predicate QaBudgetExhausted(s: SessionState, now: Time)
  {
    s.clocks.qaStartedAt.None? || s.plan.None?
    || now - s.clocks.qaStartedAt.value >= Minutes(s.plan.value.qaMinutes)
  }

  // ---------- coverage updates ----------

  function RecordItem(cell: CoverageCell, item: AssessmentItem): CoverageCell
  {
    var better := cell.bestLevel.None? || item.level >= cell.bestLevel.value;
    cell.(bestLevel := if better then Some(item.level) else cell.bestLevel,
          bestConfidence := if better then item.confidence else cell.bestConfidence,
          latestLevel := Some(item.level),
          latestConfidence := item.confidence)
  }

  /** The items folded into coverage one after the other. */
  function RecordItems(coverage: Coverage, items: seq<AssessmentItem>): Coverage
  {
    if items == [] then coverage
    else
      var before := RecordItems(coverage, Front(items));
      var item := Last(items);
      before[item.node := RecordItem(CellAt(before, item.node), item)]
  }

  function LevelsRecorded(coverage: Coverage, output: AssessorOutput): Coverage
  {
    if output.assessments == []
    then coverage[output.focus := CellAt(coverage, output.focus).(gapNotAssessable := true)]
    else RecordItems(coverage, output.assessments)
  }

  /** The loop of the program; what it leaves is LevelsRecorded. */
  method RecordLevels(coverage: Coverage, output: AssessorOutput) returns (updated: Coverage)
    ensures updated == LevelsRecorded(coverage, output)
  {
    updated := coverage;
    if output.assessments == [] {
      var cell := if output.focus in updated then updated[output.focus] else EMPTY_CELL;
      return updated[output.focus := cell.(gapNotAssessable := true)];
    }
    for k := 0 to |output.assessments|
      invariant updated == RecordItems(coverage, output.assessments[..k])
    {
      var item := output.assessments[k];
      var cell := if item.node in updated then updated[item.node] else EMPTY_CELL;
      var bestLevel, bestConfidence := cell.bestLevel, cell.bestConfidence;
      if bestLevel.None? || item.level >= bestLevel.value {
        bestLevel, bestConfidence := Some(item.level), item.confidence;
      }
      ghost var taken := output.assessments[..k + 1];
      assert Front(taken) == output.assessments[..k];
      updated := updated[item.node := cell.(bestLevel := bestLevel, bestConfidence := bestConfidence,
                                            latestLevel := Some(item.level), latestConfidence := item.confidence)];
    }
    assert output.assessments[..|output.assessments|] == output.assessments;
  }

  function ReviewSignalsRecorded(coverage: Coverage, output: AssessorOutput): Coverage
  {
    var cell := CellAt(coverage, output.focus);
    coverage[output.focus := cell.(needsManualReview := cell.needsManualReview || output.needsManualReview,
                                   redFlags := cell.redFlags + output.redFlags)]
  }

  function CoverageAfter(coverage: Coverage, output: AssessorOutput): Coverage
  {
    ReviewSignalsRecorded(LevelsRecorded(coverage, output), output)
  }

  function Without(pending: seq<TurnId>, turn: TurnId): seq<TurnId>
  {
    Filter(pending, t => t != turn)
  }

  function DropPending(e: Evidence, turn: TurnId): Evidence
  {
    e.(pending := Without(e.pending, turn), focus := e.focus - {turn})
  }

  function CheatFlags(flags: seq<RedFlag>): nat
  {
    Count(flags, f => f == LikelyCheating)
  }

  // ---------- handlers ----------

  function OnSessionStarted(s: SessionState, now: Time): Step
  {
    var plan := ValidatePlan(s.info.planInput);
    if plan.None? then Abort(s, OperatorAborted, PlanRejected, false)
    else
      var opening := EmitScriptedOpening(NextTurn(s));
      Stepped(s.(phase := Intro, plan := plan,
                 clocks := s.clocks.(startedAt := Some(now), lastActivity := Some(now)),
                 turn := s.turn.(awaiting := Some(Interviewer), number := s.turn.number + 1, pending := Some(opening))),
              [Send(opening), PersistState])
  }

  function OnIntroTurn(s: SessionState, now: Time): Step
  {
    if s.plan.None? || |s.plan.value.competencies| == 0 || |s.plan.value.competencies[0].seeds| == 0 then Raised
    else
      var comp := s.plan.value.competencies[0];
      var staged := Heard(s, now).(phase := Tech, loop := Loop(0, 0, 0, Some(now)));
      var context := FirstSeedContext(comp.nodeId, comp.seeds[0]);
      Stepped(Issued(staged, AskSeed, Some(comp.nodeId), context),
              [Send(NewMove(staged, AskSeed, Some(comp.nodeId), context)), PersistState])
  }

  function Scheduled(e: Evidence, turn: TurnId, node: string): Evidence
  {
    e.(pending := e.pending + [turn], focus := e.focus[turn := node])
  }

  function CurrentCompetency(s: SessionState): Option<Competency>
  {
    if s.plan.None? then None else s.plan.value.CompetencyAt(s.loop.competency)
  }

  function TechDecision(s: SessionState, comp: Competency, now: Time, c: Config): Adjudication
  {
    Adjudicate(Lookup(s.evidence.coverage, comp.nodeId), comp.targetLevel, s.loop.probes,
               TimeRemaining(comp, s.loop.startedAt, now), c)
  }

  /** How the machine answers an adjudicated TECH turn: where the loop stands next (None
      when it leaves for Q&A), the move that says so, and the gap recorded, if any, for a
      competency left without evidence. */
  datatype Reaction = Reaction(
    next: Option<Loop>,
    move: Move,
    node: Option<string>,
    context: MoveContext,
    gap: Option<GapMarker>)

  /** None stands for the errors of a state the machine cannot reach by itself: no plan,
      an index outside it, or a competency without seeds. */
  function ReactionTo(s: SessionState, now: Time, c: Config): Option<Reaction>
  {
    var current := CurrentCompetency(s);
    if current.None? then None
    else
      var comp := current.value;
      var a := TechDecision(s, comp, now, c);
      var nextSeed := comp.SeedQuestion(s.loop.seed + 1);
      if a.verdict == Clarify then Some(Probe(s.loop, comp))
      else if a.verdict == Answered && nextSeed.Some? && TimeRemaining(comp, s.loop.startedAt, now) > 0
      then Some(NextSeed(s.loop, comp, nextSeed.value))
      else
        var gap := if a.verdict != NoEvidence then None
                   else Some(if a.gap.Some? then a.gap.value else GapBudgetExhausted);
        var following := s.plan.value.CompetencyAt(s.loop.competency + 1);
        if following.None?
        then Some(Reaction(None, AcknowledgeAndTransition, None, QaContext(s.plan.value.qaMinutes), gap))
        else if |following.value.seeds| == 0 then None
        else Some(Advance(s.loop, comp, following.value, now, gap))
  }

  function Probe(loop: Loop, comp: Competency): Reaction
  {
    Reaction(Some(loop.(probes := loop.probes + 1)), DepthProbe, Some(comp.nodeId),
             ProbeContext(comp.nodeId, loop.probes, comp.ProbeBranch(loop.probes)), None)
  }

  function NextSeed(loop: Loop, comp: Competency, seed: string): Reaction
  {
    Reaction(Some(loop.(seed := loop.seed + 1)), AcknowledgeAndTransition, Some(comp.nodeId),
             NextSeedContext(comp.nodeId, loop.seed + 1, seed), None)
  }

  /** One call that leaves `comp`: acknowledged when it was answered, closed when not. */
  function Advance(loop: Loop, comp: Competency, next: Competency, now: Time, gap: Option<GapMarker>): Reaction
    requires 1 <= |next.seeds|
  {
    Reaction(Some(Loop(loop.competency + 1, 0, 0, Some(now))),
             if gap.None? then AcknowledgeAndTransition else CloseCompetency, Some(next.nodeId),
             AdvanceContext(comp.nodeId, next.nodeId, next.labelUk, next.seeds[0]), gap)
  }

  /** Coverage as left behind by an adjudication that ran out of probes or time. */
  function GapMarked(coverage: Coverage, node: string, gap: Option<GapMarker>): Coverage
  {
    if gap == Some(GapBudgetExhausted)
    then coverage[node := CellAt(coverage, node).(gapBudgetExhausted := true)]
    else coverage
  }

  /** The state the reaction's move is issued from. */
  function Staged(s: SessionState, turn: TurnId, node: string, r: Reaction, now: Time): SessionState
  {
    var evidence := Scheduled(s.evidence, turn, node);
    var staged := Heard(s, now).(evidence := evidence.(coverage := GapMarked(evidence.coverage, node, r.gap)));
    if r.next.None? then QaStaged(staged, now) else staged.(loop := r.next.value)
  }

  function TechCommands(turn: TurnId, node: string, next: Outbound, gap: Option<GapMarker>): seq<Command>
  {
    if gap.None? then [RunAssessor(turn, node), Send(next), PersistState]
    else [RunAssessor(turn, node), Send(next), RecordGap(node, gap.value), PersistState]
  }

  function OnTechTurn(s: SessionState, turn: TurnId, now: Time, c: Config): Step
  {
    var reaction := ReactionTo(s, now, c);
    if reaction.None? then Raised
    else
      var node, r := CurrentCompetency(s).value.nodeId, reaction.value;
      var staged := Staged(s, turn, node, r, now);
      Stepped(Issued(staged, r.move, r.node, r.context),
              TechCommands(turn, node, NewMove(staged, r.move, r.node, r.context), r.gap))
  }

  function OnQaTurn(s: SessionState, now: Time): Step
  {
    if QaBudgetExhausted(s, now) then EnterClose(Heard(s, now))
    else if s.plan.None? then Raised
    else
      var context := QaContext(s.plan.value.qaMinutes);
      Stepped(Issued(Heard(s, now), AcknowledgeAndTransition, None, context),
              [Send(NewMove(Heard(s, now), AcknowledgeAndTransition, None, context))])
  }

  function OnCandidateTurn(s: SessionState, turn: TurnId, now: Time, c: Config): Step
  {
    match s.phase
    case Intro => OnIntroTurn(s, now)
    case Tech => if s.turn.awaiting != Some(Candidate) then Ignore(s) else OnTechTurn(s, turn, now, c)
    case Qa => OnQaTurn(s, now)
    case _ => Ignore(s)
  }

  /** Whether an agent reply belongs to the outstanding command. */
  predicate AnswersPending(s: SessionState, turn: TurnId)
  {
    s.turn.pending.Some? && s.turn.pending.value.turnId == turn
  }

  predicate InConversation(s: SessionState)
  {
    (s.phase == Tech || s.phase == Qa) && s.turn.awaiting == Some(Interviewer)
  }

  /** The move reported back is compared with the one issued, which stays authoritative. */
  function DriftNoted(r: Review, issued: Option<Move>, executed: Move, c: Config): Review
  {
    if issued.Some? && executed != issued.value
    then r.(drift := r.drift + 1, flagged := r.flagged || r.drift + 1 >= c.driftToReview)
    else r
  }

  function OnInterviewerReply(s: SessionState, turn: TurnId, reply: InterviewerOutput, c: Config): Step
  {
    if !AnswersPending(s, turn) then Ignore(s)
    else if s.phase == Close then Complete(s)
    else if !InConversation(s) then Ignore(s)
    else
      var delivery := DeliverUtterance(turn, reply.utterance);
      Stepped(s.(review := DriftNoted(s.review, s.turn.lastMove, reply.moveExecuted, c),
                 turn := s.turn.(awaiting := Some(Candidate), failureStreak := 0, pending := Some(delivery))),
              [Send(delivery), PersistState])
  }

  function OnInterviewerFailed(s: SessionState, turn: TurnId, errorKind: string): Step
  {
    if !AnswersPending(s, turn) || !InConversation(s) || !s.turn.pending.value.RunInterviewer? then Ignore(s)
    else if s.turn.failureStreak >= 1 then Abort(s, FatalAgentError, AgentFailure, true)
    else
      var again := s.turn.pending.value.(retry := true);
      Stepped(s.(turn := s.turn.(failureStreak := s.turn.failureStreak + 1, pending := Some(again))),
              [Send(again), FlagTurnDegraded(turn, errorKind), PersistState])
  }

  function SignalsNoted(r: Review, output: AssessorOutput, c: Config): Review
  {
    var total := r.cheatFlags + CheatFlags(output.redFlags);
    r.(cheatFlags := total,
       needsManual := r.needsManual || output.needsManualReview,
       flagged := r.flagged || total >= c.cheatFlagsToReview)
  }

  function OnAssessmentCompleted(s: SessionState, turn: TurnId, output: AssessorOutput, c: Config): Step
  {
    if turn !in s.evidence.pending then Ignore(s)
    else
      Stepped(s.(evidence := DropPending(s.evidence, turn).(coverage := CoverageAfter(s.evidence.coverage, output)),
                 review := SignalsNoted(s.review, output, c)),
              [PersistState])
  }

  function FailureMarked(coverage: Coverage, node: string): Coverage
  {
    coverage[node := CellAt(coverage, node).(assessmentFailed := true)]
  }

  function OnAssessmentFailed(s: SessionState, turn: TurnId): Step
  {
    if turn !in s.evidence.pending then Ignore(s)
    else
      var coverage := if turn in s.evidence.focus
                      then FailureMarked(s.evidence.coverage, s.evidence.focus[turn])
                      else s.evidence.coverage;
      Stepped(s.(evidence := DropPending(s.evidence, turn).(coverage := coverage)), [PersistState])
  }

  function OnTimerTick(s: SessionState, now: Time, c: Config): Step
  {
    if CandidateTimedOut(s, now, c) then Abort(s, CandidateTimeout, TimedOut, true)
    else if s.phase == Tech && SessionBudgetExhausted(s, now) then
      var context := QaContext(s.plan.value.qaMinutes);
      Stepped(Issued(QaStaged(s, now), AcknowledgeAndTransition, None, context),
              [Send(NewMove(QaStaged(s, now), AcknowledgeAndTransition, None, context))])
    else if s.phase == Qa && (SessionBudgetExhausted(s, now) || QaBudgetExhausted(s, now)) then EnterClose(s)
    else if s.phase == Close then Complete(s)
    else Ignore(s)
  }

  function OnReconnected(s: SessionState): Step
  {
    if s.turn.pending.None? then Stepped(s, [PersistState])
    else Stepped(s, [Reissue(s.turn.pending.value), PersistState])
  }

  // ---------- the transition function ----------

  function Transition(s: SessionState, e: Event, c: Config): Step
  {
    if Terminal(s.phase) then Ignore(s)
    else
      match e
      case AssessmentCompleted(turn, output, _) => OnAssessmentCompleted(s, turn, output, c)
      case AssessmentFailed(turn, _, _) => OnAssessmentFailed(s, turn)
      case OperatorAbort(reason, _) => Abort(s, reason, ByOperator, true)
      case Reconnected(_) => OnReconnected(s)
      case TimerTick(now) => OnTimerTick(s, now, c)
      case SessionStarted(now) => if s.phase == Created then OnSessionStarted(s, now) else Ignore(s)
      case CandidateTurnReceived(turn, _, now) =>
        if s.phase == Created then Ignore(s) else OnCandidateTurn(s, turn, now, c)
      case InterviewerReplyReady(turn, reply, _) =>
        if s.phase == Created then Ignore(s) else OnInterviewerReply(s, turn, reply, c)
      case InterviewerFailed(turn, errorKind, _) =>
        if s.phase == Created then Ignore(s) else OnInterviewerFailed(s, turn, errorKind)
  }

  // ---------- runs ----------

  /** One more event after `before`, its commands appended. */
  function Then(before: Step, e: Event, c: Config): Step
  {
    match before
    case Raised => Raised
    case Stepped(s1, cs1) =>
      match Transition(s1, e, c)
      case Raised => Raised
      case Stepped(s2, cs2) => Stepped(s2, cs1 + cs2)
  }

  /** A whole run: the final state and every command emitted, in order. */
  function Execute(s: SessionState, es: seq<Event>, c: Config): Step
    decreases |es|
  {
    if es == [] then Stepped(s, []) else Then(Execute(s, Front(es), c), Last(es), c)
  }
}
