/** The imperative shell (app/backend/services/dev_session.py): it runs the machine's
    commands against the agents and feeds what they answer back as events. */
module DevSession {
  import opened Common
  import opened InterviewPlan
  import opened RequestPayload
  import opened StateMachine
  import opened ModelCall

  datatype Role = InterviewerRole | CandidateRole | SystemRole

  datatype Entry = Entry(role: Role, text: string, turnId: TurnId)

  /** What one assessor call is given. */
  datatype AssessorInputs = AssessorInputs(question: string, answer: string, prior: seq<Entry>)

  /** A RunAssessor handed to the scheduler. */
  datatype Task = Task(turnId: TurnId, focus: string, inputs: AssessorInputs, done: bool)

  datatype Decision = Decision(reason: DecisionReason, abort: Option<AbortReason>)

  /** The database row: machine state and transcript, written together. */
  datatype Row = Row(state: SessionState, transcript: seq<Entry>)

  /** One session as the shell sees it. `ticks` counts the reads of the clock and of the
      ceiling flag. */
  datatype World = World(
    state: SessionState,
    transcript: seq<Entry>,
    stored: Option<Row>,
    tasks: seq<Task>,
    decisions: seq<Decision>,
    wire: Wire,
    ticks: nat)

  /** What the shell is wired to; clock, flag, backend and trace sink are arbitrary. The
      two scripts are files of the repository with values of the plan filled in, and an
      empty one is refused (dev_session.py:344-346). */
  datatype Wiring = Wiring(
    config: Config,
    settings: Settings,
    env: Env,
    clock: nat -> Time,
    enforced: nat -> bool,
    ceiling: real,
    opening: Option<Plan> -> string,
    closing: Option<Plan> -> string)
  {
    ghost predicate Valid() { forall p :: 1 <= |opening(p)| && 1 <= |closing(p)| }
  }

  type Shell = x: Wiring | x.Valid()
    witness Wiring(Thresholds(0.6, 2, 60, 1, 3, 10, 1), Settings(FromTraces, 1.0, true, None),
                   Env(_ => WallClock, _ => false, _ => true), _ => 0, _ => false, 1.0, _ => "o", _ => "c")

  const MAX_DRIVE_STEPS: nat := 64
  const PRIOR_TURNS_MAX: nat := 4
  const RECENT_TURNS_MAX: nat := 8

  // ---------- inputs of the assessor ----------

  predicate HasText(e: Entry) { e.text != "" }

  predicate IsCandidate(e: Entry) { e.role == CandidateRole }

  predicate IsNotCandidate(e: Entry) { e.role != CandidateRole }

  /** The last entry that satisfies `p`, searching from the end. */
  function LastWhere(entries: seq<Entry>, p: Entry -> bool): Option<Entry>
  {
    if entries == [] then None
    else if p(Last(entries)) then Some(Last(entries))
    else LastWhere(Front(entries), p)
  }

  function TextOf(e: Option<Entry>): string
  {
    if e.None? then "" else e.value.text
  }

  /** All but the last k elements, as a Python slice [:-k] of a shorter sequence gives none. */
  function DropLast<T>(s: seq<T>, k: nat): seq<T>
  {
    if k <= |s| then s[..|s| - k] else []
  }

  function TakeLast<T>(s: seq<T>, k: nat): seq<T>
  {
    if k <= |s| then s[|s| - k..] else s
  }

  function AnswerEntry(transcript: seq<Entry>): Option<Entry>
  {
    LastWhere(Filter(transcript, HasText), IsCandidate)
  }

  function QuestionEntry(transcript: seq<Entry>): Option<Entry>
  {
    LastWhere(DropLast(Filter(transcript, HasText), 1), IsNotCandidate)
  }

  function InputsFrom(transcript: seq<Entry>): AssessorInputs
  {
    AssessorInputs(TextOf(QuestionEntry(transcript)), TextOf(AnswerEntry(transcript)),
                   TakeLast(DropLast(Filter(transcript, HasText), 2), PRIOR_TURNS_MAX))
  }

  // ---------- the requests ----------

  function Of(key: string, value: Json): Field { Field(key, value) }

  function Texts(s: seq<string>): seq<Json>
  {
    seq(|s|, k requires 0 <= k < |s| => Text(s[k]))
  }

  function CompetencyJson(c: Competency): Json
  {
    Object([Of("node_id", Text(c.nodeId)), Of("label_uk", Text(c.labelUk)),
            Of("target_level", Number(c.targetLevel)), Of("minutes", Number(c.minutes)),
            Of("seed_questions_uk", List(Texts(c.seeds))), Of("probe_branches_uk", List(Texts(c.probes)))])
  }

  function CompetenciesJson(cs: seq<Competency>): seq<Json>
  {
    seq(|cs|, k requires 0 <= k < |cs| => CompetencyJson(cs[k]))
  }

  function PlanJson(p: Plan): Json
  {
    Object([Of("plan_version", Number(p.version)), Of("competencies", List(CompetenciesJson(p.competencies))),
            Of("qa_minutes", Number(p.qaMinutes)), Of("session_max_minutes", Number(p.sessionMaxMinutes))])
  }

  function MoveName(m: Move): string
  {
    match m
    case AskSeed => "ask_seed"
    case DepthProbe => "depth_probe"
    case AcknowledgeAndTransition => "acknowledge_and_transition"
    case Redirect => "redirect"
    case CloseCompetency => "close_competency"
  }

  function ContextJson(x: MoveContext): Json
  {
    match x
    case FirstSeedContext(node, seed) =>
      Object([Of("competency_node_id", Text(node)), Of("seed_index", Number(0)), Of("seed_question_uk", Text(seed))])
    case NextSeedContext(node, index, seed) =>
      Object([Of("competency_node_id", Text(node)), Of("seed_index", Number(index)),
              Of("next_seed_question_uk", Text(seed))])
    case ProbeContext(node, index, branch) =>
      Object([Of("competency_node_id", Text(node)), Of("probe_index", Number(index)),
              Of("probe_branch_uk", if branch.None? then Null else Text(branch.value))])
    case AdvanceContext(closing, node, labelUk, seed) =>
      Object([Of("closing_competency_node_id", Text(closing)), Of("competency_node_id", Text(node)),
              Of("next_competency_node_id", Text(node)), Of("next_competency_label_uk", Text(labelUk)),
              Of("seed_index", Number(0)), Of("next_seed_question_uk", Text(seed))])
    case QaContext(minutes) => Object([Of("phase", Text("qa")), Of("qa_minutes", Number(minutes))])
  }

  function TurnsJson(entries: seq<Entry>, roleName: Role -> string): seq<Json>
  {
    seq(|entries|, k requires 0 <= k < |entries| =>
      Object([Of("role", Text(roleName(entries[k].role))), Of("text", Text(entries[k].text))]))
  }

  /** The scripted entries are interviewer speech to the model. */
  function SpeakerName(r: Role): string
  {
    if r == CandidateRole then "candidate" else "interviewer"
  }

  function RoleName(r: Role): string
  {
    match r
    case InterviewerRole => "interviewer"
    case CandidateRole => "candidate"
    case SystemRole => "system"
  }

  /** The first competency of that node. */
  function CompetencyNamed(competencies: seq<Competency>, node: string): Option<Competency>
  {
    if competencies == [] then None
    else if competencies[0].nodeId == node then Some(competencies[0])
    else CompetencyNamed(competencies[1..], node)
  }

  function FocusOf(plan: Option<Plan>, node: Option<string>): Option<Competency>
  {
    if plan.None? || node.None? then None else CompetencyNamed(plan.value.competencies, node.value)
  }

  /** The user payload of one move: the whole plan, the competency, the last eight entries
      with text, the move and its context. */
  function InterviewerPayload(
    plan: Option<Plan>, transcript: seq<Entry>, move: Move, node: Option<string>, context: MoveContext): Json
  {
    var focus := FocusOf(plan, node);
    Object([Of("interview_plan_snapshot", if plan.None? then Object([]) else PlanJson(plan.value)),
            Of("current_competency", if focus.None? then Object([]) else CompetencyJson(focus.value)),
            Of("recent_turns", List(TurnsJson(TakeLast(Filter(transcript, HasText), RECENT_TURNS_MAX), SpeakerName))),
            Of("next_planned_move", Text(MoveName(move))),
            Of("move_context", ContextJson(context)),
            Of("candidate_first_name", Null)])
  }

  function AssessorPayload(focus: string, inputs: AssessorInputs): Json
  {
    Object([Of("rubric_snapshot_subset", List([])),
            Of("turn", Object([Of("question", Text(inputs.question)), Of("answer", Text(inputs.answer))])),
            Of("prior_turns", List(TurnsJson(inputs.prior, RoleName))),
            Of("competency_focus", Text(focus)),
            Of("turn_metadata", Object([Of("turn_id", Uuid), Of("session_id", Uuid)]))])
  }

  // ---------- executing commands ----------

  /** What a command, or a list of them, has done: the events it produced, or the error of a
      request that could not be built, which nothing on the way up catches. */
  datatype Effect = Effect(world: World, events: seq<Event>, escaped: bool)

  function Appended(w: World, role: Role, text: string, turn: TurnId): World
  {
    w.(transcript := w.transcript + [Entry(role, text, turn)])
  }

  function Now(sh: Shell, w: World): Time { sh.clock(w.ticks) }

  function Ticked(w: World): World { w.(ticks := w.ticks + 1) }

  /** The ceiling guard before an agent call: over the ceiling, and the flag says enforce. */
  predicate CeilingBreached(sh: Shell, w: World)
  {
    TraceTotal(w.wire.log) >= sh.ceiling && sh.enforced(w.ticks)
  }

  /** How an agent's outcome is put to the machine. */
  function InterviewerEvent(turn: TurnId, result: AgentResult<InterviewerOutput>, now: Time): Event
    requires !result.Oversized?
  {
    match result
    case Produced(output) => InterviewerReplyReady(turn, output, now)
    case OutputInvalid => InterviewerFailed(turn, "interviewer_output_invalid", now)
    case Wrapped(error) => InterviewerFailed(turn, "wrapper_error", now)
  }

  function AssessorEvent(turn: TurnId, result: AgentResult<AssessorOutput>, now: Time): Event
    requires !result.Oversized?
  {
    match result
    case Produced(output) => AssessmentCompleted(turn, output, now)
    case OutputInvalid => AssessmentFailed(turn, "assessor_output_invalid", now)
    case Wrapped(error) => AssessmentFailed(turn, "wrapper_error", now)
  }

  /** The request of an interviewer command, as the working state has it. */
  function RequestOf(w: World, out: Outbound): Json
    requires out.RunInterviewer?
  {
    InterviewerPayload(w.state.plan, w.transcript, out.move, out.node, out.context)
  }

  function RunInterviewerCommand(sh: Shell, w: World, out: Outbound): Effect
    requires out.RunInterviewer?
  {
    if CeilingBreached(sh, w) then Effect(Ticked(w), [OperatorAbort(CostCeiling, Now(sh, w))], false)
    else
      var (wire, result) := InterviewerTurn(w.wire, sh.env, sh.settings, out.turnId, RequestOf(w, out));
      if result.Oversized? then Effect(Ticked(w.(wire := wire)), [], true)
      else Effect(Ticked(w.(wire := wire)), [InterviewerEvent(out.turnId, result, Now(sh, w))], false)
  }

  function Emit(sh: Shell, w: World, out: Outbound): Effect
  {
    match out
    case EmitScriptedOpening(turn) => Effect(Appended(w, SystemRole, sh.opening(w.state.plan), turn), [], false)
    case EmitScriptedClosing(turn) =>
      Effect(Ticked(Appended(w, SystemRole, sh.closing(w.state.plan), turn)), [TimerTick(Now(sh, w))], false)
    case DeliverUtterance(turn, utterance) => Effect(Appended(w, InterviewerRole, utterance, turn), [], false)
    case RunInterviewer(_, _, _, _, _) => RunInterviewerCommand(sh, w, out)
  }

  function ExecuteOne(sh: Shell, w: World, command: Command): Effect
  {
    match command
    case Send(out) => Emit(sh, w, out)
    case Reissue(out) => Emit(sh, w, out)
    case RunAssessor(turn, focus) =>
      Effect(w.(tasks := w.tasks + [Task(turn, focus, InputsFrom(w.transcript), false)]), [], false)
    case RecordDecision(reason) =>
      Effect(w.(decisions := w.decisions + [Decision(reason, w.state.abortReason)]), [], false)
    case _ => Effect(w, [], false)
  }

  /** The commands in order, up to the first whose error escapes. */
  function ExecuteAll(sh: Shell, w: World, commands: seq<Command>): Effect
    decreases |commands|
  {
    if commands == [] then Effect(w, [], false)
    else
      var first := ExecuteOne(sh, w, commands[0]);
      if first.escaped then Effect(first.world, [], true)
      else
        var rest := ExecuteAll(sh, first.world, commands[1..]);
        Effect(rest.world, if rest.escaped then [] else first.events + rest.events, rest.escaped)
  }

  // ---------- the drive loop ----------

  function Persisted(w: World): World
  {
    w.(stored := Some(Row(w.state, w.transcript)))
  }

  /** The world once the transition is applied and persisted, and its commands executed;
      a transcript the commands have extended is persisted again. */
  function Handled(sh: Shell, w: World, state: SessionState, commands: seq<Command>): Effect
  {
    var done := ExecuteAll(sh, Persisted(w.(state := state)), commands);
    if !done.escaped && done.world.transcript != w.transcript then done.(world := Persisted(done.world)) else done
  }

  /** How a drive ends: the queue is empty after `steps` events of which at most `widest`
      were ever queued; the error of a request that could not be built has left it; the
      safety valve has tripped; the machine has raised; or there was no stored row. */
  datatype Driven =
    | Settled(world: World, steps: nat, widest: nat)
    | Crashed(world: World)
    | Runaway
    | Refused
    | Missing

  function Wider(a: nat, b: nat): nat { if a < b then b else a }

  function Drive(sh: Shell, w: World, queue: seq<Event>, steps: nat, widest: nat): Driven
    requires steps <= MAX_DRIVE_STEPS
    decreases MAX_DRIVE_STEPS - steps, |queue|
  {
    if queue == [] then Settled(w, steps, widest)
    else if steps + 1 > MAX_DRIVE_STEPS then Runaway
    else
      match Transition(w.state, queue[0], sh.config)
      case Raised => Refused
      case Stepped(state, commands) =>
        var done := Handled(sh, w, state, commands);
        if done.escaped then Crashed(done.world)
        else
          var rest := queue[1..] + done.events;
          Drive(sh, done.world, rest, steps + 1, Wider(widest, |rest|))
  }

  // ---------- the public operations ----------

  function Fresh(sh: Shell, sessionId: nat, plan: RawPlan): World
  {
    World(InitialState(sessionId, plan, sh.config), [], None, [], [], Wire(0, [], 0.0), 0)
  }

  /** Every operation starts from the stored row. */
  function Loaded(w: World): World
    requires w.stored.Some?
  {
    w.(state := w.stored.value.state, transcript := w.stored.value.transcript)
  }

  /** create_session: insert, persist, and run SessionStarted. */
  function Create(sh: Shell, sessionId: nat, plan: RawPlan): Driven
  {
    var w := Persisted(Fresh(sh, sessionId, plan));
    Drive(sh, Ticked(w), [SessionStarted(Now(sh, w))], 0, 1)
  }

  /** The plan was refused; create_session then raises DevSessionPlanInvalid. */
  predicate PlanRefused(w: World)
  {
    w.state.phase == Aborted && w.state.plan.None?
  }

  function CandidateEntries(transcript: seq<Entry>): nat
  {
    Count(transcript, IsCandidate)
  }

  predicate AwaitsCandidate(s: SessionState)
  {
    !Terminal(s.phase) && (s.phase == Intro || s.turn.awaiting == Some(Candidate))
  }

  datatype Posted =
    | NotAwaiting(world: World)
    | Replied(world: World, utterance: Option<string>)
    | Broken(driven: Driven)

  /** What post_turn hands to the drive loop: the candidate's entry, then its event. */
  function Spoken(sh: Shell, w: World, text: string): (World, Event)
  {
    var turn := CandidateTurn(w.state.info.id, CandidateEntries(w.transcript));
    (Ticked(Appended(w, CandidateRole, text, turn)), CandidateTurnReceived(turn, text, Now(sh, w)))
  }

  predicate IsInterviewer(e: Entry) { e.role == InterviewerRole }

  function PostTurn(sh: Shell, w: World, text: string): Posted
  {
    if w.stored.None? then Broken(Missing)
    else if !AwaitsCandidate(Loaded(w).state) then NotAwaiting(Loaded(w))
    else
      var (spoken, event) := Spoken(sh, Loaded(w), text);
      var driven := Drive(sh, spoken, [event], 0, 1);
      if !driven.Settled? then Broken(driven)
      else Replied(driven.world, HeardSince(driven.world.transcript, |spoken.transcript|))
  }

  /** The last thing the interviewer said from position `before` on. */
  function HeardSince(transcript: seq<Entry>, before: nat): Option<string>
  {
    var heard := if before <= |transcript| then LastWhere(transcript[before..], IsInterviewer) else None;
    if heard.None? then None else Some(heard.value.text)
  }

  function RunAssessorCall(sh: Shell, w: World, task: Task): Effect
  {
    if CeilingBreached(sh, w) then Effect(Ticked(w), [OperatorAbort(CostCeiling, Now(sh, w))], false)
    else
      var payload := AssessorPayload(task.focus, task.inputs);
      var (wire, result) :=
        AssessorTurn(w.wire, sh.env, sh.settings, task.turnId, w.state.info.id, task.focus, payload);
      if result.Oversized? then Effect(Ticked(w.(wire := wire)), [], true)
      else Effect(Ticked(w.(wire := wire)), [AssessorEvent(task.turnId, result, Now(sh, w))], false)
  }

  function Marked(tasks: seq<Task>, k: nat): seq<Task>
    requires k < |tasks|
  {
    tasks[k := tasks[k].(done := true)]
  }

  /** The k-th scheduled task, when the scheduler gets to it: score, then drive the result. */
  function RunTask(sh: Shell, w: World, k: nat): Driven
    requires k < |w.tasks|
  {
    if w.tasks[k].done then Settled(w, 0, 0)
    else
      var called := RunAssessorCall(sh, w.(tasks := Marked(w.tasks, k)), w.tasks[k]);
      if called.escaped then Crashed(called.world)
      else if called.world.stored.None? then Missing
      else Drive(sh, Loaded(called.world), called.events, 0, 1)
  }
}
