/** Real sessions in which the two conditions on the shell fail: a plan whose first request
    does not fit, and an empty answer. */
module DevSessionWitness {
  import opened Common
  import opened InterviewPlan
  import opened RequestPayload
  import opened StateMachine
  import opened MachineInvariant
  import opened ModelCall
  import opened DevSession
  import opened DevSessionDrive
  import opened DevSessionTranscript
  import opened DevSessionRuns

  // ---------- a plan that does not fit ----------

  /** An id of more than 200 000 characters: plan validation sets no limit. */
  function LongPlan(): RawPlan
  {
    var id := seq(200_001, _ => 'a');
    Shaped(Plan(1, [Competency(id, "l", 3, 30, ["s"], [])], 5, 60))
  }

  lemma LongRequest(plan: Option<Plan>, transcript: seq<Entry>, move: Move, node: Option<string>, id: string,
                    seed: string)
    requires MAX_USER_PAYLOAD < |id|
    ensures !Fits(InterviewerPayload(plan, transcript, move, node, FirstSeedContext(id, seed)))
  {
    var context := FirstSeedContext(id, seed);
    var payload := InterviewerPayload(plan, transcript, move, node, context);
    assert payload.fields[4].value == ContextJson(context);
    FieldIsWithin(payload, 4);
    assert ContextJson(context).fields[0].value == Text(id);
    FieldIsWithin(ContextJson(context), 0);
    TextIsAtLeastItsLength(id);
  }

  lemma FirstMoveIsTheFirstSeed(s: SessionState, e: Event, c: Config)
    requires Invariant(s, c) && s.phase == Intro && e.CandidateTurnReceived?
    ensures
      var t, comp := Next(s, e, c), s.plan.value.competencies[0];
      && !AtRest(t) && t.phase != Close && t.turn.pending.Some? && t.turn.pending.value.RunInterviewer?
      && t.turn.pending.value.context == FirstSeedContext(comp.nodeId, comp.seeds[0])
  {
    CandidateTurnKeeps(s, e.turnId, e.now, c);
  }

  lemma LongIdOverflows(sh: Shell, w: World, text: string)
    requires Invariant(w.state, sh.config) && w.state.phase == Intro
    requires w.wire.log == [] && 0.0 < sh.ceiling
    requires MAX_USER_PAYLOAD < |w.state.plan.value.competencies[0].nodeId|
    ensures SpeechOverflows(sh, w, text)
  {
    var (spoken, event) := Spoken(sh, w, text);
    FirstMoveIsTheFirstSeed(spoken.state, event, sh.config);
    var t, comp := Next(spoken.state, event, sh.config), w.state.plan.value.competencies[0];
    var o := t.turn.pending.value;
    LongRequest(t.plan, spoken.transcript, o.move, o.node, comp.nodeId, comp.seeds[0]);
  }

  lemma NothingWrittenYet(sh: Shell, w: World)
    requires Bookkept(sh, w) && |w.transcript| <= 1
    ensures w.wire.log == [] && w.tasks == []
  {
  }

  lemma LongPlanStarts(sh: Shell, id: nat, first: string) returns (w: World)
    requires 0.0 < sh.ceiling
    ensures ValidatePlan(LongPlan()).Some? && Session(sh, id, LongPlan(), []) == Some(w)
    ensures SessionInvariant(sh, w) && w.state.phase == Intro && SpeechOverflows(sh, w, first)
  {
    hide Drive, SpeechOverflows;
    var plan := LongPlan();
    assert ValidatePlan(plan).Some?;
    CreateHolds(sh, id, plan);
    w := Session(sh, id, plan, []).value;
    NothingWrittenYet(sh, w);
    assert w.state.plan.value.competencies[0].nodeId == plan.plan.competencies[0].nodeId;
    LongIdOverflows(sh, w, first);
  }

  lemma OverflowGetsStuck(sh: Shell, w: World, first: string) returns (v: World)
    requires SessionInvariant(sh, w) && w.state.phase == Intro && SpeechOverflows(sh, w, first)
    ensures Perform(sh, w, Speak(first)) == Errored(v) && SessionInvariant(sh, v) && !AtRest(v.state)
  {
    PostKeeps(sh, w, first);
    v := Perform(sh, w, Speak(first)).world;
  }

  lemma StuckRefuses(sh: Shell, v: World, later: string)
    requires SessionInvariant(sh, v) && !AtRest(v.state)
    ensures Stalled(sh, v) && !Terminal(v.state.phase) && PostTurn(sh, v, later) == NotAwaiting(v)
  {
    OnlyRestAwaits(sh, v);
    assert Loaded(v) == v;
  }

  /** A plan that the machine accepts, and whose session is stuck after the first word of the
      candidate: the request fails, every later turn is refused, and nothing has ended. */
  lemma LongPlanGetsStuck(sh: Shell, id: nat, first: string, later: string)
    requires 0.0 < sh.ceiling
    ensures
      var before, after := Session(sh, id, LongPlan(), []), Session(sh, id, LongPlan(), [Speak(first)]);
      && ValidatePlan(LongPlan()).Some? && before.Some? && after.Some?
      && Perform(sh, before.value, Speak(first)).Errored?
      && Stalled(sh, after.value) && !Terminal(after.value.state.phase)
      && PostTurn(sh, after.value, later) == NotAwaiting(after.value)
  {
    hide Perform, PostTurn, Stalled, SpeechOverflows, LongPlan;
    var w := LongPlanStarts(sh, id, first);
    var v := OverflowGetsStuck(sh, w, first);
    StuckRefuses(sh, v, later);
    SessionGrows(sh, id, LongPlan(), [], Speak(first), w);
    assert [] + [Speak(first)] == [Speak(first)];
  }

  /** A session goes on with one operation more. */
  lemma SessionGrows(sh: Shell, id: nat, plan: RawPlan, ops: seq<Op>, op: Op, w: World)
    requires Session(sh, id, plan, ops) == Some(w)
    ensures Session(sh, id, plan, ops + [op]) == Onwards(Perform(sh, w, op))
  {
    assert Front(ops + [op]) == ops;
  }

  // ---------- a session of short texts ----------

  /** A short plan, scripts of one letter, a clock that stands still, and a backend that always
      asks "q", at no cost. */
  const SHORT_COMPETENCY := Competency("n", "l", 3, 30, ["s"], [])
  const SHORT_PLAN := Plan(1, [SHORT_COMPETENCY], 5, 60)
  const CONFIG: Config := Thresholds(0.6, 2, 60, 1, 3, 10, 1)
  const SETTINGS := Settings(FromTraces, 1.0, true, Some(Price(1.0, 1.0)))
  const REPLY := RawResult(0, 0, OnSchema(InterviewerBody("q", AskSeed)))
  const BACKEND := Env(_ => Reply(REPLY), _ => false, _ => true)
  const SHELL: Shell := Wiring(CONFIG, SETTINGS, BACKEND, _ => 0, _ => false, 1.0, _ => "o", _ => "c")

  predicate Free(w: Wire) { TraceTotal(w.log) == 0.0 }

  lemma BackendReplies(w: Wire, turn: TurnId, payload: Json)
    requires Free(w) && Fits(payload)
    ensures
      var (v, result) := InterviewerTurn(w, BACKEND, SETTINGS, turn, payload);
      Free(v) && result == Produced(InterviewerOutput("q", AskSeed))
  {
    assert Retry(BACKEND, w.generates, 1) == (w.generates + 1, Got(REPLY, 1));
    var (v, result) := CallModel(w, BACKEND, SETTINGS, turn);
    assert Front(v.log) == w.log;
  }

  // ---------- its requests fit ----------

  predicate ShortTexts(entries: seq<Entry>)
  {
    forall k :: 0 <= k < |entries| ==> |entries[k].text| <= 5
  }

  lemma {:induction false} FilterKeepsShort(entries: seq<Entry>)
    requires ShortTexts(entries)
    ensures ShortTexts(Filter(entries, HasText))
  {
    if entries != [] {
      assert |entries[|entries| - 1].text| <= 5;
      FilterKeepsShort(Front(entries));
    }
  }

  lemma TurnIsNarrow(e: Entry)
    requires |e.text| <= 5
    ensures Width(Object([Of("role", Text(SpeakerName(e.role))), Of("text", Text(e.text))])) <= 630
  {
    NarrowText(SpeakerName(e.role), 11);
    NarrowText(e.text, 5);
    NarrowObject([Of("role", Text(SpeakerName(e.role))), Of("text", Text(e.text))], 68);
  }

  lemma RecentTurnsAreNarrow(entries: seq<Entry>)
    requires ShortTexts(entries)
    ensures
      Width(List(TurnsJson(TakeLast(Filter(entries, HasText), RECENT_TURNS_MAX), SpeakerName))) <= 6_000
  {
    FilterKeepsShort(entries);
    var recent := TakeLast(Filter(entries, HasText), RECENT_TURNS_MAX);
    var turns := TurnsJson(recent, SpeakerName);
    forall k | 0 <= k < |turns|
      ensures Width(turns[k]) <= 630
    {
      TurnIsNarrow(recent[k]);
    }
    NarrowList(turns, 630);
  }

  lemma OneTextIsNarrow(s: string)
    requires |s| <= 1
    ensures Width(List(Texts([s]))) <= 12
    ensures Width(List(Texts([]))) <= 12
  {
    NarrowText(s, 1);
    NarrowList(Texts([s]), 8);
    NarrowList(Texts([]), 8);
  }

  lemma CompetencyIsNarrow()
    ensures Width(CompetencyJson(SHORT_COMPETENCY)) <= 1_600
  {
    var c := SHORT_COMPETENCY;
    NarrowText(c.nodeId, 1);
    NarrowText(c.labelUk, 1);
    OneTextIsNarrow("s");
    NarrowObject(CompetencyJson(c).fields, 12);
  }

  lemma PlanOfNarrowParts(version: Json, competencies: Json, qa: Json, longest: Json)
    requires Width(version) <= 2_000 && Width(competencies) <= 2_000 && Width(qa) <= 2_000 && Width(longest) <= 2_000
    ensures
      var fields := [Of("plan_version", version), Of("competencies", competencies), Of("qa_minutes", qa),
                     Of("session_max_minutes", longest)];
      Width(Object(fields)) <= 10_000
  {
    NarrowObject([Of("plan_version", version), Of("competencies", competencies),
                  Of("qa_minutes", qa), Of("session_max_minutes", longest)], 2_000);
  }

  lemma ListIsNarrow()
    ensures Width(List(CompetenciesJson([SHORT_COMPETENCY]))) <= 1_700
  {
    CompetencyIsNarrow();
    var items := CompetenciesJson([SHORT_COMPETENCY]);
    assert items[0] == CompetencyJson(SHORT_COMPETENCY);
    NarrowList(items, 1_600);
  }

  lemma PlanIsNarrow()
    ensures Width(PlanJson(SHORT_PLAN)) <= 10_000
  {
    ListIsNarrow();
    PlanOfNarrowParts(Number(1), List(CompetenciesJson([SHORT_COMPETENCY])), Number(5), Number(60));
  }

  predicate ShortContext(x: MoveContext)
  {
    x == FirstSeedContext("n", "s") || x == ProbeContext("n", 0, None) || x == ProbeContext("n", 1, None)
  }

  lemma ContextIsNarrow(x: MoveContext)
    requires ShortContext(x)
    ensures Width(ContextJson(x)) <= 1_000
  {
    NarrowText("n", 1);
    NarrowText("s", 1);
    match x
    case FirstSeedContext(_, _) => NarrowObject(ContextJson(x).fields, 12);
    case ProbeContext(_, _, _) => NarrowObject(ContextJson(x).fields, 12);
  }

  lemma NarrowPartsFit(plan: Json, competency: Json, turns: Json, move: Json, context: Json)
    requires Width(plan) <= 10_000 && Width(competency) <= 10_000 && Width(turns) <= 10_000
    requires Width(move) <= 10_000 && Width(context) <= 10_000
    ensures Fits(Object([Of("interview_plan_snapshot", plan), Of("current_competency", competency),
                         Of("recent_turns", turns), Of("next_planned_move", move), Of("move_context", context),
                         Of("candidate_first_name", Null)]))
  {
    NarrowObject([Of("interview_plan_snapshot", plan), Of("current_competency", competency),
                  Of("recent_turns", turns), Of("next_planned_move", move), Of("move_context", context),
                  Of("candidate_first_name", Null)], 10_000);
  }

  lemma ShortRequestFits(transcript: seq<Entry>, move: Move, context: MoveContext)
    requires ShortTexts(transcript) && ShortContext(context)
    ensures Fits(InterviewerPayload(Some(SHORT_PLAN), transcript, move, Some("n"), context))
  {
    PlanIsNarrow();
    CompetencyIsNarrow();
    RecentTurnsAreNarrow(transcript);
    NarrowText(MoveName(move), 30);
    ContextIsNarrow(context);
    assert FocusOf(Some(SHORT_PLAN), Some("n")) == Some(SHORT_COMPETENCY);
    NarrowPartsFit(PlanJson(SHORT_PLAN), CompetencyJson(SHORT_COMPETENCY),
                   List(TurnsJson(TakeLast(Filter(transcript, HasText), RECENT_TURNS_MAX), SpeakerName)),
                   Text(MoveName(move)), ContextJson(context));
  }

  // ---------- one turn of it ----------

  /** The state a short session is in whenever it waits in TECH. */
  predicate ShortTech(s: SessionState)
  {
    && s.phase == Tech && s.plan == Some(SHORT_PLAN) && s.turn.awaiting == Some(Candidate)
    && s.loop.competency == 0 && s.loop.startedAt == Some(0) && s.evidence.coverage == map[]
  }

  /** A reply to the move outstanding in `t` leaves everything but the turn and the review. */
  lemma ReplyIsDelivered(t: SessionState, c: Config)
    requires Invariant(t, c) && !AtRest(t) && t.phase != Close
    ensures
      var o := InterviewerReplyReady(PendingTurn(t), InterviewerOutput("q", AskSeed), 0);
      var step := Transition(t, o, c);
      && step.Stepped? && AtRest(step.state) && step.state.turn.awaiting == Some(Candidate)
      && step.state == t.(turn := step.state.turn, review := step.state.review)
      && Does(step.commands, Send(DeliverUtterance(PendingTurn(t), "q")))
  {
  }

  /** The world after the backend has answered the move outstanding in `t`. */
  ghost predicate Asked(mid: World, t: SessionState, done: Effect)
    requires 1 <= t.turn.number
  {
    && !done.escaped
    && done.events == [InterviewerReplyReady(PendingTurn(t), InterviewerOutput("q", AskSeed), 0)]
    && done.world == mid.(wire := done.world.wire, ticks := mid.ticks + 1)
    && Free(done.world.wire)
  }

  lemma MoveIsAsked(w: World, t: SessionState, cs: seq<Command>, mid: World)
    requires !AtRest(t) && t.phase != Close && 1 <= t.turn.number && t.turn.pending.Some?
    requires t.turn.pending.value.RunInterviewer? && t.turn.pending.value.turnId == PendingTurn(t)
    requires mid == Persisted(w.(state := t)).(tasks := mid.tasks) && Free(w.wire)
    requires ExecuteAll(SHELL, Persisted(w.(state := t)), cs) == Emit(SHELL, mid, t.turn.pending.value)
    requires !TooLong(t, w.transcript)
    ensures Asked(mid, t, Handled(SHELL, w, t, cs))
  {
    BackendReplies(mid.wire, PendingTurn(t), RequestOf(mid, t.turn.pending.value));
  }

  /** ... and its reply has been delivered. */
  ghost predicate Delivered(mid: World, t: SessionState, v: World)
    requires 1 <= t.turn.number
  {
    && AtRest(v.state) && v.state.turn.awaiting == Some(Candidate)
    && v.state == t.(turn := v.state.turn, review := v.state.review)
    && v.transcript == mid.transcript + [Entry(InterviewerRole, "q", PendingTurn(t))]
    && v.tasks == mid.tasks && Free(v.wire)
  }

  lemma ReplyDrive(mid: World, t: SessionState, done: Effect, steps: nat, widest: nat)
    requires Invariant(t, CONFIG) && !AtRest(t) && t.phase != Close && 1 <= t.turn.number
    requires mid.state == t && Asked(mid, t, done) && steps + 1 <= MAX_DRIVE_STEPS
    ensures
      var d := Onward(SHELL, done, steps, widest);
      d.Settled? && Delivered(mid, t, d.world)
  {
    var m, e := done.world, done.events[0];
    ReplyIsDelivered(t, CONFIG);
    var step := Transition(t, e, CONFIG);
    DriveOne(SHELL, m, e, step.state, step.commands, steps, Wider(widest, 1));
    OneCommand(SHELL, Persisted(m.(state := step.state)), step.commands, Send(DeliverUtterance(PendingTurn(t), "q")));
  }

  // ---------- the session ----------

  /** A short session that waits in TECH, with nothing spent. */
  ghost predicate Waiting(w: World, probes: nat)
  {
    && Rested(SHELL, w) && ShortTech(w.state) && Free(w.wire) && ShortTexts(w.transcript)
    && w.state.loop.probes == probes
  }

  /** A first attempt at a move on the one competency. */
  function ShortMove(t: SessionState, move: Move, context: MoveContext): Outbound
    requires 1 <= t.turn.number
  {
    RunInterviewer(PendingTurn(t), move, Some("n"), context, false)
  }

  /** The step of words that the machine probes on. */
  ghost predicate ProbeStep(s: SessionState, e: Event, step: Step)
    requires e.CandidateTurnReceived?
  {
    && step.Stepped? && step.state.info == s.info && ShortTech(step.state.(turn := s.turn))
    && step.state.loop.probes == s.loop.probes + 1
    && Invariant(step.state, CONFIG) && !AtRest(step.state) && 1 <= step.state.turn.number
    && step.state.turn.pending == Some(ShortMove(step.state, DepthProbe, ProbeContext("n", s.loop.probes, None)))
    && AssessesThen(step.commands, e.turnId, Send(step.state.turn.pending.value))
    && step.commands[0] == RunAssessor(e.turnId, "n")
  }

  lemma StepOfWords(s: SessionState, e: Event)
    requires Invariant(s, CONFIG) && e.CandidateTurnReceived? && e.now == 0
    requires ShortTech(s) && s.loop.probes <= 1
    ensures ProbeStep(s, e, Transition(s, e, CONFIG))
  {
    CandidateTurnKeeps(s, e.turnId, e.now, CONFIG);
    assert CurrentCompetency(s) == Some(SHORT_COMPETENCY);
  }

  lemma StepOfFirstWords(s: SessionState, e: Event)
    requires Invariant(s, CONFIG) && e.CandidateTurnReceived? && e.now == 0
    requires s.phase == Intro && s.plan == Some(SHORT_PLAN) && s.evidence.coverage == map[]
    ensures
      var step := Transition(s, e, CONFIG);
      && step.Stepped? && step.state.info == s.info && step.state.phase == Tech && step.state.plan == s.plan
      && step.state.loop == Loop(0, 0, 0, Some(0)) && step.state.evidence == s.evidence
      && Invariant(step.state, CONFIG) && !AtRest(step.state) && 1 <= step.state.turn.number
      && step.state.turn.pending == Some(ShortMove(step.state, AskSeed, FirstSeedContext("n", "s")))
      && Does(step.commands, Send(step.state.turn.pending.value))
  {
    CandidateTurnKeeps(s, e.turnId, e.now, CONFIG);
  }

  /** The first seed is asked. */
  lemma FirstMoveIsAsked(spoken: World, e: Event)
    requires Invariant(spoken.state, CONFIG) && e.CandidateTurnReceived? && e.now == 0
    requires spoken.state.phase == Intro && spoken.state.plan == Some(SHORT_PLAN)
    requires spoken.state.evidence.coverage == map[] && Free(spoken.wire) && ShortTexts(spoken.transcript)
    ensures
      var step := Transition(spoken.state, e, CONFIG);
      && step.Stepped? && 1 <= step.state.turn.number
      && Asked(Persisted(spoken.(state := step.state)), step.state, Handled(SHELL, spoken, step.state, step.commands))
  {
    StepOfFirstWords(spoken.state, e);
    var step := Transition(spoken.state, e, CONFIG);
    var start := Persisted(spoken.(state := step.state));
    OneCommand(SHELL, start, step.commands, Send(step.state.turn.pending.value));
    ShortRequestFits(spoken.transcript, AskSeed, FirstSeedContext("n", "s"));
    MoveIsAsked(spoken, step.state, step.commands, start);
  }

  /** The world in which the move after an assessed turn goes out. */
  function Assessed(spoken: World, turn: TurnId, t: SessionState): World
  {
    Persisted(spoken.(state := t)).(tasks := spoken.tasks + [Task(turn, "n", InputsFrom(spoken.transcript), false)])
  }

  /** A probe is asked, once the assessor has been scheduled. */
  lemma ProbeIsAsked(spoken: World, e: Event, step: Step)
    requires e.CandidateTurnReceived? && ShortTech(spoken.state) && 0 <= spoken.state.loop.probes <= 1
    requires Free(spoken.wire) && ShortTexts(spoken.transcript) && ProbeStep(spoken.state, e, step)
    ensures Asked(Assessed(spoken, e.turnId, step.state), step.state, Handled(SHELL, spoken, step.state, step.commands))
  {
    var start, o := Persisted(spoken.(state := step.state)), step.state.turn.pending.value;
    TwoCommands(SHELL, start, step.commands, e.turnId, Send(o));
    ShortRequestFits(spoken.transcript, DepthProbe, ProbeContext("n", spoken.state.loop.probes, None));
    MoveIsAsked(spoken, step.state, step.commands, Assessed(spoken, e.turnId, step.state));
  }

  /** From the move that is asked to the end of the drive. */
  lemma AskedDrive(spoken: World, e: Event, mid: World, t: SessionState, cs: seq<Command>, steps: nat, widest: nat)
    requires Transition(spoken.state, e, CONFIG) == Stepped(t, cs)
    requires Invariant(t, CONFIG) && !AtRest(t) && t.phase != Close && 1 <= t.turn.number
    requires mid.state == t && Asked(mid, t, Handled(SHELL, spoken, t, cs)) && steps + 2 <= MAX_DRIVE_STEPS
    ensures
      var d := Drive(SHELL, spoken, [e], steps, widest);
      d.Settled? && Delivered(mid, t, d.world)
  {
    DriveOne(SHELL, spoken, e, t, cs, steps, widest);
    ReplyDrive(mid, t, Handled(SHELL, spoken, t, cs), steps + 1, widest);
  }

  /** What a settled drive is to post_turn. */
  lemma PostIsItsDrive(w: World, text: string)
    requires Rested(SHELL, w) && w.state.phase != Created && AwaitsCandidate(w.state)
    ensures
      var (spoken, e) := Spoken(SHELL, w, text);
      var d, p := Drive(SHELL, spoken, [e], 0, 1), PostTurn(SHELL, w, text);
      d.Settled? ==> p.Replied? && p.world == d.world && Rested(SHELL, d.world)
  {
    assert Loaded(w) == w;
    var (spoken, e) := Spoken(SHELL, w, text);
    EveryDriveSettles(SHELL, spoken, e, 0, 1);
  }

  lemma ShortGrows(entries: seq<Entry>, e: Entry)
    requires ShortTexts(entries) && |e.text| <= 5
    ensures ShortTexts(entries + [e])
  {
  }

  /** What the move of the machine leaves, once its reply is delivered. */
  lemma WaitsAgain(mid: World, t: SessionState, v: World)
    requires t.phase == Tech && t.plan == Some(SHORT_PLAN) && 1 <= t.turn.number
    requires t.loop.competency == 0 && t.loop.startedAt == Some(0) && t.evidence.coverage == map[]
    requires Rested(SHELL, v) && Delivered(mid, t, v) && ShortTexts(mid.transcript)
    ensures Waiting(v, t.loop.probes)
  {
    ShortGrows(mid.transcript, Last(v.transcript));
  }

  /** The session goes on with the reply "q". */
  ghost predicate GoesOn(w: World, text: string, v: World, probes: nat)
  {
    && v.state.info.id == w.state.info.id
    && PostTurn(SHELL, w, text).Replied? && PostTurn(SHELL, w, text).world == v
    && Waiting(v, probes)
    && v.transcript != [] && Front(v.transcript) == Spoken(SHELL, w, text).0.transcript
  }

  /** A short plan's state with a move out. */
  predicate Probing(t: SessionState, probes: nat)
  {
    && t.phase == Tech && t.plan == Some(SHORT_PLAN) && 1 <= t.turn.number
    && t.loop.competency == 0 && t.loop.startedAt == Some(0) && t.evidence.coverage == map[]
    && t.loop.probes == probes
  }

  lemma FirstDrive(spoken: World, e: Event) returns (t: SessionState, v: World)
    requires Invariant(spoken.state, CONFIG) && e.CandidateTurnReceived? && e.now == 0
    requires spoken.state.phase == Intro && spoken.state.plan == Some(SHORT_PLAN)
    requires spoken.state.evidence.coverage == map[] && Free(spoken.wire) && ShortTexts(spoken.transcript)
    ensures Drive(SHELL, spoken, [e], 0, 1).Settled? && Drive(SHELL, spoken, [e], 0, 1).world == v
    ensures t.info == spoken.state.info && Probing(t, 0) && Delivered(Persisted(spoken.(state := t)), t, v)
  {
    StepOfFirstWords(spoken.state, e);
    FirstMoveIsAsked(spoken, e);
    var step := Transition(spoken.state, e, CONFIG);
    t := step.state;
    AskedDrive(spoken, e, Persisted(spoken.(state := t)), t, step.commands, 0, 1);
    v := Drive(SHELL, spoken, [e], 0, 1).world;
  }

  /** One assessor task more, for that turn. */
  predicate OneMoreTask(before: seq<Task>, after: seq<Task>, turn: TurnId)
  {
    |after| == |before| + 1 && Front(after) == before && Last(after).turnId == turn
  }

  lemma ProbeDrive(spoken: World, e: Event) returns (mid: World, t: SessionState, v: World)
    requires Invariant(spoken.state, CONFIG) && e.CandidateTurnReceived? && e.now == 0
    requires ShortTech(spoken.state) && spoken.state.loop.probes <= 1
    requires Free(spoken.wire) && ShortTexts(spoken.transcript)
    ensures Drive(SHELL, spoken, [e], 0, 1).Settled? && Drive(SHELL, spoken, [e], 0, 1).world == v
    ensures t.info == spoken.state.info && Probing(t, spoken.state.loop.probes + 1) && Delivered(mid, t, v)
    ensures mid.transcript == spoken.transcript && OneMoreTask(spoken.tasks, mid.tasks, e.turnId)
  {
    StepOfWords(spoken.state, e);
    var step := Transition(spoken.state, e, CONFIG);
    ProbeIsAsked(spoken, e, step);
    t := step.state;
    mid := Assessed(spoken, e.turnId, t);
    AskedDrive(spoken, e, mid, t, step.commands, 0, 1);
    v := Drive(SHELL, spoken, [e], 0, 1).world;
  }

  lemma FirstWords(w: World, text: string) returns (v: World)
    requires Rested(SHELL, w) && w.state.phase == Intro && w.state.plan == Some(SHORT_PLAN)
    requires w.state.evidence.coverage == map[] && Free(w.wire) && ShortTexts(w.transcript) && |text| <= 5
    ensures GoesOn(w, text, v, 0) && v.tasks == w.tasks
  {
    var (spoken, e) := Spoken(SHELL, w, text);
    ShortGrows(w.transcript, Last(spoken.transcript));
    var t;
    t, v := FirstDrive(spoken, e);
    PostIsItsDrive(w, text);
    WaitsAgain(Persisted(spoken.(state := t)), t, v);
  }

  lemma Words(w: World, text: string, probes: nat) returns (v: World)
    requires Waiting(w, probes) && probes <= 1 && |text| <= 5
    ensures GoesOn(w, text, v, probes + 1)
    ensures OneMoreTask(w.tasks, v.tasks, Spoken(SHELL, w, text).1.turnId)
  {
    var (spoken, e) := Spoken(SHELL, w, text);
    ShortGrows(w.transcript, Last(spoken.transcript));
    var mid, t;
    mid, t, v := ProbeDrive(spoken, e);
    PostIsItsDrive(w, text);
    WaitsAgain(mid, t, v);
  }

  lemma ShortStart() returns (w: World)
    ensures Session(SHELL, 0, Shaped(SHORT_PLAN), []) == Some(w)
    ensures Rested(SHELL, w) && w.state.phase == Intro && w.state.plan == Some(SHORT_PLAN)
    ensures w.state.evidence.coverage == map[] && Free(w.wire) && w.tasks == []
    ensures |w.transcript| == 1 && w.transcript[0].text == "o"
  {
    hide Drive, Create;
    var plan := Shaped(SHORT_PLAN);
    CreateHolds(SHELL, 0, plan);
    w := Session(SHELL, 0, plan, []).value;
    NothingWrittenYet(SHELL, w);
    ShortStartCovers(w);
  }

  lemma ShortStartCovers(w: World)
    requires Create(SHELL, 0, Shaped(SHORT_PLAN)).Settled? && Create(SHELL, 0, Shaped(SHORT_PLAN)).world == w
    ensures w.state.evidence.coverage == map[]
  {
    var blank := Ticked(Persisted(Fresh(SHELL, 0, Shaped(SHORT_PLAN))));
    var e := SessionStarted(0);
    var step := Transition(blank.state, e, CONFIG);
    DriveOne(SHELL, blank, e, step.state, step.commands, 0, 1);
    OneCommand(SHELL, Persisted(blank.(state := step.state)), step.commands, step.commands[0]);
  }

  const ANSWERS := [Speak("ready"), Speak("a"), Speak("")]

  /** The three turns, one after the other. */
  lemma ThreeTurns() returns (w0: World, w1: World, w2: World, w3: World)
    ensures Session(SHELL, 0, Shaped(SHORT_PLAN), []) == Some(w0) && w0.tasks == [] && |w0.transcript| == 1
    ensures GoesOn(w0, "ready", w1, 0) && w1.tasks == w0.tasks
    ensures GoesOn(w1, "a", w2, 1) && OneMoreTask(w1.tasks, w2.tasks, Spoken(SHELL, w1, "a").1.turnId)
    ensures GoesOn(w2, "", w3, 2) && OneMoreTask(w2.tasks, w3.tasks, Spoken(SHELL, w2, "").1.turnId)
  {
    w0 := ShortStart();
    w1 := FirstWords(w0, "ready");
    w2, w3 := LastTwoTurns(w1);
  }

  lemma LastTwoTurns(w1: World) returns (w2: World, w3: World)
    requires Waiting(w1, 0)
    ensures GoesOn(w1, "a", w2, 1) && OneMoreTask(w1.tasks, w2.tasks, Spoken(SHELL, w1, "a").1.turnId)
    ensures GoesOn(w2, "", w3, 2) && OneMoreTask(w2.tasks, w3.tasks, Spoken(SHELL, w2, "").1.turnId)
  {
    w2 := Words(w1, "a", 0);
    w3 := Words(w2, "", 1);
  }

  lemma SessionGrowsThrice(sh: Shell, id: nat, plan: RawPlan, a: Op, b: Op, c: Op,
                           w0: World, w1: World, w2: World, w3: World)
    requires Session(sh, id, plan, []) == Some(w0) && Onwards(Perform(sh, w0, a)) == Some(w1)
    requires Onwards(Perform(sh, w1, b)) == Some(w2) && Onwards(Perform(sh, w2, c)) == Some(w3)
    ensures Session(sh, id, plan, [a, b, c]) == Some(w3)
  {
    SessionGrows(sh, id, plan, [], a, w0);
    assert [] + [a] == [a] && [a] + [b] == [a, b] && [a, b] + [c] == [a, b, c];
    SessionGrows(sh, id, plan, [a], b, w1);
    SessionGrows(sh, id, plan, [a, b], c, w2);
  }

  lemma TurnIsPerformed(w: World, text: string, v: World, probes: nat)
    requires GoesOn(w, text, v, probes)
    ensures Onwards(Perform(SHELL, w, Speak(text))) == Some(v)
  {
  }

  /** Of six entries that alternate, the last one empty: what the two assessments read. */
  lemma SecondReadsTheFirst(said: seq<Entry>, empty: seq<Entry>)
    requires |empty| == 6 && said == empty[..4] && said[3].text == "a" && empty[5].text == ""
    requires EndsInATurn(said) && EndsInATurn(empty)
    ensures InputsFrom(said).answer == "a" == InputsFrom(empty).answer
    ensures InputsFrom(said).question == InputsFrom(empty).question
  {
    assert empty[3] == said[3] && empty[2] == said[2];
    InputsAreThePair(said, InputsFrom(said));
    EmptyAnswerRepeatsTheTurnBefore(empty);
  }

  /** What two assessments were given, and under which id. */
  ghost predicate SecondScoresTheFirst(w: World)
  {
    && |w.tasks| == 2 && 6 <= |w.transcript|
    && w.transcript[5] == Entry(CandidateRole, "", CandidateTurn(0, 2)) && w.tasks[1].turnId == CandidateTurn(0, 2)
    && w.tasks[1].inputs.answer == "a" == w.tasks[0].inputs.answer
    && w.tasks[1].inputs.question == w.tasks[0].inputs.question
  }

  /** Two tasks for the second and the third candidate turn fit in one way only. */
  lemma TasksOfThree(w: World)
    requires Bookkept(SHELL, w) && w.state.info.id == 0 && OpeningOf(SHELL, w.state.info) == "o"
    requires |w.transcript| == 7 && w.transcript[3].text == "a" && w.transcript[5].text == ""
    requires |w.tasks| == 2 && w.tasks[0].turnId == CandidateTurn(0, 1) && w.tasks[1].turnId == CandidateTurn(0, 2)
    ensures SecondScoresTheFirst(w)
  {
    assert TaskFits(0, w.transcript, w.tasks[0]) && TaskFits(0, w.transcript, w.tasks[1]);
    AlternatingEndsInATurn("o", 0, w.transcript, 1);
    AlternatingEndsInATurn("o", 0, w.transcript, 2);
    assert EntryFits(0, w.transcript[5], 5);
    SecondReadsTheFirst(w.transcript[..4], w.transcript[..6]);
  }

  /** The words of the three turns, and the ids their tasks carry. */
  lemma TurnsOfThree(w0: World, w1: World, w2: World, w3: World)
    requires |w0.transcript| == 1 && w0.tasks == [] && w1.tasks == []
    requires w1.transcript != [] && Front(w1.transcript) == Spoken(SHELL, w0, "ready").0.transcript
    requires w2.transcript != [] && Front(w2.transcript) == Spoken(SHELL, w1, "a").0.transcript
    requires w3.transcript != [] && Front(w3.transcript) == Spoken(SHELL, w2, "").0.transcript
    requires OneMoreTask(w1.tasks, w2.tasks, Spoken(SHELL, w1, "a").1.turnId)
    requires OneMoreTask(w2.tasks, w3.tasks, Spoken(SHELL, w2, "").1.turnId)
    requires Alternates("o", 0, w3.transcript) && w1.state.info.id == w2.state.info.id == 0
    ensures |w3.transcript| == 7 && w3.transcript[3].text == "a" && w3.transcript[5].text == ""
    ensures |w3.tasks| == 2 && w3.tasks[0].turnId == CandidateTurn(0, 1) && w3.tasks[1].turnId == CandidateTurn(0, 2)
  {
    hide CandidateEntries, EntryFits, OpeningOf;
    assert w3.transcript[..5] == w2.transcript && w3.transcript[..3] == w1.transcript;
    CandidateEntriesAreHalf("o", 0, w1.transcript);
    CandidateEntriesAreHalf("o", 0, w2.transcript);
  }

  /** A session of three turns, the last of them empty: its second assessment carries the id
      of the empty turn and, word for word, the question and answer of the turn before. */
  lemma EmptyAnswerIsScoredAsTheOneBefore()
    ensures
      var w := Session(SHELL, 0, Shaped(SHORT_PLAN), ANSWERS);
      w.Some? && SecondScoresTheFirst(w.value)
  {
    var w0, w1, w2, w3 := ThreeTurns();
    TurnIsPerformed(w0, "ready", w1, 0);
    TurnIsPerformed(w1, "a", w2, 1);
    TurnIsPerformed(w2, "", w3, 2);
    SessionGrowsThrice(SHELL, 0, Shaped(SHORT_PLAN), Speak("ready"), Speak("a"), Speak(""), w0, w1, w2, w3);
    SessionsAreSafe(SHELL, 0, Shaped(SHORT_PLAN), ANSWERS);
    TurnsOfThree(w0, w1, w2, w3);
    TasksOfThree(w3);
  }
}
