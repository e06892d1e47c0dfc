/** How long a session can last: the number of assessed turns is bounded by the plan,
    and three ticks past the session budget end it. */
module MachineBounds {
  import opened Common
  import opened InterviewPlan
  import opened StateMachine
  import opened MachineInvariant

  // ---------- assessed turns ----------

  /** Seeds plus probes of every competency from position `from` on. */
  function TurnsFrom(plan: Plan, from: nat, c: Config): nat
    decreases |plan.competencies| - from
  {
    if from >= |plan.competencies| then 0
    else |plan.competencies[from].seeds| + c.maxProbes + TurnsFrom(plan, from + 1, c)
  }

  /** The TECH turns the session can still accept. */
  function TurnsLeft(s: SessionState, c: Config): nat
    requires PhaseInvariant(s, c)
  {
    match s.phase
    case Created =>
      var plan := ValidatePlan(s.info.planInput);
      if plan.Some? then TurnsFrom(plan.value, 0, c) else 0
    case Intro => TurnsFrom(s.plan.value, 0, c)
    case Tech =>
      |s.plan.value.competencies[s.loop.competency].seeds| - s.loop.seed + (c.maxProbes - s.loop.probes)
      + TurnsFrom(s.plan.value, s.loop.competency + 1, c)
    case _ => 0
  }

  predicate IsAssessorCall(x: Command) { x.RunAssessor? }

  /** The assessor calls of one step: at most one, and never after the first command. */
  ghost predicate SpendsInStep(s: SessionState, step: Step, c: Config)
    requires PhaseInvariant(s, c)
  {
    && Keeps(step, c)
    && |step.commands| <= 4
    && (|step.commands| > 1 ==> !step.commands[1].RunAssessor?)
    && (|step.commands| > 2 ==> !step.commands[2].RunAssessor?)
    && (|step.commands| > 3 ==> !step.commands[3].RunAssessor?)
    && TurnsLeft(step.state, c) + (if |step.commands| > 0 && step.commands[0].RunAssessor? then 1 else 0)
       <= TurnsLeft(s, c)
  }

  lemma ReactionSpends(s: SessionState, now: Time, c: Config)
    requires s.phase == Tech && PhaseInvariant(s, c)
    ensures ReactionTo(s, now, c).Some?
    ensures
      var r := ReactionTo(s, now, c).value;
      r.next.Some? ==>
        && InPlan(r.next.value, s.plan.value, c)
        && TurnsLeft(s.(loop := r.next.value), c) < TurnsLeft(s, c)
  {
    ReactionKeeps(s, now, c);
  }

  lemma TechTurnSpends(s: SessionState, turn: TurnId, now: Time, c: Config)
    requires Invariant(s, c) && s.phase == Tech
    ensures SpendsInStep(s, OnTechTurn(s, turn, now, c), c)
  {
    hide ReactionTo, TurnsFrom, GapMarked;
    TechTurnKeeps(s, turn, now, c);
    ReactionSpends(s, now, c);
  }

  lemma IntroTurnSpends(s: SessionState, now: Time, c: Config)
    requires Invariant(s, c) && s.phase == Intro
    ensures SpendsInStep(s, OnIntroTurn(s, now), c)
  {
    CandidateTurnKeeps(s, ForeignTurn(0), now, c);
    assert TurnsFrom(s.plan.value, 0, c)
        == |s.plan.value.competencies[0].seeds| + c.maxProbes + TurnsFrom(s.plan.value, 1, c);
  }

  lemma CandidateTurnSpends(s: SessionState, turn: TurnId, now: Time, c: Config)
    requires Invariant(s, c)
    ensures SpendsInStep(s, OnCandidateTurn(s, turn, now, c), c)
  {
    match s.phase
    case Tech => TechTurnSpends(s, turn, now, c);
    case Intro => IntroTurnSpends(s, now, c);
    case _ => CandidateTurnKeeps(s, turn, now, c);
  }

  lemma ResultSpends(s: SessionState, e: Event, c: Config)
    requires Invariant(s, c) && !Terminal(s.phase) && (e.AssessmentCompleted? || e.AssessmentFailed?)
    ensures SpendsInStep(s, Transition(s, e, c), c)
  {
    hide CoverageAfter, FocusMatchesPending, TurnsFrom;
    StepKeepsInvariant(s, e, c);
  }

  lemma OtherEventSpends(s: SessionState, e: Event, c: Config)
    requires Invariant(s, c) && !e.CandidateTurnReceived? && !e.AssessmentCompleted? && !e.AssessmentFailed?
    ensures SpendsInStep(s, Transition(s, e, c), c)
  {
    hide TurnsFrom, FocusMatchesPending, OnCandidateTurn, OnAssessmentCompleted, OnAssessmentFailed;
    StepKeepsInvariant(s, e, c);
  }

  lemma StepSpends(s: SessionState, e: Event, c: Config)
    requires Invariant(s, c)
    ensures SpendsInStep(s, Transition(s, e, c), c)
  {
    hide OnCandidateTurn, OnAssessmentCompleted, OnAssessmentFailed, TurnsFrom, FocusMatchesPending;
    if Terminal(s.phase) {
    } else if e.AssessmentCompleted? || e.AssessmentFailed? {
      ResultSpends(s, e, c);
    } else if !e.CandidateTurnReceived? {
      OtherEventSpends(s, e, c);
    } else if s.phase != Created {
      CandidateTurnSpends(s, e.turnId, e.now, c);
    }
  }

  lemma {:induction false} RunSpends(s: SessionState, es: seq<Event>, c: Config)
    requires Invariant(s, c)
    ensures Keeps(Execute(s, es, c), c)
    ensures Count(Execute(s, es, c).commands, IsAssessorCall) + TurnsLeft(Execute(s, es, c).state, c) <= TurnsLeft(s, c)
    decreases |es|
  {
    RunKeepsInvariant(s, es, c);
    if es != [] {
      RunSpends(s, Front(es), c);
      var before := Execute(s, Front(es), c);
      var step := Transition(before.state, Last(es), c);
      StepSpends(before.state, Last(es), c);
      CountAppend(before.commands, step.commands, IsAssessorCall);
      CountShort(step.commands, IsAssessorCall);
    }
  }

  /** Whatever the agents answer and in whatever order: a run schedules at most one
      assessment per seed question plus the probe budget of every competency. */
  lemma AssessedTurnsAreBounded(sessionId: nat, plan: RawPlan, es: seq<Event>, c: Config)
    ensures
      var run := Execute(InitialState(sessionId, plan, c), es, c);
      && run.Stepped?
      && Count(run.commands, IsAssessorCall)
         <= if ValidatePlan(plan).Some? then TurnsFrom(ValidatePlan(plan).value, 0, c) else 0
  {
    var s := InitialState(sessionId, plan, c);
    assert Invariant(s, c);
    RunSpends(s, es, c);
  }

  // ---------- time ----------

  function Rank(p: Phase): nat
  {
    match p
    case Created => 0
    case Intro => 1
    case Tech => 2
    case Qa => 3
    case Close => 4
    case Completed => 5
    case Aborted => 5
  }

  /** The instant the session budget is reached. */
  function Deadline(s: SessionState): Time
    requires Underway(s)
  {
    s.clocks.startedAt.value + Minutes(s.plan.value.sessionMaxMinutes)
  }

  predicate LateTick(e: Event, deadline: Time)
  {
    e.TimerTick? && e.now >= deadline
  }

  function Least(a: nat, b: nat): nat { if a < b then a else b }

  ghost predicate AgesInStep(s: SessionState, e: Event, step: Step)
  {
    && step.Stepped?
    && Rank(s.phase) <= Rank(step.state.phase)
    && (Underway(s) && !Terminal(step.state.phase) ==> Underway(step.state) && Deadline(step.state) == Deadline(s))
    && (Underway(s) && 2 <= Rank(s.phase) && LateTick(e, Deadline(s)) ==>
          Least(Rank(s.phase) + 1, 5) <= Rank(step.state.phase))
  }

  lemma CandidateTurnAges(s: SessionState, e: Event, c: Config)
    requires Invariant(s, c) && e.CandidateTurnReceived?
    ensures AgesInStep(s, e, OnCandidateTurn(s, e.turnId, e.now, c))
  {
    CandidateTurnKeeps(s, e.turnId, e.now, c);
  }

  lemma TickAges(s: SessionState, e: Event, c: Config)
    requires Invariant(s, c) && e.TimerTick? && !Terminal(s.phase)
    ensures AgesInStep(s, e, OnTimerTick(s, e.now, c))
  {
  }

  lemma StepAges(s: SessionState, e: Event, c: Config)
    requires Invariant(s, c)
    ensures AgesInStep(s, e, Transition(s, e, c))
  {
    hide OnCandidateTurn, CoverageAfter, FocusMatchesPending;
    if Terminal(s.phase) {
    } else if e.TimerTick? {
      TickAges(s, e, c);
    } else if e.CandidateTurnReceived? {
      CandidateTurnAges(s, e, c);
    }
  }

  /** The phase never goes back, in any run. */
  lemma {:induction false} PhasesOnlyAdvance(s: SessionState, es: seq<Event>, c: Config)
    requires Invariant(s, c)
    ensures Keeps(Execute(s, es, c), c)
    ensures Rank(s.phase) <= Rank(Execute(s, es, c).state.phase)
    decreases |es|
  {
    RunKeepsInvariant(s, es, c);
    if es != [] {
      PhasesOnlyAdvance(s, Front(es), c);
      StepAges(Execute(s, Front(es), c).state, Last(es), c);
    }
  }

  function LateTicks(es: seq<Event>, deadline: Time): nat
  {
    if es == [] then 0
    else LateTicks(Front(es), deadline) + (if LateTick(Last(es), deadline) then 1 else 0)
  }

  /** How far `ticks` late ticks have brought the session. */
  ghost predicate Aged(s: SessionState, t: SessionState, ticks: nat)
    requires Underway(s)
  {
    && Least(Rank(s.phase) + ticks, 5) <= Rank(t.phase)
    && (!Terminal(t.phase) ==> Underway(t) && Deadline(t) == Deadline(s))
  }

  lemma OneMoreTick(s: SessionState, t: SessionState, ticks: nat, e: Event, step: Step)
    requires Underway(s) && 2 <= Rank(s.phase) && Aged(s, t, ticks) && AgesInStep(t, e, step)
    ensures Aged(s, step.state, ticks + if LateTick(e, Deadline(s)) then 1 else 0)
  {
  }

  lemma {:induction false} LateTicksAdvance(s: SessionState, es: seq<Event>, c: Config)
    requires Invariant(s, c) && Underway(s) && 2 <= Rank(s.phase)
    ensures Keeps(Execute(s, es, c), c)
    ensures Aged(s, Execute(s, es, c).state, LateTicks(es, Deadline(s)))
    decreases |es|
  {
    RunKeepsInvariant(s, es, c);
    if es != [] {
      LateTicksAdvance(s, Front(es), c);
      var before := Execute(s, Front(es), c).state;
      StepAges(before, Last(es), c);
      OneMoreTick(s, before, LateTicks(Front(es), Deadline(s)), Last(es), Transition(before, Last(es), c));
    }
  }

  /** From TECH on, three ticks at or past the session budget end the session, whatever
      happens between them. */
  lemma ThreeLateTicksEndTheSession(s: SessionState, es: seq<Event>, c: Config)
    requires Invariant(s, c) && Underway(s) && 2 <= Rank(s.phase)
    requires 3 <= LateTicks(es, Deadline(s))
    ensures Execute(s, es, c).Stepped? && Terminal(Execute(s, es, c).state.phase)
  {
    LateTicksAdvance(s, es, c);
  }
}
