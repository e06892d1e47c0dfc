/** What the clocks of a run hold, and what each deadline comes to in microseconds counted from
    the events of the run: the session, a competency, and the questions at the end. */
module MachineClocks {
  import opened Common
  import opened InterviewPlan
  import opened StateMachine
  import opened MachineInvariant
  import opened MachineVerdicts

  // ---------- when a run got where it is ----------

  /** What an event does to the place a session is at. */
  predicate Opens(s: SessionState, t: SessionState) { s.phase == Created && t.phase == Intro }

  predicate EntersCompetency(s: SessionState, t: SessionState)
  {
    t.phase == Tech && (s.phase != Tech || s.loop.competency != t.loop.competency)
  }

  predicate EntersQuestions(s: SessionState, t: SessionState) { s.phase != Qa && t.phase == Qa }

  /** The time of the last event of a run that does `what`. */
  function LastTime(s: SessionState, es: seq<Event>, what: (SessionState, SessionState) -> bool, c: Config)
    : Option<Time>
    decreases |es|
  {
    if es == [] then None
    else
      var before, after := Execute(s, Front(es), c), Execute(s, es, c);
      if before.Stepped? && after.Stepped? && what(before.state, after.state) then Some(Last(es).now)
      else LastTime(s, Front(es), what, c)
  }

  /** The clocks after one event. */
  ghost predicate ClocksInStep(s: SessionState, e: Event, step: Step)
  {
    && step.Stepped?
    && var t := step.state;
       && t.clocks.startedAt == (if Opens(s, t) then Some(e.now) else s.clocks.startedAt)
       && t.clocks.qaStartedAt == (if EntersQuestions(s, t) then Some(e.now) else s.clocks.qaStartedAt)
       && (t.phase == Tech ==> t.loop.startedAt == if EntersCompetency(s, t) then Some(e.now) else s.loop.startedAt)
  }

  lemma TechTurnClocks(s: SessionState, e: Event, c: Config)
    requires Invariant(s, c) && s.phase == Tech && e.CandidateTurnReceived?
    ensures ClocksInStep(s, e, OnTechTurn(s, e.turnId, e.now, c))
  {
    hide Adjudicate;
    ReactionKeeps(s, e.now, c);
  }

  lemma CandidateTurnClocks(s: SessionState, e: Event, c: Config)
    requires Invariant(s, c) && e.CandidateTurnReceived? && s.phase != Created && !Terminal(s.phase)
    ensures ClocksInStep(s, e, OnCandidateTurn(s, e.turnId, e.now, c))
  {
    hide OnTechTurn;
    if s.phase == Tech {
      TechTurnClocks(s, e, c);
    } else {
      CandidateTurnKeeps(s, e.turnId, e.now, c);
    }
  }

  lemma StepClocks(s: SessionState, e: Event, c: Config)
    requires Invariant(s, c)
    ensures ClocksInStep(s, e, Transition(s, e, c))
  {
    hide OnCandidateTurn;
    if e.CandidateTurnReceived? && s.phase != Created && !Terminal(s.phase) {
      CandidateTurnClocks(s, e, c);
    }
  }

  /** The three clocks of a state. */
  ghost predicate ClocksAre(t: SessionState, begun: Option<Time>, entered: Option<Time>, asked: Option<Time>)
  {
    && t.clocks.startedAt == begun && t.clocks.qaStartedAt == asked
    && (t.phase == Tech ==> t.loop.startedAt == entered)
  }

  lemma ClocksStep(s: SessionState, e: Event, step: Step, begun: Option<Time>, entered: Option<Time>,
                   asked: Option<Time>)
    requires ClocksAre(s, begun, entered, asked) && ClocksInStep(s, e, step)
    ensures
      var t := step.state;
      ClocksAre(t, if Opens(s, t) then Some(e.now) else begun,
                if EntersCompetency(s, t) then Some(e.now) else entered,
                if EntersQuestions(s, t) then Some(e.now) else asked)
  {
  }

  /** In every run: the session clock holds when the session was begun, the competency clock
      when the competency was entered, and the questions' clock when the questions began. */
  lemma {:induction false} ClocksHoldTheRun(sessionId: nat, plan: RawPlan, es: seq<Event>, c: Config)
    ensures
      var s := InitialState(sessionId, plan, c);
      && Execute(s, es, c).Stepped?
      && ClocksAre(Execute(s, es, c).state, LastTime(s, es, Opens, c), LastTime(s, es, EntersCompetency, c),
                   LastTime(s, es, EntersQuestions, c))
    decreases |es|
  {
    if es != [] {
      hide Transition, ClocksInStep, Opens, EntersCompetency, EntersQuestions;
      var s, front := InitialState(sessionId, plan, c), Front(es);
      ClocksHoldTheRun(sessionId, plan, front, c);
      ReachableInvariant(sessionId, plan, front, c);
      var before := Execute(s, front, c);
      StepClocks(before.state, Last(es), c);
      ClocksStep(before.state, Last(es), Transition(before.state, Last(es), c), LastTime(s, front, Opens, c),
                 LastTime(s, front, EntersCompetency, c), LastTime(s, front, EntersQuestions, c));
    }
  }

  // ---------- ticks and questions ----------

  /** Minutes after a time: at or past it. */
  predicate Reached(now: Time, from: Option<Time>, minutes: int)
  {
    from.Some? && now >= from.value + 60_000_000 * minutes
  }

  predicate Overdue(now: Time, heard: Option<Time>, c: Config)
  {
    heard.Some? && now > heard.value + 60_000_000 * c.candidateTimeoutMinutes
  }

  /** Where a tick takes a session, counted from the events of its run. */
  function PhaseOnTick(t: SessionState, now: Time, heard: Option<Time>, begun: Option<Time>, asked: Option<Time>,
                       c: Config): Phase
    requires t.plan.Some? || t.phase == Created
  {
    if Overdue(now, heard, c) then Aborted
    else
      match t.phase
      case Tech => if Reached(now, begun, t.plan.value.sessionMaxMinutes) then Qa else Tech
      case Qa =>
        if Reached(now, begun, t.plan.value.sessionMaxMinutes) || Reached(now, asked, t.plan.value.qaMinutes)
        then Close else Qa
      case Close => Completed
      case other => other
  }

  /** A tick, given what the clocks hold. */
  lemma TickKeepsTime(t: SessionState, e: Event, heard: Option<Time>, begun: Option<Time>, entered: Option<Time>,
                      asked: Option<Time>, c: Config)
    requires Invariant(t, c) && !Terminal(t.phase) && e.TimerTick?
    requires t.clocks.lastActivity == heard && ClocksAre(t, begun, entered, asked)
    ensures t.plan.Some? || t.phase == Created
    ensures
      var step := Transition(t, e, c);
      step.Stepped? && step.state.phase == PhaseOnTick(t, e.now, heard, begun, asked, c)
  {
  }

  /** In every run that has not ended, a tick takes it exactly where the time since its events
      says: out of TECH iff the session's minutes are over, out of Q&A iff those or the minutes
      of the questions are, and to ABORTED first of all iff the candidate has been silent for
      longer than allowed. */
  lemma TicksKeepTime(sessionId: nat, plan: RawPlan, es: seq<Event>, e: Event, c: Config)
    requires e.TimerTick?
    ensures
      var s := InitialState(sessionId, plan, c);
      && Execute(s, es, c).Stepped?
      && var t := Execute(s, es, c).state;
         !Terminal(t.phase) ==>
           && (t.plan.Some? || t.phase == Created)
           && Execute(s, es + [e], c).Stepped?
           && Execute(s, es + [e], c).state.phase
              == PhaseOnTick(t, e.now, LastHeard(s, es, c), LastTime(s, es, Opens, c),
                             LastTime(s, es, EntersQuestions, c), c)
  {
    hide Transition, PhaseOnTick;
    var s := InitialState(sessionId, plan, c);
    ClocksHoldTheRun(sessionId, plan, es, c);
    LastActivityIsLastHeard(sessionId, plan, es, c);
    ReachableInvariant(sessionId, plan, es, c);
    assert Front(es + [e]) == es && Last(es + [e]) == e;
    var t := Execute(s, es, c).state;
    if !Terminal(t.phase) {
      TickKeepsTime(t, e, LastHeard(s, es, c), LastTime(s, es, Opens, c), LastTime(s, es, EntersCompetency, c),
                    LastTime(s, es, EntersQuestions, c), c);
    }
  }

  /** In every run, a question of the candidate's is answered until the minutes of the
      questions are over; from then on it leads to the closing. */
  lemma QuestionsKeepTime(sessionId: nat, plan: RawPlan, es: seq<Event>, e: Event, c: Config)
    requires e.CandidateTurnReceived?
    ensures
      var s := InitialState(sessionId, plan, c);
      && Execute(s, es, c).Stepped?
      && var t := Execute(s, es, c).state;
         t.phase == Qa ==>
           && t.plan.Some? && Execute(s, es + [e], c).Stepped?
           && Execute(s, es + [e], c).state.phase
              == if Reached(e.now, LastTime(s, es, EntersQuestions, c), t.plan.value.qaMinutes) then Close else Qa
  {
    ClocksHoldTheRun(sessionId, plan, es, c);
    ReachableInvariant(sessionId, plan, es, c);
    assert Front(es + [e]) == es && Last(es + [e]) == e;
  }
}
