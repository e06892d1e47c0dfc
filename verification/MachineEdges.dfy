/** When exactly each phase is entered, and what every outstanding move is about. */
module MachineEdges {
  import opened Common
  import opened InterviewPlan
  import opened StateMachine
  import opened MachineInvariant

  // ---------- phases ----------

  /** The current competency is left for good by this turn. */
  predicate Leaves(s: SessionState, now: Time, c: Config)
    requires CurrentCompetency(s).Some?
  {
    var comp := CurrentCompetency(s).value;
    var a := TechDecision(s, comp, now, c);
    || a.verdict == NoEvidence
    || (&& a.verdict == Answered
        && (comp.SeedQuestion(s.loop.seed + 1).None? || TimeRemaining(comp, s.loop.startedAt, now) <= 0))
  }

  predicate TurnInTech(s: SessionState, e: Event)
  {
    s.phase == Tech && e.CandidateTurnReceived? && s.turn.awaiting == Some(Candidate)
  }

  predicate SecondFailure(s: SessionState, e: Event)
  {
    e.InterviewerFailed? && InConversation(s) && AnswersPending(s, e.turnId) && s.turn.failureStreak >= 1
  }

  predicate EntersQa(s: SessionState, e: Event, c: Config)
  {
    && s.phase == Tech
    && (|| (e.TimerTick? && !CandidateTimedOut(s, e.now, c) && SessionBudgetExhausted(s, e.now))
        || (&& TurnInTech(s, e) && CurrentCompetency(s).Some? && Leaves(s, e.now, c)
            && s.plan.value.CompetencyAt(s.loop.competency + 1).None?))
  }

  predicate EntersClose(s: SessionState, e: Event, c: Config)
  {
    && s.phase == Qa
    && (|| (e.CandidateTurnReceived? && QaBudgetExhausted(s, e.now))
        || (&& e.TimerTick? && !CandidateTimedOut(s, e.now, c)
            && (SessionBudgetExhausted(s, e.now) || QaBudgetExhausted(s, e.now))))
  }

  predicate Finishes(s: SessionState, e: Event, c: Config)
  {
    && s.phase == Close
    && ((e.TimerTick? && !CandidateTimedOut(s, e.now, c)) || (e.InterviewerReplyReady? && AnswersPending(s, e.turnId)))
  }

  /** Why a session would be aborted by this event, if at all. */
  function AbortedBy(s: SessionState, e: Event, c: Config): Option<AbortReason>
  {
    if Terminal(s.phase) then None
    else if e.OperatorAbort? then Some(e.reason)
    else if e.TimerTick? && CandidateTimedOut(s, e.now, c) then Some(CandidateTimeout)
    else if e.SessionStarted? && s.phase == Created && ValidatePlan(s.info.planInput).None? then Some(OperatorAborted)
    else if SecondFailure(s, e) then Some(FatalAgentError)
    else None
  }

  /** The phase after an event, decided by the guards alone. */
  function PhaseAfter(s: SessionState, e: Event, c: Config): Phase
  {
    if AbortedBy(s, e, c).Some? then Aborted
    else if s.phase == Created && e.SessionStarted? then Intro
    else if s.phase == Intro && e.CandidateTurnReceived? then Tech
    else if EntersQa(s, e, c) then Qa
    else if EntersClose(s, e, c) then Close
    else if Finishes(s, e, c) then Completed
    else s.phase
  }

  ghost predicate EdgeTaken(s: SessionState, e: Event, step: Step, c: Config)
  {
    && step.Stepped?
    && step.state.phase == PhaseAfter(s, e, c)
    && (AbortedBy(s, e, c).Some? ==> step.state.abortReason == AbortedBy(s, e, c))
    && (AbortedBy(s, e, c).None? ==> step.state.abortReason == s.abortReason)
  }

  lemma CandidateTurnEdge(s: SessionState, e: Event, c: Config)
    requires Invariant(s, c) && e.CandidateTurnReceived? && s.phase != Created && !Terminal(s.phase)
    ensures EdgeTaken(s, e, OnCandidateTurn(s, e.turnId, e.now, c), c)
  {
    CandidateTurnKeeps(s, e.turnId, e.now, c);
  }

  lemma TickEdge(s: SessionState, e: Event, c: Config)
    requires Invariant(s, c) && e.TimerTick? && !Terminal(s.phase)
    ensures EdgeTaken(s, e, OnTimerTick(s, e.now, c), c)
  {
  }

  lemma OtherEdge(s: SessionState, e: Event, c: Config)
    requires Invariant(s, c) && !e.TimerTick? && !e.CandidateTurnReceived?
    ensures EdgeTaken(s, e, Transition(s, e, c), c)
  {
  }

  /** From every reachable state, every event leads to exactly the phase, and the abort
      reason, that the guards name. */
  lemma EdgesAreExact(s: SessionState, e: Event, c: Config)
    requires Invariant(s, c)
    ensures EdgeTaken(s, e, Transition(s, e, c), c)
  {
    if Terminal(s.phase) {
    } else if e.TimerTick? {
      TickEdge(s, e, c);
    } else if !e.CandidateTurnReceived? {
      OtherEdge(s, e, c);
    } else if s.phase != Created {
      CandidateTurnEdge(s, e, c);
    }
  }

  // ---------- how a run ends ----------

  /** A turn that has failed once is outstanding. */
  predicate FailedOnce(s: SessionState, turn: TurnId)
  {
    (s.phase == Tech || s.phase == Qa) && s.turn.failureStreak >= 1 && AnswersPending(s, turn)
  }

  /** The failed turn was outstanding before, or fails now. */
  ghost predicate StreakInStep(s: SessionState, e: Event, step: Step)
  {
    step.Stepped? && forall turn :: FailedOnce(step.state, turn) ==>
                                      FailedOnce(s, turn) || (e.InterviewerFailed? && e.turnId == turn)
  }

  lemma CandidateTurnStreak(s: SessionState, e: Event, c: Config)
    requires Invariant(s, c) && e.CandidateTurnReceived?
    ensures StreakInStep(s, e, OnCandidateTurn(s, e.turnId, e.now, c))
  {
    CandidateTurnKeeps(s, e.turnId, e.now, c);
  }

  lemma StepStreak(s: SessionState, e: Event, c: Config)
    requires Invariant(s, c)
    ensures StreakInStep(s, e, Transition(s, e, c))
  {
    if e.CandidateTurnReceived? {
      CandidateTurnStreak(s, e, c);
    }
  }

  ghost predicate HasFailed(es: seq<Event>, turn: TurnId)
  {
    exists j :: 0 <= j < |es| && es[j].InterviewerFailed? && es[j].turnId == turn
  }

  lemma {:induction false} StreaksHaveFailed(sessionId: nat, plan: RawPlan, es: seq<Event>, turn: TurnId, c: Config)
    ensures
      var run := Execute(InitialState(sessionId, plan, c), es, c);
      run.Stepped? && (FailedOnce(run.state, turn) ==> HasFailed(es, turn))
    decreases |es|
  {
    if es != [] {
      var s, front := InitialState(sessionId, plan, c), Front(es);
      StreaksHaveFailed(sessionId, plan, front, turn, c);
      ReachableInvariant(sessionId, plan, front, c);
      StepStreak(Execute(s, front, c).state, Last(es), c);
      if HasFailed(front, turn) {
        var j :| 0 <= j < |front| && front[j].InterviewerFailed? && front[j].turnId == turn;
        assert es[j] == front[j];
      }
    }
  }

  /** What an event that ends a live session was, by the reason left behind and the phase left. */
  ghost predicate EndsFor(earlier: seq<Event>, s: SessionState, e: Event, t: SessionState)
  {
    match e
    case OperatorAbort(reason, _) => t.abortReason == Some(reason)
    case SessionStarted(_) =>
      s.phase == Created && ValidatePlan(s.info.planInput).None? && t.abortReason == Some(OperatorAborted)
    case TimerTick(_) =>
      && s.phase != Created
      && (if t.phase == Completed then s.phase == Close else t.abortReason == Some(CandidateTimeout))
    case InterviewerFailed(turn, _, _) =>
      (s.phase == Tech || s.phase == Qa) && HasFailed(earlier, turn) && t.abortReason == Some(FatalAgentError)
    case InterviewerReplyReady(_, _, _) => s.phase == Close && t.phase == Completed
    case _ => false
  }

  /** The decision to be recorded when this event ends a session in `t`. */
  predicate IsReason(e: Event, t: SessionState, reason: DecisionReason)
  {
    match reason
    case ByOperator => e.OperatorAbort?
    case PlanRejected => e.SessionStarted?
    case AgentFailure => e.InterviewerFailed?
    case TimedOut => e.TimerTick? && t.phase == Aborted
    case Finished => t.phase == Completed
  }

  ghost predicate ReasonRecorded(e: Event, step: Step)
  {
    step.Stepped? && exists reason :: RecordDecision(reason) in step.commands && IsReason(e, step.state, reason)
  }

  lemma EndingRecordsReason(s: SessionState, e: Event, c: Config)
    requires Invariant(s, c) && !Terminal(s.phase) && !e.CandidateTurnReceived?
    requires Transition(s, e, c).Stepped? && Terminal(Transition(s, e, c).state.phase)
    ensures ReasonRecorded(e, Transition(s, e, c))
  {
    var cs := Transition(s, e, c).commands;
    var k := if cs[0].RecordDecision? then 0 else 1;
    assert RecordDecision(cs[k].reason) in cs && IsReason(e, Transition(s, e, c).state, cs[k].reason);
  }

  lemma CandidateEndsNothing(s: SessionState, e: Event, c: Config)
    requires Invariant(s, c) && !Terminal(s.phase) && e.CandidateTurnReceived?
    ensures Transition(s, e, c).Stepped? && !Terminal(Transition(s, e, c).state.phase)
  {
    EdgesAreExact(s, e, c);
  }

  /** Event k ends the run: it finds the session alive, and leaves it as it stays. */
  ghost predicate EndsAt(s: SessionState, es: seq<Event>, k: nat, c: Config)
    requires k < |es|
  {
    var before, run := Execute(s, es[..k], c), Execute(s, es, c);
    && before.Stepped? && !Terminal(before.state.phase)
    && run.Stepped? && Transition(before.state, es[k], c).Stepped?
    && Transition(before.state, es[k], c).state == run.state
    && EndsFor(es[..k], before.state, es[k], run.state)
    && ReasonRecorded(es[k], Transition(before.state, es[k], c))
  }

  /** The guard table, read from the far end. */
  lemma EdgeEndsFor(earlier: seq<Event>, s: SessionState, e: Event, step: Step, c: Config)
    requires Invariant(s, c) && !Terminal(s.phase) && EdgeTaken(s, e, step, c) && Terminal(step.state.phase)
    requires e.InterviewerFailed? && SecondFailure(s, e) ==> HasFailed(earlier, e.turnId)
    ensures EndsFor(earlier, s, e, step.state)
  {
    hide HasFailed, ValidatePlan;
  }

  lemma SecondFailureHasFailed(s: SessionState, e: Event)
    requires SecondFailure(s, e)
    ensures FailedOnce(s, e.turnId)
  {
  }

  lemma LastEventEnds(sessionId: nat, plan: RawPlan, es: seq<Event>, c: Config)
    requires es != []
    requires
      var before := Execute(InitialState(sessionId, plan, c), Front(es), c);
      before.Stepped? && Invariant(before.state, c) && !Terminal(before.state.phase)
    requires
      var run := Execute(InitialState(sessionId, plan, c), es, c);
      run.Stepped? && Terminal(run.state.phase)
    ensures EndsAt(InitialState(sessionId, plan, c), es, |es| - 1, c)
  {
    hide Transition, SecondFailure, FailedOnce, HasFailed, EndsFor, Invariant, Terminal, ReasonRecorded;
    var s, e := InitialState(sessionId, plan, c), Last(es);
    var before := Execute(s, Front(es), c);
    EdgesAreExact(before.state, e, c);
    if e.InterviewerFailed? && SecondFailure(before.state, e) {
      SecondFailureHasFailed(before.state, e);
      StreaksHaveFailed(sessionId, plan, Front(es), e.turnId, c);
    }
    EdgeEndsFor(Front(es), before.state, e, Transition(before.state, e, c), c);
    if e.CandidateTurnReceived? {
      CandidateEndsNothing(before.state, e, c);
    } else {
      EndingRecordsReason(before.state, e, c);
    }
  }

  /** Every run that has ended was ended by one event, from which on nothing changed: the
      operator, with the reason given; a start with a plan that is refused; a tick, for silence or
      out of CLOSE; the reply to the closing; or, in TECH and Q&A only, the second failure of one
      and the same interviewer turn. The decision recorded is the one for that event. Nothing the
      candidate or the assessor does ends a session. */
  lemma {:induction false} RunsEndForACause(sessionId: nat, plan: RawPlan, es: seq<Event>, c: Config)
    ensures
      var s := InitialState(sessionId, plan, c);
      && Execute(s, es, c).Stepped?
      && (Terminal(Execute(s, es, c).state.phase) ==> exists k: nat :: k < |es| && EndsAt(s, es, k, c))
    decreases |es|
  {
    var s := InitialState(sessionId, plan, c);
    ReachableInvariant(sessionId, plan, es, c);
    if es != [] && Terminal(Execute(s, es, c).state.phase) {
      var front := Front(es);
      RunsEndForACause(sessionId, plan, front, c);
      ReachableInvariant(sessionId, plan, front, c);
      if Terminal(Execute(s, front, c).state.phase) {
        var k: nat :| k < |front| && EndsAt(s, front, k, c);
        assert es[..k] == front[..k] && es[k] == front[k];
        assert EndsAt(s, es, k, c);
      } else {
        LastEventEnds(sessionId, plan, es, c);
      }
    }
  }

  // ---------- what a move is about ----------

  /** The outstanding move tells the interviewer where the loop stands: the node, the seed or
      the probe it names are those of the current competency. */
  predicate AboutLoop(o: Outbound, loop: Loop, plan: Plan)
    requires 0 <= loop.competency < |plan.competencies|
  {
    o.RunInterviewer? ==>
      var comp := plan.competencies[loop.competency];
      && o.node == Some(comp.nodeId)
      && match o.context
         case FirstSeedContext(node, seed) =>
           o.move == AskSeed && loop.competency == 0 && loop.probes == 0
           && node == comp.nodeId && loop.seed == 0 && comp.SeedQuestion(0) == Some(seed)
         case NextSeedContext(node, index, seed) =>
           o.move == AcknowledgeAndTransition && 1 <= loop.seed
           && node == comp.nodeId && index == loop.seed && comp.SeedQuestion(index) == Some(seed)
         case ProbeContext(node, index, branch) =>
           o.move == DepthProbe
           && node == comp.nodeId && index == loop.probes - 1 && branch == comp.ProbeBranch(index)
         case AdvanceContext(closing, node, labelUk, seed) =>
           && (o.move == AcknowledgeAndTransition || o.move == CloseCompetency)
           && 1 <= loop.competency && loop.seed == 0 && loop.probes == 0
           && closing == plan.competencies[loop.competency - 1].nodeId
           && node == comp.nodeId && labelUk == comp.labelUk && comp.SeedQuestion(0) == Some(seed)
         case QaContext(_) => false
  }

  predicate AboutQa(o: Outbound, plan: Plan)
  {
    o.RunInterviewer? ==> o.move == AcknowledgeAndTransition && o.node.None? && o.context == QaContext(plan.qaMinutes)
  }

  predicate MoveFits(s: SessionState)
  {
    s.turn.pending.Some? && s.plan.Some? ==>
      && (s.phase == Tech && 0 <= s.loop.competency < |s.plan.value.competencies| ==>
            AboutLoop(s.turn.pending.value, s.loop, s.plan.value))
      && (s.phase == Qa ==> AboutQa(s.turn.pending.value, s.plan.value))
  }

  ghost predicate FitsAfter(step: Step)
  {
    step.Stepped? ==> MoveFits(step.state)
  }

  lemma ReactionFits(s: SessionState, turn: TurnId, now: Time, c: Config)
    requires Invariant(s, c) && s.phase == Tech
    ensures FitsAfter(OnTechTurn(s, turn, now, c))
  {
    hide Adjudicate, Lookup;
    TechTurnKeeps(s, turn, now, c);
  }

  lemma CandidateTurnFits(s: SessionState, e: Event, c: Config)
    requires Invariant(s, c) && MoveFits(s) && e.CandidateTurnReceived?
    ensures FitsAfter(OnCandidateTurn(s, e.turnId, e.now, c))
  {
    if s.phase == Tech {
      ReactionFits(s, e.turnId, e.now, c);
    } else {
      CandidateTurnKeeps(s, e.turnId, e.now, c);
    }
  }

  lemma StepFits(s: SessionState, e: Event, c: Config)
    requires Invariant(s, c) && MoveFits(s)
    ensures FitsAfter(Transition(s, e, c))
  {
    if e.CandidateTurnReceived? && s.phase != Created && !Terminal(s.phase) {
      CandidateTurnFits(s, e, c);
    }
  }

  /** In every run, the move outstanding is about the competency, seed and probe at which the
      loop stands, with that competency's own text; in Q&A it is the Q&A move. */
  lemma {:induction false} MovesAreAboutTheLoop(sessionId: nat, plan: RawPlan, es: seq<Event>, c: Config)
    ensures FitsAfter(Execute(InitialState(sessionId, plan, c), es, c))
    decreases |es|
  {
    if es != [] {
      MovesAreAboutTheLoop(sessionId, plan, Front(es), c);
      ReachableInvariant(sessionId, plan, Front(es), c);
      StepFits(Execute(InitialState(sessionId, plan, c), Front(es), c).state, Last(es), c);
    }
  }
}
