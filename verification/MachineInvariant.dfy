/** What every reachable state satisfies, and hence that a run from the initial
    state never raises OrchestratorStateError. */
module MachineInvariant {
  import opened Common
  import opened InterviewPlan
  import opened StateMachine

  /** The command outstanding in `s` carries the newest turn number handed out. */
  predicate NewestTurn(s: SessionState)
  {
    && s.turn.pending.Some?
    && 1 <= s.turn.number
    && s.turn.pending.value.turnId == MachineTurn(s.info.id, s.turn.number - 1)
  }

  /** Turn-taking in TECH and QA: who is awaited, what is outstanding, and the
      failure streak determine each other. */
  predicate TurnTaking(t: Turn)
  {
    && t.pending.Some? && t.lastMove.Some?
    && (t.pending.value.RunInterviewer? || t.pending.value.DeliverUtterance?)
    && t.awaiting == Some(if t.pending.value.RunInterviewer? then Interviewer else Candidate)
    && (t.pending.value.RunInterviewer? ==> t.pending.value.move == t.lastMove.value)
    && t.failureStreak == (if t.pending.value.RunInterviewer? && t.pending.value.retry then 1 else 0)
  }

  predicate InPlan(loop: Loop, plan: Plan, c: Config)
  {
    && 0 <= loop.competency < |plan.competencies|
    && 0 <= loop.seed < |plan.competencies[loop.competency].seeds|
    && 0 <= loop.probes <= c.maxProbes
    && loop.startedAt.Some?
  }

  /** A session that has started and has not been aborted. */
  predicate Underway(s: SessionState)
  {
    && s.plan.Some? && s.plan.value.Valid()
    && s.clocks.startedAt.Some?
    && s.clocks.lastActivity.Some?
    && s.info.planInput == Shaped(s.plan.value)
  }

  /** Exactly the pending assessments have a remembered focus. */
  ghost predicate FocusMatchesPending(e: Evidence)
  {
    forall t :: t in e.focus <==> t in e.pending
  }

  predicate PhaseInvariant(s: SessionState, c: Config)
  {
    match s.phase
    case Created => s == InitialState(s.info.id, s.info.planInput, c)
    case Intro =>
      Underway(s) && NewestTurn(s) && s.turn.pending.value.EmitScriptedOpening? && s.turn.number == 1
      && s.turn.awaiting == Some(Interviewer) && s.turn.lastMove.None? && s.turn.failureStreak == 0
    case Tech => Underway(s) && NewestTurn(s) && TurnTaking(s.turn) && InPlan(s.loop, s.plan.value, c)
    case Qa => Underway(s) && NewestTurn(s) && TurnTaking(s.turn) && s.clocks.qaStartedAt.Some?
    case Close =>
      Underway(s) && NewestTurn(s) && s.turn.pending.value.EmitScriptedClosing?
      && s.turn.awaiting == Some(Interviewer) && s.turn.failureStreak <= 1
    case Completed => Underway(s) && s.turn.awaiting.None? && s.turn.pending.None?
    case Aborted => s.turn.awaiting.None? && s.turn.pending.None?
  }

  ghost predicate Invariant(s: SessionState, c: Config)
  {
    && (s.phase == Aborted <==> s.abortReason.Some?)
    && FocusMatchesPending(s.evidence)
    && PhaseInvariant(s, c)
  }

  lemma WithoutMember(pending: seq<TurnId>, turn: TurnId)
    ensures forall t :: t in Without(pending, turn) <==> t in pending && t != turn
  {
    forall t
      ensures t in Without(pending, turn) <==> t in pending && t != turn
    {
      FilterMember(pending, u => u != turn, t);
    }
  }

  /** The next state of a transition that was not refused. */
  ghost predicate Keeps(step: Step, c: Config)
  {
    step.Stepped? && Invariant(step.state, c)
  }

  lemma ReactionKeeps(s: SessionState, now: Time, c: Config)
    requires s.phase == Tech && Underway(s) && InPlan(s.loop, s.plan.value, c)
    ensures ReactionTo(s, now, c).Some?
    ensures
      var r := ReactionTo(s, now, c).value;
      r.next.Some? ==> InPlan(r.next.value, s.plan.value, c)
  {
    var following := s.plan.value.CompetencyAt(s.loop.competency + 1);
    if following.Some? {
      assert following.value.Valid();
    }
  }

  lemma TechTurnKeeps(s: SessionState, turn: TurnId, now: Time, c: Config)
    requires Invariant(s, c) && s.phase == Tech
    ensures Keeps(OnTechTurn(s, turn, now, c), c)
  {
    ReactionKeeps(s, now, c);
    assert FocusMatchesPending(Scheduled(s.evidence, turn, CurrentCompetency(s).value.nodeId));
  }

  lemma CandidateTurnKeeps(s: SessionState, turn: TurnId, now: Time, c: Config)
    requires Invariant(s, c)
    ensures Keeps(OnCandidateTurn(s, turn, now, c), c)
  {
    if s.phase == Tech {
      TechTurnKeeps(s, turn, now, c);
    } else if s.phase == Intro {
      assert s.plan.value.competencies[0].Valid();
    }
  }

  lemma AssessorEventKeeps(s: SessionState, e: Event, c: Config)
    requires Invariant(s, c) && !Terminal(s.phase)
    requires e.AssessmentCompleted? || e.AssessmentFailed?
    ensures e.AssessmentCompleted? ==> Keeps(OnAssessmentCompleted(s, e.forTurn, e.output, c), c)
    ensures e.AssessmentFailed? ==> Keeps(OnAssessmentFailed(s, e.forTurn), c)
  {
    WithoutMember(s.evidence.pending, e.forTurn);
  }

  lemma AgentReplyKeeps(s: SessionState, e: Event, c: Config)
    requires Invariant(s, c) && !Terminal(s.phase) && s.phase != Created
    requires e.InterviewerReplyReady? || e.InterviewerFailed?
    ensures e.InterviewerReplyReady? ==> Keeps(OnInterviewerReply(s, e.turnId, e.reply, c), c)
    ensures e.InterviewerFailed? ==> Keeps(OnInterviewerFailed(s, e.turnId, e.errorKind), c)
  {
  }

  lemma TickKeeps(s: SessionState, now: Time, c: Config)
    requires Invariant(s, c) && !Terminal(s.phase)
    ensures Keeps(OnTimerTick(s, now, c), c)
  {
  }

  lemma StartKeeps(s: SessionState, now: Time, c: Config)
    requires Invariant(s, c) && s.phase == Created
    ensures Keeps(OnSessionStarted(s, now), c)
  {
  }

  lemma ResumeKeeps(s: SessionState, c: Config)
    requires Invariant(s, c)
    ensures Keeps(OnReconnected(s), c)
  {
  }

  lemma AbortKeeps(s: SessionState, reason: AbortReason, c: Config)
    requires Invariant(s, c)
    ensures Keeps(Abort(s, reason, ByOperator, true), c)
  {
  }

  /** One step: the invariant is kept and the transition never raises. */
  lemma StepKeepsInvariant(s: SessionState, e: Event, c: Config)
    requires Invariant(s, c)
    ensures Keeps(Transition(s, e, c), c)
  {
    if !Terminal(s.phase) {
      match e
      case AssessmentCompleted(_, _, _) => AssessorEventKeeps(s, e, c);
      case AssessmentFailed(_, _, _) => AssessorEventKeeps(s, e, c);
      case OperatorAbort(reason, _) => AbortKeeps(s, reason, c);
      case Reconnected(_) => ResumeKeeps(s, c);
      case TimerTick(now) => TickKeeps(s, now, c);
      case SessionStarted(now) =>
        if s.phase == Created {
          StartKeeps(s, now, c);
        }
      case CandidateTurnReceived(turn, _, now) => CandidateTurnKeeps(s, turn, now, c);
      case _ =>
        if s.phase != Created {
          AgentReplyKeeps(s, e, c);
        }
    }
  }

  lemma {:induction false} RunKeepsInvariant(s: SessionState, es: seq<Event>, c: Config)
    requires Invariant(s, c)
    ensures Keeps(Execute(s, es, c), c)
    decreases |es|
  {
    if es != [] {
      RunKeepsInvariant(s, Front(es), c);
      StepKeepsInvariant(Execute(s, Front(es), c).state, Last(es), c);
    }
  }

  /** From any plan payload whatsoever, no run raises, and every state it passes
      through satisfies the invariant. */
  lemma ReachableInvariant(sessionId: nat, plan: RawPlan, es: seq<Event>, c: Config)
    ensures Keeps(Execute(InitialState(sessionId, plan, c), es, c), c)
  {
    assert Invariant(InitialState(sessionId, plan, c), c);
    RunKeepsInvariant(InitialState(sessionId, plan, c), es, c);
  }
}
