/** What a run leaves for the people who rate the interview: the counts behind a flag, the turns
    marked degraded, and which steps ask to be persisted. */
module MachineReview {
  import opened Common
  import opened InterviewPlan
  import opened StateMachine
  import opened MachineInvariant
  import opened MachineCommute
  import opened MachineCoverage

  // ---------- flags ----------

  /** The interviewer reports another move than the one it was given. */
  predicate Strays(s: SessionState, e: Event)
  {
    && (s.phase == Tech || s.phase == Qa) && e.InterviewerReplyReady?
    && s.turn.pending.Some? && s.turn.pending.value.RunInterviewer?
    && s.turn.pending.value.turnId == e.turnId && s.turn.pending.value.move != e.reply.moveExecuted
  }

  function Strayed(s: SessionState, es: seq<Event>, c: Config): nat
    decreases |es|
  {
    if es == [] then 0
    else
      var before := Execute(s, Front(es), c);
      Strayed(s, Front(es), c) + if before.Stepped? && Strays(before.state, Last(es)) then 1 else 0
  }

  /** The LIKELY_CHEATING entries of one output, and of all. */
  function CheatsIn(flags: seq<RedFlag>): nat
  {
    if flags == [] then 0 else CheatsIn(Front(flags)) + if Last(flags) == LikelyCheating then 1 else 0
  }

  function CheatsOf(outputs: seq<AssessorOutput>): nat
  {
    if outputs == [] then 0 else CheatsOf(Front(outputs)) + CheatsIn(Last(outputs).redFlags)
  }

  ghost predicate SomeAsks(outputs: seq<AssessorOutput>)
  {
    exists k :: 0 <= k < |outputs| && outputs[k].needsManualReview
  }

  ghost predicate ReviewIs(r: Review, outputs: seq<AssessorOutput>, strayed: nat, c: Config)
  {
    && r.cheatFlags == CheatsOf(outputs) && r.drift == strayed
    && (r.needsManual <==> SomeAsks(outputs))
    && (r.flagged <==> CheatsOf(outputs) >= c.cheatFlagsToReview || strayed >= c.driftToReview)
  }

  lemma {:induction false} CheatsAreCounted(flags: seq<RedFlag>)
    ensures CheatFlags(flags) == CheatsIn(flags)
  {
    if flags != [] {
      CheatsAreCounted(Front(flags));
    }
  }

  lemma OneMoreAsks(outputs: seq<AssessorOutput>, o: AssessorOutput)
    ensures SomeAsks(outputs + [o]) <==> SomeAsks(outputs) || o.needsManualReview
  {
    var more := outputs + [o];
    assert more[|outputs|] == o;
    assert forall k :: 0 <= k < |outputs| ==> more[k] == outputs[k];
  }

  /** The review part is changed by accepted outputs and delivered replies only. */
  ghost predicate ReviewInStep(s: SessionState, h: History, e: Event, step: Step, c: Config)
  {
    && step.Stepped?
    && step.state.review
       == (if Strays(s, e)
           then s.review.(drift := s.review.drift + 1,
                          flagged := s.review.flagged || s.review.drift + 1 >= c.driftToReview)
           else if Remember(h, s, e, c).outputs != h.outputs then SignalsNoted(s.review, e.output, c)
           else s.review)
    && (Remember(h, s, e, c).outputs == h.outputs
        || (e.AssessmentCompleted? && Remember(h, s, e, c).outputs == h.outputs + [e.output]))
  }

  lemma StepReviews(s: SessionState, h: History, e: Event, c: Config)
    requires Invariant(s, c)
    ensures ReviewInStep(s, h, e, Transition(s, e, c), c)
  {
    hide Adjudicate;
    StepKeepsInvariant(s, e, c);
    if Terminal(s.phase) {
    } else if IsAssessorEvent(e) {
      AssessorStep(s, e, c);
    } else if AcceptedTechTurn(s, e) {
      TechTurnCarries(s, s.evidence, s.review, e.turnId, e.now, c);
    } else {
      OtherEventCarries(s, s.evidence, s.review, e, c);
    }
  }

  lemma ReviewStep(s: SessionState, h: History, strayed: nat, e: Event, step: Step, c: Config)
    requires ReviewIs(s.review, h.outputs, strayed, c) && ReviewInStep(s, h, e, step, c)
    ensures ReviewIs(step.state.review, Remember(h, s, e, c).outputs, strayed + if Strays(s, e) then 1 else 0, c)
  {
    hide Remember;
    if Remember(h, s, e, c).outputs != h.outputs {
      assert Front(h.outputs + [e.output]) == h.outputs;
      CheatsAreCounted(e.output.redFlags);
      OneMoreAsks(h.outputs, e.output);
    }
  }

  /** In every run: the cheat count is the LIKELY_CHEATING entries of everything the assessor has
      said, the drift count the replies that strayed from the move they were given; manual review
      is needed iff some output asked for it; and the session is flagged iff one of the two
      counts has reached its threshold. */
  lemma {:induction false} ReviewIsItsHistory(sessionId: nat, plan: RawPlan, es: seq<Event>, c: Config)
    ensures
      var s := InitialState(sessionId, plan, c);
      && Execute(s, es, c).Stepped?
      && ReviewIs(Execute(s, es, c).state.review, HistoryOf(s, es, c).outputs, Strayed(s, es, c), c)
    decreases |es|
  {
    if es != [] {
      hide Transition, ReviewIs, ReviewInStep, Remember;
      var s, front := InitialState(sessionId, plan, c), Front(es);
      ReviewIsItsHistory(sessionId, plan, front, c);
      ReachableInvariant(sessionId, plan, front, c);
      var before, h := Execute(s, front, c), HistoryOf(s, front, c);
      StepReviews(before.state, h, Last(es), c);
      ReviewStep(before.state, h, Strayed(s, front, c), Last(es), Transition(before.state, Last(es), c), c);
    }
    assert ReviewIs(InitialState(sessionId, plan, c).review, [], 0, c);
  }

  // ---------- degraded turns ----------

  datatype Degraded = Degraded(turn: TurnId, errorKind: string)

  function MarksOfDegraded(cs: seq<Command>): seq<Degraded>
  {
    if cs == [] then []
    else
      MarksOfDegraded(Front(cs))
      + if Last(cs).FlagTurnDegraded? then [Degraded(Last(cs).degraded, Last(cs).errorKind)] else []
  }

  /** The outstanding interviewer turn fails, and has not failed before. */
  predicate FailsFirst(s: SessionState, e: Event)
  {
    && (s.phase == Tech || s.phase == Qa) && e.InterviewerFailed?
    && s.turn.pending.Some? && s.turn.pending.value.RunInterviewer?
    && s.turn.pending.value.turnId == e.turnId && !s.turn.pending.value.retry
  }

  function FirstFailures(s: SessionState, es: seq<Event>, c: Config): seq<Degraded>
    decreases |es|
  {
    if es == [] then []
    else
      var before := Execute(s, Front(es), c);
      FirstFailures(s, Front(es), c)
      + if before.Stepped? && FailsFirst(before.state, Last(es))
        then [Degraded(Last(es).turnId, Last(es).errorKind)] else []
  }

  lemma {:induction false} MarksOfDegradedAppend(a: seq<Command>, b: seq<Command>)
    ensures MarksOfDegraded(a + b) == MarksOfDegraded(a) + MarksOfDegraded(b)
  {
    if b == [] {
      assert a + b == a;
    } else {
      assert Front(a + b) == a + Front(b);
      MarksOfDegradedAppend(a, Front(b));
    }
  }

  lemma {:induction false} NoneDegraded(cs: seq<Command>)
    requires forall k :: 0 <= k < |cs| ==> !cs[k].FlagTurnDegraded?
    ensures MarksOfDegraded(cs) == []
  {
    if cs != [] {
      NoneDegraded(Front(cs));
    }
  }

  lemma OneDegraded(a: Command, x: Command, b: Command)
    requires !a.FlagTurnDegraded? && x.FlagTurnDegraded? && !b.FlagTurnDegraded?
    ensures MarksOfDegraded([a, x, b]) == [Degraded(x.degraded, x.errorKind)]
  {
    assert [a, x, b] == [a] + [x] + [b];
    MarksOfDegradedAppend([a] + [x], [b]);
    MarksOfDegradedAppend([a], [x]);
    assert Front([x]) == [];
    NoneDegraded([a]);
    NoneDegraded([b]);
  }

  /** The step of a first failure, and of any other event. */
  lemma FailureStep(s: SessionState, e: Event, c: Config)
    requires Invariant(s, c) && FailsFirst(s, e)
    ensures
      Transition(s, e, c).Stepped?
      && Transition(s, e, c).commands
         == [Send(s.turn.pending.value.(retry := true)), FlagTurnDegraded(e.turnId, e.errorKind), PersistState]
  {
  }

  lemma OtherStepDegradesNone(s: SessionState, e: Event, c: Config)
    requires Invariant(s, c) && !FailsFirst(s, e) && Transition(s, e, c).Stepped?
    ensures forall k :: 0 <= k < |Transition(s, e, c).commands| ==> !Transition(s, e, c).commands[k].FlagTurnDegraded?
  {
    hide Adjudicate;
  }

  lemma StepDegrades(s: SessionState, e: Event, c: Config)
    requires Invariant(s, c)
    ensures Transition(s, e, c).Stepped?
    ensures MarksOfDegraded(Transition(s, e, c).commands)
         == if FailsFirst(s, e) then [Degraded(e.turnId, e.errorKind)] else []
  {
    hide Transition, Invariant;
    StepKeepsInvariant(s, e, c);
    var step := Transition(s, e, c);
    if FailsFirst(s, e) {
      FailureStep(s, e, c);
      OneDegraded(step.commands[0], step.commands[1], step.commands[2]);
    } else {
      OtherStepDegradesNone(s, e, c);
      NoneDegraded(step.commands);
    }
  }

  /** In every run the turns marked degraded are the interviewer turns that failed once, in
      order, each with the error it failed with. */
  lemma {:induction false} FailuresAreMarked(sessionId: nat, plan: RawPlan, es: seq<Event>, c: Config)
    ensures
      var s := InitialState(sessionId, plan, c);
      Execute(s, es, c).Stepped? && MarksOfDegraded(Execute(s, es, c).commands) == FirstFailures(s, es, c)
    decreases |es|
  {
    if es != [] {
      hide Transition;
      var s, front := InitialState(sessionId, plan, c), Front(es);
      FailuresAreMarked(sessionId, plan, front, c);
      ReachableInvariant(sessionId, plan, front, c);
      var before := Execute(s, front, c);
      StepDegrades(before.state, Last(es), c);
      MarksOfDegradedAppend(before.commands, Transition(before.state, Last(es), c).commands);
    }
  }

  // ---------- the failure streak ----------

  /** The last thing sent to the interviewer, or on to the candidate; re-issues and scripts aside. */
  function LastTalk(cs: seq<Command>): Option<Outbound>
  {
    if cs == [] then None
    else if Last(cs).Send? && (Last(cs).out.RunInterviewer? || Last(cs).out.DeliverUtterance?) then Some(Last(cs).out)
    else LastTalk(Front(cs))
  }

  predicate IsRetry(o: Option<Outbound>)
  {
    o.Some? && o.value.RunInterviewer? && o.value.retry
  }

  lemma {:induction false} LastTalkAppend(a: seq<Command>, b: seq<Command>)
    ensures LastTalk(a + b) == if LastTalk(b).Some? then LastTalk(b) else LastTalk(a)
  {
    if b == [] {
      assert a + b == a;
    } else {
      assert Front(a + b) == a + Front(b);
      LastTalkAppend(a, Front(b));
    }
  }

  predicate Talks(cs: seq<Command>, k: nat)
  {
    k < |cs| && cs[k].Send? && (cs[k].out.RunInterviewer? || cs[k].out.DeliverUtterance?)
  }

  /** The talk of at most four commands. */
  lemma ShortTalk(cs: seq<Command>)
    requires |cs| <= 4
    ensures
      LastTalk(cs) == if Talks(cs, 3) then Some(cs[3].out) else if Talks(cs, 2) then Some(cs[2].out)
                      else if Talks(cs, 1) then Some(cs[1].out) else if Talks(cs, 0) then Some(cs[0].out) else None
  {
    if |cs| > 1 {
      ShortTalk(Front(cs));
    }
  }

  ghost predicate StreakInTalk(s: SessionState, step: Step)
  {
    && step.Stepped? && |step.commands| <= 4
    && var talk := LastTalk(step.commands);
       step.state.turn.failureStreak
       == if talk.Some? then (if IsRetry(talk) then 1 else 0) else s.turn.failureStreak
  }

  lemma CandidateTurnTalks(s: SessionState, e: Event, c: Config)
    requires Invariant(s, c) && e.CandidateTurnReceived? && s.phase != Created && !Terminal(s.phase)
    ensures StreakInTalk(s, OnCandidateTurn(s, e.turnId, e.now, c))
  {
    hide Adjudicate, LastTalk;
    CandidateTurnKeeps(s, e.turnId, e.now, c);
    ShortTalk(OnCandidateTurn(s, e.turnId, e.now, c).commands);
  }

  lemma OtherEventTalks(s: SessionState, e: Event, c: Config)
    requires Invariant(s, c) && !e.CandidateTurnReceived?
    ensures StreakInTalk(s, Transition(s, e, c))
  {
    hide OnCandidateTurn, LastTalk;
    var step := Transition(s, e, c);
    assert step.Stepped? && |step.commands| <= 4;
    ShortTalk(step.commands);
  }

  lemma StepTalks(s: SessionState, e: Event, c: Config)
    requires Invariant(s, c)
    ensures StreakInTalk(s, Transition(s, e, c))
  {
    hide OnCandidateTurn, LastTalk;
    if !e.CandidateTurnReceived? {
      OtherEventTalks(s, e, c);
    } else if s.phase != Created && !Terminal(s.phase) {
      CandidateTurnTalks(s, e, c);
    } else {
      ShortTalk([]);
    }
  }

  /** In every run the failure streak is 1 exactly when the last thing sent to the interviewer or on
      to the candidate was a retry, and 0 otherwise. */
  lemma {:induction false} StreakIsTheLastTalk(sessionId: nat, plan: RawPlan, es: seq<Event>, c: Config)
    ensures
      var run := Execute(InitialState(sessionId, plan, c), es, c);
      run.Stepped? && run.state.turn.failureStreak == if IsRetry(LastTalk(run.commands)) then 1 else 0
    decreases |es|
  {
    if es != [] {
      hide Transition, LastTalk;
      var s, front := InitialState(sessionId, plan, c), Front(es);
      StreakIsTheLastTalk(sessionId, plan, front, c);
      ReachableInvariant(sessionId, plan, front, c);
      var before := Execute(s, front, c);
      StepTalks(before.state, Last(es), c);
      LastTalkAppend(before.commands, Transition(before.state, Last(es), c).commands);
    }
  }

  // ---------- persistence ----------

  /** The steps that say something and do not ask to be persisted: a plan that is refused, a
      session that is completed, and a move in Q&A that no answer in TECH has led to. */
  predicate GoesUnpersisted(s: SessionState, e: Event, t: SessionState)
  {
    || (s.phase == Created && t.phase == Aborted && e.SessionStarted?)
    || t.phase == Completed
    || (t.phase == Qa && (e.TimerTick? || (s.phase == Qa && e.CandidateTurnReceived?)))
  }

  ghost predicate PersistsInStep(s: SessionState, e: Event, step: Step)
  {
    && step.Stepped?
    && var cs := step.commands;
       && (cs == [] ==> step.state == s && (Terminal(s.phase) || !e.Reconnected?))
       && (forall k :: 0 <= k < |cs| - 1 ==> cs[k] != PersistState)
       && (cs != [] ==> (Last(cs) == PersistState <==> !GoesUnpersisted(s, e, step.state)))
  }

  lemma TechTurnPersists(s: SessionState, e: Event, c: Config)
    requires Invariant(s, c) && AcceptedTechTurn(s, e)
    ensures PersistsInStep(s, e, OnTechTurn(s, e.turnId, e.now, c))
  {
    hide Adjudicate, GapMarked, FocusMatchesPending;
    ReactionKeeps(s, e.now, c);
  }

  lemma CandidateTurnPersists(s: SessionState, e: Event, c: Config)
    requires Invariant(s, c) && e.CandidateTurnReceived? && s.phase != Created && !Terminal(s.phase)
    ensures PersistsInStep(s, e, OnCandidateTurn(s, e.turnId, e.now, c))
  {
    hide OnTechTurn, FocusMatchesPending;
    CandidateTurnKeeps(s, e.turnId, e.now, c);
    if AcceptedTechTurn(s, e) {
      TechTurnPersists(s, e, c);
    }
  }

  lemma ResultPersists(s: SessionState, e: Event, c: Config)
    requires Invariant(s, c) && IsAssessorEvent(e)
    ensures PersistsInStep(s, e, Transition(s, e, c))
  {
    hide CoverageAfter, FocusMatchesPending, SignalsNoted;
  }

  lemma OtherEventPersists(s: SessionState, e: Event, c: Config)
    requires Invariant(s, c) && !e.CandidateTurnReceived?
    ensures PersistsInStep(s, e, Transition(s, e, c))
  {
    hide OnCandidateTurn, OnAssessmentCompleted, OnAssessmentFailed, FocusMatchesPending, DriftNoted;
    if IsAssessorEvent(e) {
      ResultPersists(s, e, c);
    }
  }

  /** From every reachable state a step asks to be persisted, last and once, exactly when it says
      anything at all and is none of those three; a step that says nothing changes nothing, and a
      resume of a session that has not ended always says something. */
  lemma StepsPersist(s: SessionState, e: Event, c: Config)
    requires Invariant(s, c)
    ensures PersistsInStep(s, e, Transition(s, e, c))
  {
    hide OnCandidateTurn, PersistsInStep;
    if !e.CandidateTurnReceived? {
      OtherEventPersists(s, e, c);
    } else if s.phase != Created && !Terminal(s.phase) {
      CandidateTurnPersists(s, e, c);
    } else {
      IgnoredPersists(s, e, c);
    }
  }

  lemma IgnoredPersists(s: SessionState, e: Event, c: Config)
    requires Invariant(s, c) && e.CandidateTurnReceived? && (s.phase == Created || Terminal(s.phase))
    ensures PersistsInStep(s, e, Transition(s, e, c))
  {
  }
}
