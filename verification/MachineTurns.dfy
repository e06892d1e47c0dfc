/** The outbound command stream of a run: its grammar, what a resume re-issues,
    and how a run ends. */
module MachineTurns {
  import opened Common
  import opened InterviewPlan
  import opened StateMachine
  import opened MachineInvariant

  /** The outbound commands of a stream, reissues left aside. */
  function Sends(cs: seq<Command>): seq<Outbound>
  {
    if cs == [] then []
    else Sends(Front(cs)) + (if Last(cs).Send? then [Last(cs).out] else [])
  }

  lemma {:induction false} SendsAppend(a: seq<Command>, b: seq<Command>)
    ensures Sends(a + b) == Sends(a) + Sends(b)
  {
    if b == [] {
      assert a + b == a;
    } else {
      assert Front(a + b) == a + Front(b);
      SendsAppend(a, Front(b));
    }
  }

  lemma {:induction false} SendsNone(cs: seq<Command>)
    requires forall k :: 0 <= k < |cs| ==> !cs[k].Send?
    ensures Sends(cs) == []
  {
    if cs != [] {
      SendsNone(Front(cs));
    }
  }

  lemma {:induction false} SendsOne(cs: seq<Command>, at: nat)
    requires at < |cs| && cs[at].Send?
    requires forall k :: 0 <= k < |cs| && k != at ==> !cs[k].Send?
    ensures Sends(cs) == [cs[at].out]
  {
    if at == |cs| - 1 {
      SendsNone(Front(cs));
    } else {
      SendsOne(Front(cs), at);
    }
  }

  // ---------- the grammar of the outbound stream ----------

  predicate OpensTurn(o: Outbound)
  {
    o.EmitScriptedOpening? || o.EmitScriptedClosing? || (o.RunInterviewer? && !o.retry)
  }

  /** `b` may come right after `a`: the retry of a move, the delivery of its reply,
      or the first command of the next turn number. */
  predicate Follows(a: Outbound, b: Outbound)
  {
    || (a.RunInterviewer? && !a.retry && b == a.(retry := true))
    || (a.RunInterviewer? && b.DeliverUtterance? && b.turnId == a.turnId)
    || (OpensTurn(b) && a.turnId.MachineTurn? && b.turnId == a.turnId.(number := a.turnId.number + 1))
  }

  ghost predicate Chain(log: seq<Outbound>, sessionId: nat)
  {
    && (log != [] ==> log[0] == EmitScriptedOpening(MachineTurn(sessionId, 0)))
    && (forall k :: 0 <= k < |log| ==> log[k].turnId.MachineTurn?)
    && (forall k :: 0 < k < |log| ==> Follows(log[k - 1], log[k]))
  }

  /** Where the log stands relative to the state. */
  ghost predicate InStep(s: SessionState, log: seq<Outbound>)
  {
    && Chain(log, s.info.id)
    && (s.turn.pending.Some? ==> log != [] && Last(log) == s.turn.pending.value)
    && (s.phase == Created ==> log == [])
  }

  /** The only places a transition puts an outbound command. */
  function SendPosition(cs: seq<Command>): int
  {
    if |cs| > 0 && cs[0].Send? then 0 else if |cs| > 1 && cs[1].Send? then 1 else -1
  }

  /** A step emits at most one outbound command; it becomes the outstanding one, and it
      follows the one outstanding before. */
  ghost predicate SendsInStep(s: SessionState, step: Step)
  {
    && step.Stepped?
    && step.state.info.id == s.info.id
    && var cs, p := step.commands, SendPosition(step.commands);
       && |cs| <= 4
       && (|cs| > 1 && cs[1].Send? ==> p == 1)
       && (|cs| > 2 ==> !cs[2].Send?) && (|cs| > 3 ==> !cs[3].Send?)
       && (p == -1 ==> step.state.turn.pending == s.turn.pending || step.state.turn.pending.None?)
       && (p != -1 ==>
             && step.state.turn.pending == Some(cs[p].out)
             && (s.phase == Created ==> cs[p].out == EmitScriptedOpening(MachineTurn(s.info.id, 0)))
             && (s.phase != Created ==> s.turn.pending.Some? && Follows(s.turn.pending.value, cs[p].out)))
       && (step.state.phase == Created ==> s.phase == Created && p == -1)
  }

  lemma TechTurnSends(s: SessionState, turn: TurnId, now: Time, c: Config)
    requires Invariant(s, c) && s.phase == Tech
    ensures SendsInStep(s, OnTechTurn(s, turn, now, c))
  {
    TechTurnKeeps(s, turn, now, c);
  }

  lemma CandidateTurnSends(s: SessionState, turn: TurnId, now: Time, c: Config)
    requires Invariant(s, c) && s.phase != Created && !Terminal(s.phase)
    ensures SendsInStep(s, OnCandidateTurn(s, turn, now, c))
  {
    CandidateTurnKeeps(s, turn, now, c);
    if s.phase == Tech {
      TechTurnSends(s, turn, now, c);
    }
  }

  lemma TickSends(s: SessionState, now: Time, c: Config)
    requires Invariant(s, c) && !Terminal(s.phase)
    ensures SendsInStep(s, OnTimerTick(s, now, c))
  {
  }

  lemma AgentEventSends(s: SessionState, e: Event, c: Config)
    requires Invariant(s, c) && !Terminal(s.phase)
    requires e.InterviewerReplyReady? || e.InterviewerFailed?
    ensures SendsInStep(s, Transition(s, e, c))
  {
  }

  lemma StepSends(s: SessionState, e: Event, c: Config)
    requires Invariant(s, c)
    ensures SendsInStep(s, Transition(s, e, c))
  {
    if !Terminal(s.phase) {
      match e
      case CandidateTurnReceived(turn, _, now) =>
        if s.phase != Created {
          CandidateTurnSends(s, turn, now, c);
        }
      case TimerTick(now) => TickSends(s, now, c);
      case InterviewerReplyReady(_, _, _) => AgentEventSends(s, e, c);
      case InterviewerFailed(_, _, _) => AgentEventSends(s, e, c);
      case _ =>
    }
  }

  lemma ChainExtends(log: seq<Outbound>, o: Outbound, sessionId: nat)
    requires Chain(log, sessionId)
    requires if log == [] then o == EmitScriptedOpening(MachineTurn(sessionId, 0)) else Follows(Last(log), o)
    ensures Chain(log + [o], sessionId)
  {
    var more := log + [o];
    forall k | 0 < k < |more|
      ensures Follows(more[k - 1], more[k])
    {
    }
  }

  lemma LogExtends(s: SessionState, log: seq<Outbound>, step: Step)
    requires InStep(s, log) && SendsInStep(s, step)
    ensures InStep(step.state, log + Sends(step.commands))
  {
    var p := SendPosition(step.commands);
    if p == -1 {
      SendsNone(step.commands);
      assert log + [] == log;
    } else {
      SendsOne(step.commands, p);
      ChainExtends(log, step.commands[p].out, s.info.id);
    }
  }

  /** In every run the outbound stream is a chain: opening first, consecutive turn
      numbers with no gap, and within a number nothing but a move, at most one
      retry of it and at most one delivery. */
  lemma {:induction false} OutboundStreamIsChain(sessionId: nat, plan: RawPlan, es: seq<Event>, c: Config)
    ensures
      var run := Execute(InitialState(sessionId, plan, c), es, c);
      run.Stepped? && InStep(run.state, Sends(run.commands)) && run.state.info.id == sessionId
    decreases |es|
  {
    if es != [] {
      OutboundStreamIsChain(sessionId, plan, Front(es), c);
      ReachableInvariant(sessionId, plan, Front(es), c);
      var before := Execute(InitialState(sessionId, plan, c), Front(es), c);
      var step := Transition(before.state, Last(es), c);
      StepSends(before.state, Last(es), c);
      LogExtends(before.state, Sends(before.commands), step);
      SendsAppend(before.commands, step.commands);
    }
  }

  lemma {:induction false} ChainNumbersGrow(log: seq<Outbound>, sessionId: nat, i: nat, j: nat)
    requires Chain(log, sessionId) && i <= j < |log|
    ensures log[i].turnId.number <= log[j].turnId.number
    decreases j - i
  {
    if i < j {
      ChainNumbersGrow(log, sessionId, i, j - 1);
      assert Follows(log[j - 1], log[j]);
    }
  }

  /** Two outbound commands of one turn: the earlier is the move, and the later is
      its retry or the delivery of its reply. */
  predicate SameTurnPair(a: Outbound, b: Outbound)
  {
    a.RunInterviewer? && (b.DeliverUtterance? || (!a.retry && b == a.(retry := true)))
  }

  lemma SameTurnPairs(log: seq<Outbound>, sessionId: nat, i: nat, j: nat)
    requires Chain(log, sessionId) && i < j < |log|
    requires log[i].turnId == log[j].turnId
    ensures SameTurnPair(log[i], log[j])
  {
    ChainNumbersGrow(log, sessionId, i, i + 1);
    ChainNumbersGrow(log, sessionId, i + 1, j);
    assert Follows(log[i], log[i + 1]);
    if i + 1 < j {
      ChainNumbersGrow(log, sessionId, i + 1, i + 2);
      ChainNumbersGrow(log, sessionId, i + 2, j);
      assert Follows(log[i + 1], log[i + 2]);
      if i + 2 < j {
        ChainNumbersGrow(log, sessionId, i + 2, i + 3);
        ChainNumbersGrow(log, sessionId, i + 3, j);
        assert !Follows(log[i + 2], log[i + 3]);
      }
    }
  }

  /** Per turn id, in every run: at most one delivery, and at most two interviewer
      calls, which agree on everything but the retry flag. */
  lemma TurnsAreDeliveredOnce(sessionId: nat, plan: RawPlan, es: seq<Event>, c: Config)
    ensures Execute(InitialState(sessionId, plan, c), es, c).Stepped?
    ensures
      var log := Sends(Execute(InitialState(sessionId, plan, c), es, c).commands);
      && (forall i, j :: 0 <= i < j < |log| && log[i].turnId == log[j].turnId ==> SameTurnPair(log[i], log[j]))
      && (forall i, j :: 0 <= i < j < |log| && log[i].DeliverUtterance? && log[j].DeliverUtterance?
                         ==> log[i].turnId != log[j].turnId)
      && (forall i, j, k :: 0 <= i < j < k < |log|
                            && log[i].RunInterviewer? && log[j].RunInterviewer? && log[k].RunInterviewer?
                            ==> !(log[i].turnId == log[j].turnId == log[k].turnId))
  {
    OutboundStreamIsChain(sessionId, plan, es, c);
    var log := Sends(Execute(InitialState(sessionId, plan, c), es, c).commands);
    forall i, j | 0 <= i < j < |log| && log[i].turnId == log[j].turnId
      ensures SameTurnPair(log[i], log[j])
    {
      SameTurnPairs(log, sessionId, i, j);
    }
  }

  /** A reply or failure for a turn that is not outstanding changes nothing. */
  lemma SupersededRepliesAreNoOps(s: SessionState, e: Event, c: Config)
    requires Invariant(s, c)
    requires e.InterviewerReplyReady? || e.InterviewerFailed?
    requires s.turn.pending.None? || e.turnId != MachineTurn(s.info.id, s.turn.number - 1)
    ensures Transition(s, e, c) == Stepped(s, [])
  {
  }

  // ---------- resume ----------

  /** Every reissue in `cs` repeats, verbatim, the outbound command sent last before it. */
  ghost predicate ReissuesAreVerbatim(cs: seq<Command>)
  {
    forall k :: 0 <= k < |cs| && cs[k].Reissue? ==>
      Sends(cs[..k]) != [] && cs[k].pending == Last(Sends(cs[..k]))
  }

  /** A transition reissues at most once, first, and what it reissues is outstanding. */
  ghost predicate ReissuesInStep(s: SessionState, step: Step)
  {
    && step.Stepped?
    && |step.commands| <= 4
    && (|step.commands| > 0 && step.commands[0].Reissue? ==> s.turn.pending == Some(step.commands[0].pending))
    && (|step.commands| > 1 ==> !step.commands[1].Reissue?)
    && (|step.commands| > 2 ==> !step.commands[2].Reissue?)
    && (|step.commands| > 3 ==> !step.commands[3].Reissue?)
  }

  lemma CandidateTurnReissues(s: SessionState, e: Event, c: Config)
    requires Invariant(s, c) && e.CandidateTurnReceived?
    ensures ReissuesInStep(s, Transition(s, e, c))
  {
    CandidateTurnKeeps(s, e.turnId, e.now, c);
  }

  lemma StepReissues(s: SessionState, e: Event, c: Config)
    requires Invariant(s, c)
    ensures ReissuesInStep(s, Transition(s, e, c))
  {
    if e.CandidateTurnReceived? {
      CandidateTurnReissues(s, e, c);
    }
  }

  lemma ReissuesExtend(outstanding: Option<Outbound>, before: seq<Command>, more: seq<Command>)
    requires ReissuesAreVerbatim(before)
    requires outstanding.Some? ==> Sends(before) != [] && Last(Sends(before)) == outstanding.value
    requires forall k :: 0 <= k < |more| && more[k].Reissue? ==> k == 0 && outstanding == Some(more[k].pending)
    ensures ReissuesAreVerbatim(before + more)
  {
    var all := before + more;
    forall k | 0 <= k < |all| && all[k].Reissue?
      ensures Sends(all[..k]) != [] && all[k].pending == Last(Sends(all[..k]))
    {
      if k < |before| {
        assert all[..k] == before[..k];
      } else {
        assert more[k - |before|].Reissue?;
        assert all[..k] == before;
      }
    }
  }

  lemma ReissueStep(before: Step, e: Event, c: Config)
    requires before.Stepped? && Invariant(before.state, c)
    requires ReissuesAreVerbatim(before.commands)
    requires before.state.turn.pending.Some? ==>
               Sends(before.commands) != [] && Last(Sends(before.commands)) == before.state.turn.pending.value
    ensures Then(before, e, c).Stepped? && ReissuesAreVerbatim(Then(before, e, c).commands)
  {
    hide Transition, Invariant;
    StepReissues(before.state, e, c);
    ReissuesExtend(before.state.turn.pending, before.commands, Transition(before.state, e, c).commands);
  }

  /** In every run, what a resume re-issues is the last outbound command, verbatim. */
  lemma {:induction false} EveryReissueIsVerbatim(sessionId: nat, plan: RawPlan, es: seq<Event>, c: Config)
    ensures
      var run := Execute(InitialState(sessionId, plan, c), es, c);
      run.Stepped? && ReissuesAreVerbatim(run.commands)
    decreases |es|
  {
    if es != [] {
      EveryReissueIsVerbatim(sessionId, plan, Front(es), c);
      OutboundStreamIsChain(sessionId, plan, Front(es), c);
      ReachableInvariant(sessionId, plan, Front(es), c);
      ReissueStep(Execute(InitialState(sessionId, plan, c), Front(es), c), Last(es), c);
    }
  }

  // ---------- how a run ends ----------

  predicate IsDecision(x: Command) { x.RecordDecision? }

  predicate IsEnd(x: Command) { x.EndSession? }

  function Bit(b: bool): nat { if b then 1 else 0 }

  /** The decisions and endings a step emits, against the phase it lands in. */
  ghost predicate EndsInStep(s: SessionState, step: Step)
  {
    && step.Stepped?
    && |step.commands| <= 4
    && Bit(Terminal(s.phase)) + Tally(step.commands, IsDecision) == Bit(Terminal(step.state.phase))
    && Bit(s.phase == Completed) + Tally(step.commands, IsEnd) == Bit(step.state.phase == Completed)
  }

  function Tally(cs: seq<Command>, p: Command -> bool): nat
    requires |cs| <= 4
  {
    Bit(|cs| > 0 && p(cs[0])) + Bit(|cs| > 1 && p(cs[1])) + Bit(|cs| > 2 && p(cs[2])) + Bit(|cs| > 3 && p(cs[3]))
  }

  lemma CandidateTurnEnds(s: SessionState, turn: TurnId, now: Time, c: Config)
    requires Invariant(s, c) && s.phase != Created && !Terminal(s.phase)
    ensures EndsInStep(s, OnCandidateTurn(s, turn, now, c))
  {
    hide ReactionTo, GapMarked, QaBudgetExhausted, FocusMatchesPending;
    CandidateTurnKeeps(s, turn, now, c);
  }

  lemma TickEnds(s: SessionState, now: Time, c: Config)
    requires Invariant(s, c) && !Terminal(s.phase)
    ensures EndsInStep(s, OnTimerTick(s, now, c))
  {
  }

  lemma AgentEventEnds(s: SessionState, e: Event, c: Config)
    requires Invariant(s, c) && !Terminal(s.phase)
    requires e.InterviewerReplyReady? || e.InterviewerFailed?
    ensures EndsInStep(s, Transition(s, e, c))
  {
  }

  lemma StepEnds(s: SessionState, e: Event, c: Config)
    requires Invariant(s, c)
    ensures EndsInStep(s, Transition(s, e, c))
  {
    if !Terminal(s.phase) {
      match e
      case CandidateTurnReceived(turn, _, now) =>
        if s.phase != Created {
          CandidateTurnEnds(s, turn, now, c);
        }
      case TimerTick(now) => TickEnds(s, now, c);
      case InterviewerReplyReady(_, _, _) => AgentEventEnds(s, e, c);
      case InterviewerFailed(_, _, _) => AgentEventEnds(s, e, c);
      case _ =>
    }
  }

  /** A run records exactly one decision if it has ended and none before; it ends the
      session exactly when it completes; it has an abort reason exactly when aborted. */
  lemma {:induction false} EndingsAreRecordedOnce(sessionId: nat, plan: RawPlan, es: seq<Event>, c: Config)
    ensures Execute(InitialState(sessionId, plan, c), es, c).Stepped?
    ensures
      var run := Execute(InitialState(sessionId, plan, c), es, c);
      && Count(run.commands, IsDecision) == Bit(Terminal(run.state.phase))
      && Count(run.commands, IsEnd) == Bit(run.state.phase == Completed)
      && (run.state.abortReason.Some? <==> run.state.phase == Aborted)
    decreases |es|
  {
    ReachableInvariant(sessionId, plan, es, c);
    if es != [] {
      EndingsAreRecordedOnce(sessionId, plan, Front(es), c);
      ReachableInvariant(sessionId, plan, Front(es), c);
      var before := Execute(InitialState(sessionId, plan, c), Front(es), c);
      var step := Transition(before.state, Last(es), c);
      StepEnds(before.state, Last(es), c);
      CountAppend(before.commands, step.commands, IsDecision);
      CountAppend(before.commands, step.commands, IsEnd);
      CountShort(step.commands, IsDecision);
      CountShort(step.commands, IsEnd);
    }
  }
}
