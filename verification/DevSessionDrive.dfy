/** What one drive of the shell does: it settles within three events, never with more than
    one queued, and leaves the session waiting for the candidate or ended. */
module DevSessionDrive {
  import opened Common
  import opened RequestPayload
  import opened StateMachine
  import opened MachineInvariant
  import opened MachineBounds
  import opened ModelCall
  import opened ModelCallProperties
  import opened DevSession

  // ---------- quiescence ----------

  /** Nothing is owed to the machine: no agent call or closing script is in flight. */
  predicate AtRest(s: SessionState)
  {
    match s.phase
    case Tech => s.turn.awaiting == Some(Candidate)
    case Qa => s.turn.awaiting == Some(Candidate)
    case Close => false
    case _ => true
  }

  /** The machine turn most recently handed out. */
  function PendingTurn(s: SessionState): TurnId
    requires 1 <= s.turn.number
  {
    MachineTurn(s.info.id, s.turn.number - 1)
  }

  /** The events that bring a state that is not at rest closer to rest. */
  predicate Answers(s: SessionState, e: Event)
  {
    if s.phase == Close then e.TimerTick?
    else
      || ((e.InterviewerReplyReady? || e.InterviewerFailed?) && AnswersPending(s, e.turnId))
      || e.OperatorAbort?
  }

  predicate SoundReply(e: Event)
  {
    e.InterviewerReplyReady? ==> 1 <= |e.reply.utterance| <= 1200
  }

  /** How many more events a drive may need. */
  function Distance(s: SessionState): nat
  {
    if AtRest(s) then 0
    else if s.phase == Close || s.turn.failureStreak >= 1 then 1
    else 2
  }

  // ---------- command lists ----------

  /** Commands that only mark or log. */
  predicate Inert(x: Command)
  {
    x.PersistState? || x.EndSession? || x.RecordGap? || x.FlagTurnDegraded?
  }

  predicate AllInert(cs: seq<Command>)
  {
    forall k :: 0 <= k < |cs| ==> Inert(cs[k])
  }

  /** `x` is the one command of the list that does anything. */
  predicate Does(cs: seq<Command>, x: Command)
  {
    || (|cs| > 0 && cs[0] == x && AllInert(cs[1..]))
    || (|cs| > 1 && Inert(cs[0]) && cs[1] == x && AllInert(cs[2..]))
  }

  /** An assessor call, then `x`, then nothing. */
  predicate AssessesThen(cs: seq<Command>, turn: TurnId, x: Command)
  {
    |cs| > 1 && cs[0].RunAssessor? && cs[0].turnId == turn && cs[1] == x && AllInert(cs[2..])
  }

  lemma {:induction false} InertDoesNothing(sh: Shell, w: World, cs: seq<Command>)
    requires AllInert(cs)
    ensures ExecuteAll(sh, w, cs) == Effect(w, [], false)
    decreases |cs|
  {
    if cs != [] {
      assert Inert(cs[0]);
      InertDoesNothing(sh, w, cs[1..]);
      var none: seq<Event> := [];
      assert ExecuteOne(sh, w, cs[0]) == Effect(w, none, false);
      assert none + none == none;
    }
  }

  lemma ThenInert(sh: Shell, w: World, cs: seq<Command>)
    requires cs != [] && AllInert(cs[1..])
    requires ExecuteOne(sh, w, cs[0]).escaped ==> ExecuteOne(sh, w, cs[0]).events == []
    ensures ExecuteAll(sh, w, cs) == ExecuteOne(sh, w, cs[0])
  {
    var first := ExecuteOne(sh, w, cs[0]);
    InertDoesNothing(sh, first.world, cs[1..]);
    assert first.events + [] == first.events;
  }

  /** A first command that says nothing and cannot fail. */
  lemma SilentFirst(sh: Shell, w: World, cs: seq<Command>)
    requires cs != [] && (Inert(cs[0]) || cs[0].RunAssessor?)
    ensures ExecuteAll(sh, w, cs) == ExecuteAll(sh, ExecuteOne(sh, w, cs[0]).world, cs[1..])
    ensures Inert(cs[0]) ==> ExecuteOne(sh, w, cs[0]).world == w
  {
    var rest := ExecuteAll(sh, ExecuteOne(sh, w, cs[0]).world, cs[1..]);
    EscapedSaysNothing(sh, ExecuteOne(sh, w, cs[0]).world, cs[1..]);
    assert [] + rest.events == rest.events;
  }

  lemma EscapedSaysNothing(sh: Shell, w: World, cs: seq<Command>)
    ensures ExecuteAll(sh, w, cs).escaped ==> ExecuteAll(sh, w, cs).events == []
  {
  }

  lemma CommandEscapesSilently(sh: Shell, w: World, x: Command)
    ensures ExecuteOne(sh, w, x).escaped ==> ExecuteOne(sh, w, x).events == []
  {
  }

  lemma OneCommand(sh: Shell, w: World, cs: seq<Command>, x: Command)
    requires Does(cs, x)
    ensures ExecuteAll(sh, w, cs) == ExecuteOne(sh, w, x)
  {
    CommandEscapesSilently(sh, w, x);
    if cs[0] == x && AllInert(cs[1..]) {
      ThenInert(sh, w, cs);
    } else {
      assert cs[1..][0] == x && cs[1..][1..] == cs[2..];
      SilentFirst(sh, w, cs);
      ThenInert(sh, w, cs[1..]);
    }
  }

  lemma TwoCommands(sh: Shell, w: World, cs: seq<Command>, turn: TurnId, x: Command)
    requires AssessesThen(cs, turn, x)
    ensures ExecuteAll(sh, w, cs) == ExecuteOne(sh, ExecuteOne(sh, w, cs[0]).world, x)
  {
    var mid := ExecuteOne(sh, w, cs[0]).world;
    assert cs[1..][0] == x && cs[1..][1..] == cs[2..];
    CommandEscapesSilently(sh, mid, x);
    SilentFirst(sh, w, cs);
    ThenInert(sh, mid, cs[1..]);
  }

  // ---------- one transition ----------

  /** The state a transition out of `s` leaves is at rest with nothing to wait for, or
      exactly one command, the outstanding one, will be answered by an event. */
  ghost predicate Settling(s: SessionState, e: Event, step: Step, bound: nat, c: Config)
    requires PhaseInvariant(s, c)
  {
    && Keeps(step, c)
    && step.state.info == s.info
    && TurnsLeft(step.state, c) <= TurnsLeft(s, c)
    && var t, cs := step.state, step.commands;
       && Distance(t) <= bound
       && (Terminal(s.phase) ==> AllInert(cs) && t == s)
       && (Terminal(t.phase) && !Terminal(s.phase) ==> exists r :: Does(cs, RecordDecision(r)))
       && (!AtRest(t) ==> Wakes(s, e, t, cs, c))
       && (AtRest(t) && !Terminal(t.phase) ==> AllInert(cs) || Speaks(s, e, t, cs))
  }

  /** The step puts one agent call or the closing on the wire. */
  ghost predicate Wakes(s: SessionState, e: Event, t: SessionState, cs: seq<Command>, c: Config)
    requires PhaseInvariant(s, c) && PhaseInvariant(t, c)
  {
    && t.turn.pending.Some?
    && (t.turn.pending.value.RunInterviewer? || t.turn.pending.value.EmitScriptedClosing?)
    && (t.turn.pending.value.EmitScriptedClosing? <==> t.phase == Close)
    && t.turn.number == (if AtRest(s) then s.turn.number + 1 else s.turn.number)
    && t.turn.pending.value.turnId == MachineTurn(s.info.id, t.turn.number - 1)
    && (|| Does(cs, Send(t.turn.pending.value))
        || (&& e.CandidateTurnReceived? && AtRest(s)
            && AssessesThen(cs, e.turnId, Send(t.turn.pending.value))
            && TurnsLeft(t, c) < TurnsLeft(s, c)))
  }

  /** The step says something to the candidate, or says it again. */
  ghost predicate Speaks(s: SessionState, e: Event, t: SessionState, cs: seq<Command>)
  {
    && t.turn.pending.Some?
    && (t.turn.pending.value.DeliverUtterance? || t.turn.pending.value.EmitScriptedOpening?)
    && (Does(cs, Send(t.turn.pending.value)) || Does(cs, Reissue(t.turn.pending.value)))
  }

  lemma TechTurnSettles(s: SessionState, e: Event, c: Config)
    requires Invariant(s, c) && s.phase == Tech && AtRest(s) && e.CandidateTurnReceived?
    ensures Settling(s, e, OnTechTurn(s, e.turnId, e.now, c), 2, c)
  {
    hide ReactionTo, GapMarked, FocusMatchesPending;
    TechTurnKeeps(s, e.turnId, e.now, c);
    ReactionSpends(s, e.now, c);
  }

  lemma CandidateTurnSettles(s: SessionState, e: Event, c: Config)
    requires Invariant(s, c) && AtRest(s) && e.CandidateTurnReceived?
    requires s.phase != Created && !Terminal(s.phase)
    ensures Settling(s, e, OnCandidateTurn(s, e.turnId, e.now, c), 2, c)
  {
    if s.phase == Tech {
      TechTurnSettles(s, e, c);
    } else {
      CandidateTurnSpends(s, e.turnId, e.now, c);
    }
  }

  lemma TickSettles(s: SessionState, e: Event, c: Config)
    requires Invariant(s, c) && AtRest(s) && !Terminal(s.phase) && e.TimerTick?
    requires SpendsInStep(s, OnTimerTick(s, e.now, c), c)
    ensures Settling(s, e, OnTimerTick(s, e.now, c), 2, c)
  {
  }

  lemma ScriptedEventSettles(s: SessionState, e: Event, c: Config)
    requires Invariant(s, c) && AtRest(s)
    requires e.SessionStarted? || e.Reconnected? || e.OperatorAbort?
    ensures Settling(s, e, Transition(s, e, c), 2, c)
  {
    hide OnCandidateTurn, OnAssessmentCompleted, OnAssessmentFailed;
    hide OnTimerTick, OnInterviewerReply, OnInterviewerFailed;
    StepSpends(s, e, c);
  }

  lemma AssessmentSettles(s: SessionState, e: Event, c: Config)
    requires Invariant(s, c) && AtRest(s)
    requires e.AssessmentCompleted? || e.AssessmentFailed?
    ensures Settling(s, e, Transition(s, e, c), 2, c)
  {
    StepSpends(s, e, c);
  }

  lemma ReplySettles(s: SessionState, e: Event, c: Config)
    requires Invariant(s, c) && AtRest(s)
    requires e.InterviewerReplyReady? || e.InterviewerFailed?
    ensures Settling(s, e, Transition(s, e, c), 2, c)
  {
    StepSpends(s, e, c);
  }

  /** From rest, whatever happens. */
  lemma AnyEventSettles(s: SessionState, e: Event, c: Config)
    requires Invariant(s, c) && AtRest(s)
    ensures Settling(s, e, Transition(s, e, c), 2, c)
  {
    StepSpends(s, e, c);
    if !Terminal(s.phase) {
      match e
      case CandidateTurnReceived(_, _, _) =>
        if s.phase != Created {
          CandidateTurnSettles(s, e, c);
        }
      case TimerTick(_) => TickSettles(s, e, c);
      case SessionStarted(_) => ScriptedEventSettles(s, e, c);
      case Reconnected(_) => ScriptedEventSettles(s, e, c);
      case OperatorAbort(_, _) => ScriptedEventSettles(s, e, c);
      case AssessmentCompleted(_, _, _) => AssessmentSettles(s, e, c);
      case AssessmentFailed(_, _, _) => AssessmentSettles(s, e, c);
      case _ => ReplySettles(s, e, c);
    }
  }

  /** The turn is answered, retried or given up. */
  ghost predicate Replies(s: SessionState, e: Event, t: SessionState, cs: seq<Command>)
  {
    && 1 <= s.turn.number == t.turn.number && t.phase != Created
    && (AtRest(t) && !Terminal(t.phase) ==>
          e.InterviewerReplyReady? && Does(cs, Send(DeliverUtterance(PendingTurn(s), e.reply.utterance))))
    && (!AtRest(t) ==> t.phase != Close && e.InterviewerFailed? && SameRequest(s, t))
    && (s.phase == Close ==> Terminal(t.phase))
  }

  /** A retry asks for the same move over the same plan. */
  predicate SameRequest(s: SessionState, t: SessionState)
  {
    && t.plan == s.plan && s.turn.pending.Some? && t.turn.pending.Some?
    && s.turn.pending.value.RunInterviewer? && t.turn.pending.value == s.turn.pending.value.(retry := true)
  }

  lemma ClosingSettles(s: SessionState, e: Event, c: Config)
    requires Invariant(s, c) && s.phase == Close && Answers(s, e)
    ensures Settling(s, e, OnTimerTick(s, e.now, c), 0, c)
    ensures Replies(s, e, OnTimerTick(s, e.now, c).state, OnTimerTick(s, e.now, c).commands)
  {
  }

  lemma ReplyDelivers(s: SessionState, e: Event, c: Config)
    requires Invariant(s, c) && !AtRest(s) && s.phase != Close && e.InterviewerReplyReady? && Answers(s, e)
    ensures Settling(s, e, OnInterviewerReply(s, e.turnId, e.reply, c), 0, c)
    ensures
      var step := OnInterviewerReply(s, e.turnId, e.reply, c);
      Replies(s, e, step.state, step.commands)
  {
  }

  lemma FailureRetries(s: SessionState, e: Event, c: Config)
    requires Invariant(s, c) && !AtRest(s) && s.phase != Close && e.InterviewerFailed? && Answers(s, e)
    ensures Settling(s, e, OnInterviewerFailed(s, e.turnId, e.errorKind), Distance(s) - 1, c)
    ensures
      var step := OnInterviewerFailed(s, e.turnId, e.errorKind);
      Replies(s, e, step.state, step.commands)
  {
  }

  /** Away from rest, an answer brings the machine closer to it: the reply is delivered,
      the move is retried, or the session ends. */
  lemma AnswerSettles(s: SessionState, e: Event, c: Config)
    requires Invariant(s, c) && !AtRest(s) && Answers(s, e)
    ensures Settling(s, e, Transition(s, e, c), Distance(s) - 1, c)
    ensures Replies(s, e, Transition(s, e, c).state, Transition(s, e, c).commands)
  {
    if s.phase == Close {
      ClosingSettles(s, e, c);
    } else if e.InterviewerReplyReady? {
      ReplyDelivers(s, e, c);
    } else if e.InterviewerFailed? {
      FailureRetries(s, e, c);
    }
  }

  // ---------- what handling one event does to the world ----------

  /** At most 2k trace rows and 6k backend calls, all for `turn`. */
  ghost predicate Spans(w: Wire, v: Wire, turn: TurnId, k: nat)
  {
    && |w.log| <= |v.log| <= |w.log| + 2 * k
    && v.log[..|w.log|] == w.log
    && w.generates <= v.generates <= w.generates + 2 * MAX_ATTEMPTS * k
    && (forall j :: |w.log| <= j < |v.log| ==> v.log[j].trace.turn == turn)
  }

  lemma SpansCompose(w: Wire, m: Wire, v: Wire, turn: TurnId, i: nat, j: nat)
    requires Spans(w, m, turn, i) && Spans(m, v, turn, j)
    ensures Spans(w, v, turn, i + j)
  {
    assert v.log[..|w.log|] == m.log[..|w.log|];
    forall k | |w.log| <= k < |v.log|
      ensures v.log[k].trace.turn == turn
    {
      if k < |m.log| {
        assert v.log[..|m.log|][k] == m.log[k];
      }
    }
  }

  // ---------- requests that do not fit ----------

  /** The move outstanding asks for more than a request may carry. */
  predicate TooLong(s: SessionState, transcript: seq<Entry>)
  {
    && s.turn.pending.Some? && s.turn.pending.value.RunInterviewer?
    && var o := s.turn.pending.value;
       !Fits(InterviewerPayload(s.plan, transcript, o.move, o.node, o.context))
  }

  /** Executing the step into `t` raises: a move goes out, the ceiling does not stop it, and
      its request cannot be built. */
  predicate Overflows(sh: Shell, w: World, t: SessionState)
  {
    !AtRest(t) && t.phase != Close && !CeilingBreached(sh, w) && TooLong(t, w.transcript)
  }

  /** What an agent reports back: an utterance with text, and a failure only of a request
      that was made. */
  predicate Sound(w: World, e: Event)
  {
    SoundReply(e) && (e.InterviewerFailed? ==> !TooLong(w.state, w.transcript))
  }

  /** One interviewer command: at most two rows, and an event that answers it; or the error
      of a request that does not fit. */
  lemma InterviewerCommandAnswers(sh: Shell, w: World, s: SessionState)
    requires !AtRest(s) && s.phase != Close && s.turn.pending.Some? && 1 <= s.turn.number && w.state == s
    requires s.turn.pending.value.RunInterviewer? && s.turn.pending.value.turnId == PendingTurn(s)
    ensures
      var done := RunInterviewerCommand(sh, w, s.turn.pending.value);
      && done.escaped == Overflows(sh, w, s)
      && done.world == w.(wire := done.world.wire, ticks := w.ticks + 1)
      && (if done.escaped then done.events == [] && done.world.wire == w.wire
          else
            && Spans(w.wire, done.world.wire, PendingTurn(s), 1)
            && |done.events| == 1 && Answers(s, done.events[0]) && Sound(w, done.events[0]))
  {
    InterviewerTurnSpan(w.wire, sh.env, sh.settings, PendingTurn(s), RequestOf(w, s.turn.pending.value));
  }

  /** The assessor tasks after a step. */
  ghost predicate TasksAfter(sh: Shell, w: World, e: Event, t: SessionState, tasks: seq<Task>)
    requires PhaseInvariant(w.state, sh.config) && PhaseInvariant(t, sh.config)
  {
    || tasks == w.tasks
    || (&& e.CandidateTurnReceived? && AtRest(w.state)
        && TurnsLeft(t, sh.config) < TurnsLeft(w.state, sh.config)
        && |tasks| == |w.tasks| + 1 && Front(tasks) == w.tasks
        && Last(tasks) == Task(e.turnId, Last(tasks).focus, InputsFrom(w.transcript), false))
  }

  /** What handling an event leaves when the step puts a call or the closing on the wire. */
  ghost predicate Woken(sh: Shell, w: World, e: Event, t: SessionState, done: Effect)
    requires PhaseInvariant(w.state, sh.config) && PhaseInvariant(t, sh.config)
  {
    var v, events := done.world, done.events;
    && done.escaped == Overflows(sh, w, t)
    && v.state == t && 1 <= t.turn.number
    && v.decisions == w.decisions
    && TasksAfter(sh, w, e, t, v.tasks)
    && (if done.escaped
        then v.stored == Some(Row(t, w.transcript)) && v.transcript == w.transcript && v.wire == w.wire
        else
          && |events| == 1 && Answers(t, events[0]) && Sound(v, events[0])
          && (if t.phase == Close
              then && v.transcript == w.transcript + [Entry(SystemRole, sh.closing(t.plan), PendingTurn(t))]
                   && v.wire == w.wire
              else v.transcript == w.transcript && Spans(w.wire, v.wire, PendingTurn(t), 1)))
  }

  /** The world in which the outbound command of the step is executed. */
  ghost predicate AboutToSend(sh: Shell, w: World, e: Event, t: SessionState, mid: World)
    requires PhaseInvariant(w.state, sh.config) && PhaseInvariant(t, sh.config)
  {
    && mid == w.(state := t, stored := Some(Row(t, w.transcript)), tasks := mid.tasks)
    && TasksAfter(sh, w, e, t, mid.tasks)
  }

  lemma SendWakes(sh: Shell, w: World, e: Event, t: SessionState, cs: seq<Command>, mid: World)
    requires PhaseInvariant(w.state, sh.config) && PhaseInvariant(t, sh.config)
    requires !AtRest(t) && AboutToSend(sh, w, e, t, mid)
    requires t.turn.pending.Some? && 1 <= t.turn.number && t.turn.pending.value.turnId == PendingTurn(t)
    requires t.phase == Close ==> t.turn.pending.value.EmitScriptedClosing?
    requires t.phase != Close ==> t.turn.pending.value.RunInterviewer?
    requires ExecuteAll(sh, Persisted(w.(state := t)), cs) == Emit(sh, mid, t.turn.pending.value)
    ensures Woken(sh, w, e, t, Handled(sh, w, t, cs))
  {
    if t.phase != Close {
      InterviewerCommandAnswers(sh, mid, t);
    }
  }

  lemma WakingStep(sh: Shell, w: World, e: Event, t: SessionState, cs: seq<Command>)
    requires PhaseInvariant(w.state, sh.config) && PhaseInvariant(t, sh.config)
    requires !AtRest(t) && Wakes(w.state, e, t, cs, sh.config)
    ensures Woken(sh, w, e, t, Handled(sh, w, t, cs))
  {
    var start, o := Persisted(w.(state := t)), t.turn.pending.value;
    if Does(cs, Send(o)) {
      OneCommand(sh, start, cs, Send(o));
      SendWakes(sh, w, e, t, cs, start);
    } else {
      TwoCommands(sh, start, cs, e.turnId, Send(o));
      SendWakes(sh, w, e, t, cs, ExecuteOne(sh, start, cs[0]).world);
    }
  }

  // ---------- a drive that answers a waiting machine ----------

  ghost predicate Rested(sh: Shell, v: World)
  {
    && Invariant(v.state, sh.config) && AtRest(v.state)
    && v.stored == Some(Row(v.state, v.transcript))
  }

  /** The move outstanding will never be answered: its request does not fit. */
  ghost predicate Stalled(sh: Shell, v: World)
  {
    && Invariant(v.state, sh.config) && !AtRest(v.state) && v.state.phase != Close
    && TooLong(v.state, v.transcript)
    && v.stored == Some(Row(v.state, v.transcript))
  }

  /** One decision more exactly when the session has just ended. */
  ghost predicate DecisionsKept(w: World, v: World)
  {
    if Terminal(v.state.phase) && !Terminal(w.state.phase)
    then v.decisions != [] && Front(v.decisions) == w.decisions && Last(v.decisions).abort == v.state.abortReason
    else v.decisions == w.decisions
  }

  ghost predicate Concluded(sh: Shell, w: World, v: World)
    requires PhaseInvariant(w.state, sh.config)
  {
    && Rested(sh, v)
    && v.state.info == w.state.info && v.state.turn.number == w.state.turn.number
    && 1 <= w.state.turn.number && v.state.phase != Created
    && TurnsLeft(v.state, sh.config) <= TurnsLeft(w.state, sh.config)
    && (w.state.phase == Close ==> Terminal(v.state.phase))
    && v.tasks == w.tasks
    && DecisionsKept(w, v)
    && Spans(w.wire, v.wire, PendingTurn(w.state), if Distance(w.state) == 2 then 1 else 0)
    && (if Terminal(v.state.phase) then v.transcript == w.transcript
        else SaidNext(w.transcript, v.transcript, PendingTurn(w.state)))
  }

  /** The interviewer has said one more thing. */
  predicate SaidNext(before: seq<Entry>, after: seq<Entry>, turn: TurnId)
  {
    && |after| == |before| + 1 && Front(after) == before
    && Last(after).role == InterviewerRole && Last(after).turnId == turn && 1 <= |Last(after).text| <= 1200
  }

  /** How the drive of a single queued event ends. */
  ghost predicate SettlesWithin(d: Driven, steps: nat, widest: nat, more: nat)
  {
    d.Settled? && d.steps <= steps + more && d.widest <= Wider(widest, 1)
  }

  /** ... and the waiting machine is answered. */
  ghost predicate AnsweredWithin(sh: Shell, w: World, d: Driven, steps: nat, widest: nat, more: nat)
    requires PhaseInvariant(w.state, sh.config)
  {
    SettlesWithin(d, steps, widest, more) && Concluded(sh, w, d.world)
  }

  /** The rest of the drive once one event is handled. */
  function Remainder(sh: Shell, w: World, t: SessionState, cs: seq<Command>, steps: nat, widest: nat): Driven
    requires steps <= MAX_DRIVE_STEPS
  {
    Onward(sh, Handled(sh, w, t, cs), steps, widest)
  }

  function Onward(sh: Shell, done: Effect, steps: nat, widest: nat): Driven
    requires steps <= MAX_DRIVE_STEPS
  {
    if done.escaped then Crashed(done.world)
    else Drive(sh, done.world, done.events, steps, Wider(widest, |done.events|))
  }

  lemma DriveOne(sh: Shell, w: World, e: Event, t: SessionState, cs: seq<Command>, steps: nat, widest: nat)
    requires steps < MAX_DRIVE_STEPS && Transition(w.state, e, sh.config) == Stepped(t, cs)
    ensures Drive(sh, w, [e], steps, widest) == Remainder(sh, w, t, cs, steps + 1, widest)
  {
    var events := Handled(sh, w, t, cs).events;
    assert [e][1..] + events == events;
  }

  /** The step an answer makes. */
  ghost predicate AnswerStep(s: SessionState, e: Event, step: Step, c: Config)
    requires PhaseInvariant(s, c)
  {
    && !AtRest(s) && step.Stepped?
    && Settling(s, e, step, Distance(s) - 1, c) && Replies(s, e, step.state, step.commands)
  }

  lemma AnswerSteps(s: SessionState, e: Event, c: Config)
    requires Invariant(s, c) && !AtRest(s) && Answers(s, e)
    ensures AnswerStep(s, e, Transition(s, e, c), c)
  {
    AnswerSettles(s, e, c);
  }

  lemma {:induction false} AnswerDrive(sh: Shell, w: World, e: Event, steps: nat, widest: nat)
    requires Invariant(w.state, sh.config) && !AtRest(w.state)
    requires Answers(w.state, e) && Sound(w, e)
    requires steps + Distance(w.state) <= MAX_DRIVE_STEPS
    ensures AnsweredWithin(sh, w, Drive(sh, w, [e], steps, widest), steps, widest, Distance(w.state))
    decreases Distance(w.state), 1, 0
  {
    hide Drive, Transition, Remainder, AnsweredWithin;
    var step := AnswerOpens(sh, w, e, steps, widest);
    AfterAnswer(sh, w, e, step, steps + 1, widest);
    OneStepMore(sh, w, Remainder(sh, w, step.state, step.commands, steps + 1, widest), steps, widest,
                Distance(w.state) - 1);
  }

  /** A drive of an answer opens with the step the answer makes. */
  lemma AnswerOpens(sh: Shell, w: World, e: Event, steps: nat, widest: nat) returns (step: Step)
    requires Invariant(w.state, sh.config) && !AtRest(w.state) && Answers(w.state, e) && steps < MAX_DRIVE_STEPS
    ensures AnswerStep(w.state, e, step, sh.config)
    ensures Drive(sh, w, [e], steps, widest) == Remainder(sh, w, step.state, step.commands, steps + 1, widest)
  {
    AnswerSteps(w.state, e, sh.config);
    step := Transition(w.state, e, sh.config);
    DriveOne(sh, w, e, step.state, step.commands, steps, widest);
  }

  lemma OneStepMore(sh: Shell, w: World, d: Driven, steps: nat, widest: nat, more: nat)
    requires PhaseInvariant(w.state, sh.config) && AnsweredWithin(sh, w, d, steps + 1, widest, more)
    ensures AnsweredWithin(sh, w, d, steps, widest, more + 1)
  {
  }

  lemma {:induction false} AfterAnswer(sh: Shell, w: World, e: Event, step: Step, steps: nat, widest: nat)
    requires PhaseInvariant(w.state, sh.config) && Sound(w, e)
    requires AnswerStep(w.state, e, step, sh.config)
    requires steps + Distance(w.state) - 1 <= MAX_DRIVE_STEPS
    ensures AnsweredWithin(sh, w, Remainder(sh, w, step.state, step.commands, steps, widest),
                           steps, widest, Distance(w.state) - 1)
    decreases Distance(w.state), 0, 0
  {
    if !AtRest(step.state) {
      var t, cs := step.state, step.commands;
      assert !TooLong(t, w.transcript);
      WokenDrive(sh, w, e, t, cs, steps, widest);
      RetryConcludes(sh, w, e, t, Handled(sh, w, t, cs), Remainder(sh, w, t, cs, steps, widest).world);
    } else {
      RestConcludes(sh, w, e, step, steps, widest);
    }
  }

  lemma RestConcludes(sh: Shell, w: World, e: Event, step: Step, steps: nat, widest: nat)
    requires PhaseInvariant(w.state, sh.config) && SoundReply(e) && steps <= MAX_DRIVE_STEPS
    requires AnswerStep(w.state, e, step, sh.config) && AtRest(step.state)
    ensures AnsweredWithin(sh, w, Remainder(sh, w, step.state, step.commands, steps, widest), steps, widest, 0)
  {
    RestingStep(sh, w, e, step.state, step.commands);
  }

  /** What the retry concludes, the first attempt concludes. */
  lemma RetryConcludes(sh: Shell, w: World, e: Event, t: SessionState, done: Effect, v: World)
    requires PhaseInvariant(w.state, sh.config) && PhaseInvariant(t, sh.config)
    requires !AtRest(w.state) && !AtRest(t) && Distance(t) < Distance(w.state) && t.phase != Close
    requires t.info == w.state.info && t.turn.number == w.state.turn.number
    requires !Terminal(w.state.phase) && TurnsLeft(t, sh.config) <= TurnsLeft(w.state, sh.config)
    requires Woken(sh, w, e, t, done) && !done.escaped && Concluded(sh, done.world, v)
    ensures Concluded(sh, w, v)
  {
    SpansCompose(w.wire, done.world.wire, v.wire, PendingTurn(w.state), 1, 0);
  }

  /** From a step that wakes an agent, or sends the closing, to the end of the drive. */
  lemma {:induction false} WokenDrive(
    sh: Shell, w: World, e: Event, t: SessionState, cs: seq<Command>, steps: nat, widest: nat)
    requires PhaseInvariant(w.state, sh.config) && Invariant(t, sh.config)
    requires !AtRest(t) && Wakes(w.state, e, t, cs, sh.config) && !Overflows(sh, w, t)
    requires steps + Distance(t) <= MAX_DRIVE_STEPS
    ensures Woken(sh, w, e, t, Handled(sh, w, t, cs))
    ensures
      AnsweredWithin(sh, Handled(sh, w, t, cs).world, Remainder(sh, w, t, cs, steps, widest), steps, widest,
                     Distance(t))
    decreases Distance(t), 2, 0
  {
    hide Drive, Transition, Wakes;
    WakingStep(sh, w, e, t, cs);
    var done := Handled(sh, w, t, cs);
    assert done.events == [done.events[0]];
    AnswerDrive(sh, done.world, done.events[0], steps, Wider(widest, 1));
  }

  /** The step that ends a conversation turn. */
  lemma RestingStep(sh: Shell, w: World, e: Event, t: SessionState, cs: seq<Command>)
    requires !AtRest(w.state) && 1 <= w.state.turn.number
    requires AtRest(t)
    requires Terminal(t.phase) ==> exists r :: Does(cs, RecordDecision(r))
    requires !Terminal(t.phase) ==>
               e.InterviewerReplyReady? && SoundReply(e)
               && Does(cs, Send(DeliverUtterance(PendingTurn(w.state), e.reply.utterance)))
    ensures
      var done := Handled(sh, w, t, cs);
      var v := done.world;
      && done.events == [] && !done.escaped
      && v.state == t && v.tasks == w.tasks && v.wire == w.wire
      && v.stored == Some(Row(t, v.transcript))
      && DecisionsKept(w, v)
      && (if Terminal(t.phase) then v.transcript == w.transcript
          else SaidNext(w.transcript, v.transcript, PendingTurn(w.state)))
  {
    var start := Persisted(w.(state := t));
    if Terminal(t.phase) {
      var r :| Does(cs, RecordDecision(r));
      OneCommand(sh, start, cs, RecordDecision(r));
    } else {
      OneCommand(sh, start, cs, Send(DeliverUtterance(PendingTurn(w.state), e.reply.utterance)));
    }
  }

  // ---------- a drive from rest ----------

  /** The state the machine is in once it has seen `e`. */
  function Next(s: SessionState, e: Event, c: Config): SessionState
  {
    var step := Transition(s, e, c);
    if step.Raised? then s else step.state
  }

  /** From rest, for any event: when the step puts out a move whose request does not fit, the
      error leaves the drive at that very call and the move stays outstanding; otherwise the
      drive settles within three events and is at rest again. The queue never holds two
      events, the safety valve of 64 cannot trip, and the machine never raises. */
  lemma EveryDriveSettles(sh: Shell, w: World, e: Event, steps: nat, widest: nat)
    requires Invariant(w.state, sh.config) && AtRest(w.state) && steps + 3 <= MAX_DRIVE_STEPS
    ensures SettlesUnless(Overflows(sh, w, Next(w.state, e, sh.config)), sh, Drive(sh, w, [e], steps, widest),
                          steps, widest, 3)
  {
    hide Drive, Transition, Remainder, SettlesUnless;
    var step := EventOpens(sh, w, e, steps, widest);
    RestSettles(sh, w, e, step, steps + 1, widest);
    OneStepMoreUnless(Overflows(sh, w, step.state), sh, Remainder(sh, w, step.state, step.commands, steps + 1, widest),
                      steps, widest);
  }

  /** A drive from rest opens with the step of the event. */
  lemma EventOpens(sh: Shell, w: World, e: Event, steps: nat, widest: nat) returns (step: Step)
    requires Invariant(w.state, sh.config) && AtRest(w.state) && steps < MAX_DRIVE_STEPS
    ensures step.Stepped? && Settling(w.state, e, step, 2, sh.config) && step.state == Next(w.state, e, sh.config)
    ensures Drive(sh, w, [e], steps, widest) == Remainder(sh, w, step.state, step.commands, steps + 1, widest)
  {
    AnyEventSettles(w.state, e, sh.config);
    step := Transition(w.state, e, sh.config);
    DriveOne(sh, w, e, step.state, step.commands, steps, widest);
  }

  lemma OneStepMoreUnless(overflow: bool, sh: Shell, d: Driven, steps: nat, widest: nat)
    requires SettlesUnless(overflow, sh, d, steps + 1, widest, 2)
    ensures SettlesUnless(overflow, sh, d, steps, widest, 3)
  {
  }

  ghost predicate SettlesUnless(overflow: bool, sh: Shell, d: Driven, steps: nat, widest: nat, more: nat)
  {
    if overflow then d.Crashed? && Stalled(sh, d.world)
    else SettlesWithin(d, steps, widest, more) && Rested(sh, d.world)
  }

  lemma RestSettles(sh: Shell, w: World, e: Event, step: Step, steps: nat, widest: nat)
    requires Invariant(w.state, sh.config) && AtRest(w.state) && steps + 2 <= MAX_DRIVE_STEPS
    requires step.Stepped? && Settling(w.state, e, step, 2, sh.config)
    ensures SettlesUnless(Overflows(sh, w, step.state), sh, Remainder(sh, w, step.state, step.commands, steps, widest),
                          steps, widest, 2)
  {
    var t, cs := step.state, step.commands;
    if AtRest(t) {
      QuietStep(sh, w, e, t, cs);
    } else if Overflows(sh, w, t) {
      WakingStep(sh, w, e, t, cs);
    } else {
      WokenDrive(sh, w, e, t, cs, steps, widest);
    }
  }

  lemma QuietStep(sh: Shell, w: World, e: Event, t: SessionState, cs: seq<Command>)
    requires || AllInert(cs) || (exists r :: Does(cs, RecordDecision(r))) || Speaks(w.state, e, t, cs)
    ensures
      var done := Handled(sh, w, t, cs);
      && done.events == [] && !done.escaped
      && done.world.state == t && done.world.stored == Some(Row(t, done.world.transcript))
  {
    if Speaks(w.state, e, t, cs) {
      var start, o := Persisted(w.(state := t)), t.turn.pending.value;
      OneCommand(sh, start, cs, if Does(cs, Send(o)) then Send(o) else Reissue(o));
    } else {
      SilentStep(sh, w, t, cs);
    }
  }

  /** A step that only marks, or only records the decision. */
  lemma SilentStep(sh: Shell, w: World, t: SessionState, cs: seq<Command>)
    requires AllInert(cs) || exists r :: Does(cs, RecordDecision(r))
    ensures
      var done := Handled(sh, w, t, cs);
      var v := done.world;
      && done.events == [] && !done.escaped
      && v == w.(state := t, stored := Some(Row(t, w.transcript)), decisions := v.decisions)
      && (if AllInert(cs) then v.decisions == w.decisions
          else v.decisions != [] && Front(v.decisions) == w.decisions && Last(v.decisions).abort == t.abortReason)
  {
    var start := Persisted(w.(state := t));
    if AllInert(cs) {
      InertDoesNothing(sh, start, cs);
    } else {
      var r :| Does(cs, RecordDecision(r));
      OneCommand(sh, start, cs, RecordDecision(r));
    }
  }
}
