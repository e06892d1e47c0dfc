/** What one candidate turn, and one scheduled assessment, come to: the session is told exactly
    what the agent has produced, or what has kept it from producing anything. */
module DevSessionReplies {
  import opened Common
  import opened InterviewPlan
  import opened RequestPayload
  import opened StateMachine
  import opened MachineInvariant
  import opened MachineCommute
  import opened ModelCall
  import opened ModelCallProperties
  import opened DevSession
  import opened DevSessionDrive
  import opened DevSessionRuns

  // ---------- what asking the interviewer comes to ----------

  datatype Reply = Said(text: string) | LostTo(reason: AbortReason)

  /** The trace rows kept so far cost the ceiling or more, and the flag says to enforce it. */
  predicate OverCeiling(sh: Shell, wire: Wire, ticks: nat)
  {
    TraceTotal(wire.log) >= sh.ceiling && sh.enforced(ticks)
  }

  /** A first attempt, and a second one with the same request if the first produces nothing;
      before each the ceiling is checked. */
  function Asked(sh: Shell, wire: Wire, ticks: nat, turn: TurnId, payload: Json, again: bool): (Wire, Reply)
    decreases again
  {
    if OverCeiling(sh, wire, ticks) then (wire, LostTo(CostCeiling))
    else
      var (after, result) := InterviewerTurn(wire, sh.env, sh.settings, turn, payload);
      if result.Produced? then (after, Said(result.output.utterance))
      else if again then Asked(sh, after, ticks + 1, turn, payload, false)
      else (after, LostTo(FatalAgentError))
  }

  // ---------- the steps a reply can lead to ----------

  /** A state with a move outstanding. */
  ghost predicate Waits(s: SessionState, c: Config)
  {
    && Invariant(s, c) && !AtRest(s) && s.phase != Close && !Terminal(s.phase)
    && 1 <= s.turn.number && s.turn.pending.Some? && s.turn.pending.value.RunInterviewer?
    && s.turn.pending.value.turnId == PendingTurn(s)
  }

  lemma WaitingWaits(s: SessionState, c: Config)
    requires Invariant(s, c) && !AtRest(s) && s.phase != Close
    ensures Waits(s, c)
  {
  }

  lemma ReplySaid(s: SessionState, output: InterviewerOutput, now: Time, c: Config)
    requires Waits(s, c)
    ensures
      var step := Transition(s, InterviewerReplyReady(PendingTurn(s), output, now), c);
      && step.Stepped? && step.state.phase == s.phase && step.state.turn.awaiting == Some(Candidate)
      && step.state.evidence == s.evidence && step.state.loop == s.loop && step.state.info == s.info
      && step.commands == [Send(DeliverUtterance(PendingTurn(s), output.utterance)), PersistState]
  {
  }

  lemma CeilingEnds(s: SessionState, now: Time, c: Config)
    requires Waits(s, c)
    ensures
      var step := Transition(s, OperatorAbort(CostCeiling, now), c);
      && step.Stepped? && step.state.phase == Aborted && step.state.abortReason == Some(CostCeiling)
      && step.commands == [RecordDecision(ByOperator), PersistState]
  {
  }

  lemma FirstFailureRetries(s: SessionState, kind: string, now: Time, c: Config)
    requires Waits(s, c) && s.turn.failureStreak == 0
    ensures
      var again := s.turn.pending.value.(retry := true);
      var step := Transition(s, InterviewerFailed(PendingTurn(s), kind, now), c);
      && step == Stepped(s.(turn := s.turn.(failureStreak := 1, pending := Some(again))),
                         [Send(again), FlagTurnDegraded(PendingTurn(s), kind), PersistState])
      && Waits(step.state, c)
  {
  }

  lemma SecondFailureEnds(s: SessionState, kind: string, now: Time, c: Config)
    requires Waits(s, c) && s.turn.failureStreak >= 1
    ensures
      var step := Transition(s, InterviewerFailed(PendingTurn(s), kind, now), c);
      && step.Stepped? && step.state.phase == Aborted && step.state.abortReason == Some(FatalAgentError)
      && step.commands == [RecordDecision(AgentFailure), PersistState]
  {
  }

  // ---------- and the drives they make ----------

  /** The drive has settled in `v`. */
  ghost predicate SettlesIn(d: Driven, v: World)
  {
    d.Settled? && d.world == v
  }

  /** An event whose step says nothing to the machine ends the drive. */
  lemma LastOfDrive(sh: Shell, m: World, e: Event, t: SessionState, cs: seq<Command>, x: Command, steps: nat,
                    widest: nat)
    requires steps < MAX_DRIVE_STEPS && Transition(m.state, e, sh.config) == Stepped(t, cs) && Does(cs, x)
    requires x.RecordDecision? || (x.Send? && x.out.DeliverUtterance?)
    ensures
      var d := Drive(sh, m, [e], steps, widest);
      && d.Settled? && d.world.state == t && d.world.wire == m.wire && d.world.tasks == m.tasks
      && d.world.transcript == (if x.RecordDecision? then m.transcript
                                else m.transcript + [Entry(InterviewerRole, x.out.utterance, x.out.turnId)])
  {
    hide Transition, Drive;
    DriveOne(sh, m, e, t, cs, steps, widest);
    OneCommand(sh, Persisted(m.(state := t)), cs, x);
    SettledDrive(sh, Handled(sh, m, t, cs).world, steps + 1, Wider(widest, 0));
  }

  lemma SettledDrive(sh: Shell, m: World, steps: nat, widest: nat)
    requires steps <= MAX_DRIVE_STEPS
    ensures Drive(sh, m, [], steps, widest) == Settled(m, steps, widest)
  {
  }

  /** What the drive of one reply leaves. */
  ghost predicate Leaves(m: World, s: SessionState, d: Driven, wire: Wire, reply: Reply)
    requires 1 <= s.turn.number
  {
    && d.Settled? && d.world.wire == wire && d.world.tasks == m.tasks
    && match reply
       case Said(text) =>
         && d.world.state.phase == s.phase && d.world.state.turn.awaiting == Some(Candidate)
         && d.world.state.evidence == s.evidence && d.world.state.loop == s.loop
         && d.world.transcript == m.transcript + [Entry(InterviewerRole, text, PendingTurn(s))]
       case LostTo(reason) =>
         && d.world.state.phase == Aborted && d.world.state.abortReason == Some(reason)
         && d.world.transcript == m.transcript
  }

  lemma SaidDrive(sh: Shell, m: World, s: SessionState, output: InterviewerOutput, now: Time, steps: nat, widest: nat)
    requires Waits(s, sh.config) && m.state == s && steps < MAX_DRIVE_STEPS
    ensures
      var e := InterviewerReplyReady(PendingTurn(s), output, now);
      Leaves(m, s, Drive(sh, m, [e], steps, widest), m.wire, Said(output.utterance))
  {
    hide Transition, Drive;
    var e, x := InterviewerReplyReady(PendingTurn(s), output, now),
                Send(DeliverUtterance(PendingTurn(s), output.utterance));
    ReplySaid(s, output, now, sh.config);
    var step := Transition(s, e, sh.config);
    LastOfDrive(sh, m, e, step.state, step.commands, x, steps, widest);
  }

  lemma CeilingDrive(sh: Shell, m: World, s: SessionState, now: Time, steps: nat, widest: nat)
    requires Waits(s, sh.config) && m.state == s && steps < MAX_DRIVE_STEPS
    ensures Leaves(m, s, Drive(sh, m, [OperatorAbort(CostCeiling, now)], steps, widest), m.wire, LostTo(CostCeiling))
  {
    hide Transition, Drive;
    var e := OperatorAbort(CostCeiling, now);
    CeilingEnds(s, now, sh.config);
    var step := Transition(s, e, sh.config);
    LastOfDrive(sh, m, e, step.state, step.commands, RecordDecision(ByOperator), steps, widest);
  }

  lemma GivenUpDrive(sh: Shell, m: World, s: SessionState, kind: string, now: Time, steps: nat, widest: nat)
    requires Waits(s, sh.config) && m.state == s && s.turn.failureStreak >= 1 && steps < MAX_DRIVE_STEPS
    ensures
      var e := InterviewerFailed(PendingTurn(s), kind, now);
      Leaves(m, s, Drive(sh, m, [e], steps, widest), m.wire, LostTo(FatalAgentError))
  {
    hide Transition, Drive;
    var e := InterviewerFailed(PendingTurn(s), kind, now);
    SecondFailureEnds(s, kind, now, sh.config);
    var step := Transition(s, e, sh.config);
    LastOfDrive(sh, m, e, step.state, step.commands, RecordDecision(AgentFailure), steps, widest);
  }

  /** An outstanding move that is (re)sent from `m`. */
  function SentFrom(sh: Shell, m: World, s: SessionState): Effect
    requires s.turn.pending.Some? && s.turn.pending.value.RunInterviewer?
  {
    RunInterviewerCommand(sh, m, s.turn.pending.value)
  }

  lemma RetryIsSent(sh: Shell, m: World, s: SessionState, kind: string, now: Time, steps: nat, widest: nat)
    requires Waits(s, sh.config) && m.state == s && s.turn.failureStreak == 0 && steps < MAX_DRIVE_STEPS
    ensures
      var e := InterviewerFailed(PendingTurn(s), kind, now);
      var t := s.(turn := s.turn.(failureStreak := 1, pending := Some(s.turn.pending.value.(retry := true))));
      var sent := SentFrom(sh, Persisted(m.(state := t)), t);
      && Waits(t, sh.config)
      && Drive(sh, m, [e], steps, widest) == Onward(sh, sent, steps + 1, widest)
  {
    hide Transition, Drive, Invariant;
    var e, again := InterviewerFailed(PendingTurn(s), kind, now), s.turn.pending.value.(retry := true);
    FirstFailureRetries(s, kind, now, sh.config);
    var step := Transition(s, e, sh.config);
    DriveOne(sh, m, e, step.state, step.commands, steps, widest);
    OneCommand(sh, Persisted(m.(state := step.state)), step.commands, Send(again));
  }

  /** The drive from where a move is sent: what the agent makes of it is what the session is told. */
  lemma {:induction false} SentDrive(sh: Shell, m: World, s: SessionState, steps: nat, widest: nat)
    requires Waits(s, sh.config) && m.state == s
    requires steps + (if s.turn.failureStreak == 0 then 2 else 1) <= MAX_DRIVE_STEPS
    requires OverCeiling(sh, m.wire, m.ticks) || Fits(RequestOf(m, s.turn.pending.value))
    ensures
      var payload := RequestOf(m, s.turn.pending.value);
      var (wire, reply) := Asked(sh, m.wire, m.ticks, PendingTurn(s), payload, s.turn.failureStreak == 0);
      Leaves(m, s, Onward(sh, SentFrom(sh, m, s), steps, widest), wire, reply)
    decreases s.turn.failureStreak == 0
  {
    hide Transition, Drive, AgentTurn, Invariant;
    var o, sent := s.turn.pending.value, SentFrom(sh, m, s);
    var payload := RequestOf(m, o);
    InterviewerTurnSpan(m.wire, sh.env, sh.settings, PendingTurn(s), payload);
    var done, now := sent.world, Now(sh, m);
    if OverCeiling(sh, m.wire, m.ticks) {
      CeilingDrive(sh, done, s, now, steps, Wider(widest, 1));
    } else {
      var (wire, result) := InterviewerTurn(m.wire, sh.env, sh.settings, PendingTurn(s), payload);
      if result.Produced? {
        SaidDrive(sh, done, s, result.output, now, steps, Wider(widest, 1));
      } else {
        var kind := InterviewerEvent(PendingTurn(s), result, now).errorKind;
        if s.turn.failureStreak == 0 {
          RetryIsSent(sh, done, s, kind, now, steps, Wider(widest, 1));
          var t := s.(turn := s.turn.(failureStreak := 1, pending := Some(o.(retry := true))));
          SentDrive(sh, Persisted(done.(state := t)), t, steps + 1, Wider(widest, 1));
        } else {
          GivenUpDrive(sh, done, s, kind, now, steps, Wider(widest, 1));
        }
      }
    }
  }

  /** What is reported of a call: over the ceiling, nothing was asked and the session is to end;
      otherwise the failure names what happened, an output not accepted twice or an error of the
      wrapper, with the turn that was asked about and the clock reading after it. */
  lemma CallsAreReported(sh: Shell, w: World, out: Outbound, task: Task)
    requires out.RunInterviewer?
    ensures
      var sent := RunInterviewerCommand(sh, w, out);
      var (w1, w') := (CallModel(w.wire, sh.env, sh.settings, out.turnId).0, sent.world.wire);
      && (OverCeiling(sh, w.wire, w.ticks) ==> sent.events == [OperatorAbort(CostCeiling, sh.clock(w.ticks))])
      && (!OverCeiling(sh, w.wire, w.ticks) && Fits(RequestOf(w, out)) ==>
            && |sent.events| == 1
            && (sent.events[0].InterviewerReplyReady? || sent.events[0].InterviewerFailed?)
            && sent.events[0].turnId == out.turnId && sent.events[0].now == sh.clock(w.ticks)
            && (sent.events[0].InterviewerFailed? ==>
                  sent.events[0].errorKind == if w' != w1 && RowMisses(w1, w', sh.env, AcceptInterviewer)
                                              then "interviewer_output_invalid" else "wrapper_error"))
    ensures
      var called := RunAssessorCall(sh, w, task);
      var accept := AssessorAccepts(task.turnId, w.state.info.id, task.focus);
      var (w1, w') := (CallModel(w.wire, sh.env, sh.settings, task.turnId).0, called.world.wire);
      && (OverCeiling(sh, w.wire, w.ticks) ==> called.events == [OperatorAbort(CostCeiling, sh.clock(w.ticks))])
      && (!OverCeiling(sh, w.wire, w.ticks) && Fits(AssessorPayload(task.focus, task.inputs)) ==>
            && |called.events| == 1
            && (called.events[0].AssessmentCompleted? || called.events[0].AssessmentFailed?)
            && called.events[0].forTurn == task.turnId && called.events[0].now == sh.clock(w.ticks)
            && (called.events[0].AssessmentFailed? ==>
                  called.events[0].errorKind == if w' != w1 && RowMisses(w1, w', sh.env, accept)
                                                then "assessor_output_invalid" else "wrapper_error"))
  {
    hide CallModel, AgentTurn, RowMisses, Returns, RequestOf, AssessorPayload;
    AgentTurnFollowsItsRows(w.wire, sh.env, sh.settings, out.turnId, AcceptInterviewer);
    AgentTurnSpan(w.wire, sh.env, sh.settings, out.turnId, AcceptInterviewer);
    var accept := AssessorAccepts(task.turnId, w.state.info.id, task.focus);
    AgentTurnFollowsItsRows(w.wire, sh.env, sh.settings, task.turnId, accept);
    AgentTurnSpan(w.wire, sh.env, sh.settings, task.turnId, accept);
  }

  // ---------- one candidate turn ----------

  /** The move that the candidate's words have led to is a new one. */
  lemma WordsMakeANewMove(s: SessionState, e: Event, c: Config)
    requires Invariant(s, c) && AwaitsCandidate(s) && s.phase != Created && e.CandidateTurnReceived?
    ensures
      var t := Next(s, e, c);
      && Transition(s, e, c).Stepped? && Invariant(t, c) && !AtRest(t)
      && (t.phase != Close ==> t.turn.failureStreak == 0)
      && (t.phase == Close ==> t.clocks.lastActivity == Some(e.now) && t.abortReason.None?)
  {
    hide Adjudicate;
    CandidateTurnKeeps(s, e.turnId, e.now, c);
  }

  /** Whatever is sent, is sent from the world that ends in the candidate's words. */
  lemma MoveIsSent(sh: Shell, spoken: World, e: Event) returns (m: World)
    requires Invariant(spoken.state, sh.config) && AtRest(spoken.state) && AwaitsCandidate(spoken.state)
    requires spoken.state.phase != Created && e.CandidateTurnReceived?
    ensures
      var t := Next(spoken.state, e, sh.config);
      && m == spoken.(state := t, stored := Some(Row(t, spoken.transcript)), tasks := m.tasks)
      && t.turn.pending.Some?
      && ExecuteAll(sh, Persisted(spoken.(state := t)), Transition(spoken.state, e, sh.config).commands)
         == Emit(sh, m, t.turn.pending.value)
  {
    hide Transition, Invariant, ExecuteAll, Emit;
    CandidateSteps(spoken.state, e, sh.config);
    var step := Transition(spoken.state, e, sh.config);
    var t, cs := step.state, step.commands;
    var start, o := Persisted(spoken.(state := t)), t.turn.pending.value;
    if Does(cs, Send(o)) {
      OneCommand(sh, start, cs, Send(o));
      m := start;
    } else {
      TwoCommands(sh, start, cs, e.turnId, Send(o));
      m := ExecuteOne(sh, start, cs[0]).world;
    }
  }

  lemma AnsweredDrive(sh: Shell, spoken: World, e: Event, steps: nat, widest: nat)
    requires Invariant(spoken.state, sh.config) && AtRest(spoken.state) && AwaitsCandidate(spoken.state)
    requires spoken.state.phase != Created && e.CandidateTurnReceived? && steps + 3 <= MAX_DRIVE_STEPS
    requires
      var t := Next(spoken.state, e, sh.config);
      !Overflows(sh, spoken, t) && t.phase != Close
    ensures
      var t := Next(spoken.state, e, sh.config);
      var d := Drive(sh, spoken, [e], steps, widest);
      && Waits(t, sh.config) && d.Settled?
      && var (wire, reply) := Asked(sh, spoken.wire, spoken.ticks, PendingTurn(t),
                                    RequestOf(spoken.(state := t), t.turn.pending.value), true);
         Leaves(spoken.(tasks := d.world.tasks), t, d, wire, reply)
  {
    hide Transition, Drive, Invariant, ExecuteAll, Asked;
    WordsMakeANewMove(spoken.state, e, sh.config);
    var step := Transition(spoken.state, e, sh.config);
    var t := step.state;
    WaitingWaits(t, sh.config);
    var m := MoveIsSent(sh, spoken, e);
    SentDrive(sh, m, t, steps + 1, widest);
    DriveOne(sh, spoken, e, t, step.commands, steps, widest);
    assert Handled(sh, spoken, t, step.commands) == SentFrom(sh, m, t);
  }

  // ---------- the closing ----------

  /** A tick in CLOSE completes the session, unless the candidate has been silent for too long. */
  lemma ClosingTick(s: SessionState, now: Time, c: Config)
    requires Invariant(s, c) && s.phase == Close
    ensures
      var step := Transition(s, TimerTick(now), c);
      var overdue := s.clocks.lastActivity.Some?
                     && now > s.clocks.lastActivity.value + 60_000_000 * c.candidateTimeoutMinutes;
      && step.Stepped? && step.state.phase == (if overdue then Aborted else Completed)
      && exists r :: Does(step.commands, RecordDecision(r))
  {
    var step := Transition(s, TimerTick(now), c);
    var r := if step.state.phase == Completed then Finished else TimedOut;
    assert Does(step.commands, RecordDecision(r));
  }

  lemma ClosedDrive(sh: Shell, spoken: World, e: Event, steps: nat, widest: nat)
    requires Invariant(spoken.state, sh.config) && AtRest(spoken.state) && AwaitsCandidate(spoken.state)
    requires spoken.state.phase != Created && e.CandidateTurnReceived? && steps + 3 <= MAX_DRIVE_STEPS
    requires Next(spoken.state, e, sh.config).phase == Close
    ensures
      var t := Next(spoken.state, e, sh.config);
      var d := Drive(sh, spoken, [e], steps, widest);
      && 1 <= t.turn.number && d.Settled? && d.world.wire == spoken.wire
      && d.world.state.phase == (if sh.clock(spoken.ticks) > e.now + 60_000_000 * sh.config.candidateTimeoutMinutes
                                 then Aborted else Completed)
      && d.world.transcript == spoken.transcript + [Entry(SystemRole, sh.closing(t.plan), PendingTurn(t))]
  {
    hide Transition, Drive, ExecuteAll;
    WordsMakeANewMove(spoken.state, e, sh.config);
    var step := Transition(spoken.state, e, sh.config);
    var t := step.state;
    var m := MoveIsSent(sh, spoken, e);
    var done := Handled(sh, spoken, t, step.commands);
    DriveOne(sh, spoken, e, t, step.commands, steps, widest);
    var tick := TimerTick(sh.clock(spoken.ticks));
    assert done.events == [tick] && done.world.state == t;
    ClosingTick(t, tick.now, sh.config);
    var last := Transition(t, tick, sh.config);
    var r :| Does(last.commands, RecordDecision(r));
    LastOfDrive(sh, done.world, tick, last.state, last.commands, RecordDecision(r), steps + 1, Wider(widest, 1));
  }

  // ---------- the valve ----------

  lemma IgnoredStep(sh: Shell, w: World, e: Event)
    requires Terminal(w.state.phase)
    ensures Transition(w.state, e, sh.config) == Stepped(w.state, [])
    ensures !Handled(sh, w, w.state, []).escaped && Handled(sh, w, w.state, []).events == []
    ensures Handled(sh, w, w.state, []).world.state == w.state
  {
  }

  /** The valve is there: a queue of events that are all ignored is given up exactly when it takes
      more than 64; and what is reported of a drive is how many events it took, and the longest
      queue it left. */
  lemma {:induction false} ValveTripsPastSixtyFour(sh: Shell, w: World, queue: seq<Event>, steps: nat, widest: nat)
    requires Terminal(w.state.phase) && steps <= 64
    ensures
      var d := Drive(sh, w, queue, steps, widest);
      && (d.Runaway? <==> steps + |queue| > 64)
      && (!d.Runaway? ==> d.Settled? && d.steps == steps + |queue|
                          && d.widest == if widest >= |queue| - 1 then widest else |queue| - 1)
    decreases |queue|
  {
    hide Transition, Handled;
    if queue != [] && steps + 1 <= 64 {
      IgnoredStep(sh, w, queue[0]);
      var done := Handled(sh, w, w.state, []);
      assert queue[1..] + done.events == queue[1..];
      ValveTripsPastSixtyFour(sh, done.world, queue[1..], steps + 1, Wider(widest, |queue| - 1));
    }
  }

  // ---------- post_turn ----------

  /** What a candidate turn comes to: the closing, or exactly what the interviewer produced from the
      request of the move, at the first or the second attempt; and if neither, the end. */
  ghost predicate AnsweredSo(sh: Shell, w: World, text: string, p: Posted)
  {
    var (spoken, e) := Spoken(sh, w, text);
    var t := Next(spoken.state, e, sh.config);
    && p.Replied? && 1 <= t.turn.number
    && if t.phase == Close then
         && p.utterance == None && p.world.wire == spoken.wire
         && p.world.state.phase
            == (if sh.clock(spoken.ticks) > e.now + 60_000_000 * sh.config.candidateTimeoutMinutes
                then Aborted else Completed)
         && p.world.transcript == spoken.transcript + [Entry(SystemRole, sh.closing(t.plan), PendingTurn(t))]
       else
         && t.turn.pending.Some? && t.turn.pending.value.RunInterviewer?
         && var (wire, reply) := Asked(sh, spoken.wire, spoken.ticks, PendingTurn(t),
                                       RequestOf(spoken.(state := t), t.turn.pending.value), true);
            Leaves(spoken.(tasks := p.world.tasks), t, Settled(p.world, 0, 0), wire, reply)
            && p.utterance == (if reply.Said? then Some(reply.text) else None)
  }

  lemma HeardLast(transcript: seq<Entry>, e: Entry)
    ensures HeardSince(transcript + [e], |transcript|) == if e.role == InterviewerRole then Some(e.text) else None
    ensures HeardSince(transcript, |transcript|) == None
  {
    assert (transcript + [e])[|transcript|..] == [e] && Front([e]) == [] && Last([e]) == e;
    assert LastWhere([], IsInterviewer) == None;
    assert transcript[|transcript|..] == [];
  }

  /** post_turn tells the candidate exactly what the interviewer produced. */
  lemma WordsAreAnswered(sh: Shell, w: World, text: string)
    requires SessionInvariant(sh, w) && AwaitsCandidate(w.state) && !SpeechOverflows(sh, w, text)
    ensures AnsweredSo(sh, w, text, PostTurn(sh, w, text))
  {
    hide Transition, Drive, Asked, RequestOf;
    OnlyRestAwaits(sh, w);
    assert Loaded(w) == w;
    var (spoken, e) := Spoken(sh, w, text);
    var t := Next(spoken.state, e, sh.config);
    if t.phase == Close {
      ClosedDrive(sh, spoken, e, 0, 1);
      HeardLast(spoken.transcript, Entry(SystemRole, sh.closing(t.plan), PendingTurn(t)));
    } else {
      AnsweredDrive(sh, spoken, e, 0, 1);
      var (wire, reply) := Asked(sh, spoken.wire, spoken.ticks, PendingTurn(t),
                                 RequestOf(spoken.(state := t), t.turn.pending.value), true);
      HeardLast(spoken.transcript, Entry(InterviewerRole, if reply.Said? then reply.text else "", PendingTurn(t)));
    }
  }

  // ---------- one scheduled assessment ----------

  /** What the assessor made of its turn, as the machine is to be told. */
  function Finding(turn: TurnId, result: AgentResult<AssessorOutput>): Event
  {
    if result.Produced? then AssessmentCompleted(turn, result.output, 0) else AssessmentFailed(turn, "", 0)
  }

  /** What a task comes to: nothing once the session has ended; the end, when the ceiling is
      reached; the error of a request too long; or exactly what the assessor produced, folded in,
      and a failure mark exactly when it produced nothing. */
  ghost predicate ToldSo(sh: Shell, w: World, k: nat, d: Driven)
    requires k < |w.tasks|
  {
    var task := w.tasks[k];
    var (wire, result) := AssessorTurn(w.wire, sh.env, sh.settings, task.turnId, w.state.info.id, task.focus,
                                       AssessorPayload(task.focus, task.inputs));
    if OverCeiling(sh, w.wire, w.ticks) then
      && d.Settled? && d.world.wire == w.wire
      && (if Terminal(w.state.phase) then d.world.state == w.state
          else d.world.state.phase == Aborted && d.world.state.abortReason == Some(CostCeiling))
    else if result.Oversized? then d.Crashed? && d.world.state == w.state && d.world.wire == w.wire
    else
      && d.Settled? && d.world.wire == wire
      && d.world.state == (if Terminal(w.state.phase) then w.state
                           else Landed(w.state, Finding(task.turnId, result), sh.config))
  }

  /** An event whose commands are inert ends the drive. */
  lemma InertDrive(sh: Shell, m: World, e: Event, t: SessionState, cs: seq<Command>, steps: nat, widest: nat)
    requires steps < MAX_DRIVE_STEPS && Transition(m.state, e, sh.config) == Stepped(t, cs) && AllInert(cs)
    ensures
      var d := Drive(sh, m, [e], steps, widest);
      d.Settled? && d.world.state == t && d.world.wire == m.wire
  {
    hide Transition, Drive;
    DriveOne(sh, m, e, t, cs, steps, widest);
    InertDoesNothing(sh, Persisted(m.(state := t)), cs);
    SettledDrive(sh, Handled(sh, m, t, cs).world, steps + 1, Wider(widest, 0));
  }

  lemma FindingDrive(sh: Shell, m: World, turn: TurnId, result: AgentResult<AssessorOutput>, now: Time, steps: nat,
                     widest: nat)
    requires !result.Oversized? && steps < MAX_DRIVE_STEPS
    ensures
      var d := Drive(sh, m, [AssessorEvent(turn, result, now)], steps, widest);
      && d.Settled? && d.world.wire == m.wire
      && d.world.state == (if Terminal(m.state.phase) then m.state
                           else Landed(m.state, Finding(turn, result), sh.config))
  {
    hide Drive;
    var e := AssessorEvent(turn, result, now);
    if Terminal(m.state.phase) {
      InertDrive(sh, m, e, m.state, [], steps, widest);
    } else {
      AssessorStep(m.state, e, sh.config);
      var step := Transition(m.state, e, sh.config);
      InertDrive(sh, m, e, step.state, step.commands, steps, widest);
    }
  }

  lemma CeilingStops(sh: Shell, m: World, now: Time, steps: nat, widest: nat)
    requires steps < MAX_DRIVE_STEPS
    ensures
      var d := Drive(sh, m, [OperatorAbort(CostCeiling, now)], steps, widest);
      && d.Settled? && d.world.wire == m.wire
      && (if Terminal(m.state.phase) then d.world.state == m.state
          else d.world.state.phase == Aborted && d.world.state.abortReason == Some(CostCeiling))
  {
    hide Drive;
    var e := OperatorAbort(CostCeiling, now);
    var step := Transition(m.state, e, sh.config);
    if Terminal(m.state.phase) {
      InertDrive(sh, m, e, m.state, [], steps, widest);
    } else {
      LastOfDrive(sh, m, e, step.state, step.commands, RecordDecision(ByOperator), steps, widest);
    }
  }

  lemma TasksAreTold(sh: Shell, w: World, k: nat)
    requires SessionInvariant(sh, w) && k < |w.tasks| && !w.tasks[k].done
    ensures ToldSo(sh, w, k, RunTask(sh, w, k))
  {
    hide Drive, Transition, Landed, AgentTurn, Invariant;
    var marked, task := w.(tasks := Marked(w.tasks, k)), w.tasks[k];
    AssessorCallAnswers(sh, marked, task);
    var done := RunAssessorCall(sh, marked, task);
    if !done.escaped {
      assert Loaded(done.world) == done.world && done.events == [done.events[0]];
      if OverCeiling(sh, w.wire, w.ticks) {
        CeilingStops(sh, done.world, Now(sh, marked), 0, 1);
      } else {
        var result := AssessorTurn(w.wire, sh.env, sh.settings, task.turnId, w.state.info.id, task.focus,
                                   AssessorPayload(task.focus, task.inputs)).1;
        FindingDrive(sh, done.world, task.turnId, result, Now(sh, marked), 0, 1);
      }
    }
  }

  // ---------- whole sessions: what was said ----------

  /** Some reply of the backend, among the first `calls`, carries this utterance. */
  ghost predicate Uttered(env: Env, text: string, calls: nat)
  {
    exists n: nat, move: Move :: n < calls && env.attempts(n).Reply?
                                 && env.attempts(n).raw.payload == OnSchema(InterviewerBody(text, move))
  }

  ghost predicate AllUttered(env: Env, entries: seq<Entry>, calls: nat)
  {
    forall k :: 0 <= k < |entries| && entries[k].role == InterviewerRole ==> Uttered(env, entries[k].text, calls)
  }

  lemma StillUttered(env: Env, entries: seq<Entry>, calls: nat, more: nat)
    requires AllUttered(env, entries, calls) && calls <= more
    ensures AllUttered(env, entries, more)
  {
    forall k | 0 <= k < |entries| && entries[k].role == InterviewerRole
      ensures Uttered(env, entries[k].text, more)
    {
      var n: nat, move: Move :| n < calls && env.attempts(n).Reply?
                                && env.attempts(n).raw.payload == OnSchema(InterviewerBody(entries[k].text, move));
      assert n < more;
    }
  }

  lemma OneMoreUttered(env: Env, entries: seq<Entry>, e: Entry, calls: nat)
    requires AllUttered(env, entries, calls) && (e.role == InterviewerRole ==> Uttered(env, e.text, calls))
    ensures AllUttered(env, entries + [e], calls)
  {
  }

  lemma {:induction false} AskedUtters(sh: Shell, wire: Wire, ticks: nat, turn: TurnId, payload: Json, again: bool)
    ensures
      var (after, reply) := Asked(sh, wire, ticks, turn, payload, again);
      wire.generates <= after.generates && (reply.Said? ==> Uttered(sh.env, reply.text, after.generates))
    decreases again
  {
    hide AgentTurn;
    if !OverCeiling(sh, wire, ticks) {
      InterviewerTurnSpan(wire, sh.env, sh.settings, turn, payload);
      var (after, result) := InterviewerTurn(wire, sh.env, sh.settings, turn, payload);
      if result.Produced? {
        var o := result.output;
        assert Returns(wire, after, sh.env, InterviewerBody(o.utterance, o.moveExecuted));
        assert sh.env.attempts(after.generates - 1).raw.payload
            == OnSchema(InterviewerBody(o.utterance, o.moveExecuted));
      } else if again {
        AskedUtters(sh, after, ticks + 1, turn, payload, false);
      }
    }
  }

  lemma WordsUtter(sh: Shell, w: World, text: string)
    requires SessionInvariant(sh, w) && AwaitsCandidate(w.state) && !SpeechOverflows(sh, w, text)
    requires AllUttered(sh.env, w.transcript, w.wire.generates)
    ensures
      var p := PostTurn(sh, w, text);
      p.Replied? && AllUttered(sh.env, p.world.transcript, p.world.wire.generates)
  {
    hide Transition, Drive, Asked, RequestOf, SessionInvariant, Uttered, SpeechOverflows, PostTurn;
    WordsAreAnswered(sh, w, text);
    var p := PostTurn(sh, w, text);
    var (spoken, e) := Spoken(sh, w, text);
    var t := Next(spoken.state, e, sh.config);
    OneMoreUttered(sh.env, w.transcript, Last(spoken.transcript), w.wire.generates);
    if t.phase == Close {
      OneMoreUttered(sh.env, spoken.transcript, Last(p.world.transcript), w.wire.generates);
    } else {
      var payload := RequestOf(spoken.(state := t), t.turn.pending.value);
      var (wire, reply) := Asked(sh, spoken.wire, spoken.ticks, PendingTurn(t), payload, true);
      AskedUtters(sh, spoken.wire, spoken.ticks, PendingTurn(t), payload, true);
      StillUttered(sh.env, spoken.transcript, w.wire.generates, wire.generates);
      if reply.Said? {
        OneMoreUttered(sh.env, spoken.transcript, Entry(InterviewerRole, reply.text, PendingTurn(t)), wire.generates);
      }
    }
  }

  lemma StuckUtters(sh: Shell, w: World, text: string)
    requires SessionInvariant(sh, w) && AwaitsCandidate(w.state) && SpeechOverflows(sh, w, text)
    requires AllUttered(sh.env, w.transcript, w.wire.generates)
    ensures
      var p := PostTurn(sh, w, text);
      p.Broken? && p.driven.Crashed?
      && AllUttered(sh.env, p.driven.world.transcript, p.driven.world.wire.generates)
  {
    hide Transition, Drive, Uttered, SpeechOverflows, PostTurn;
    OnlyRestAwaits(sh, w);
    var v := SpeakOutcome(sh, w, text);
    var spoken := Spoken(sh, w, text).0;
    OneMoreUttered(sh.env, w.transcript, Last(spoken.transcript), w.wire.generates);
    StillUttered(sh.env, spoken.transcript, w.wire.generates, v.wire.generates);
  }

  /** What an operation leaves has been uttered. */
  ghost predicate LeavesUttered(sh: Shell, p: Performance)
  {
    !p.Lost? && AllUttered(sh.env, p.world.transcript, p.world.wire.generates)
  }

  lemma OpUtters(sh: Shell, w: World, op: Op)
    requires SessionInvariant(sh, w) && AllUttered(sh.env, w.transcript, w.wire.generates)
    ensures LeavesUttered(sh, Perform(sh, w, op))
  {
    hide Drive, AllUttered, SpeechOverflows, RunTask, Bookkept, Invariant;
    if op.Assess? {
      if op.task < |w.tasks| {
        TaskKeeps(sh, w, op.task);
        var d := RunTask(sh, w, op.task);
        StillUttered(sh.env, w.transcript, w.wire.generates, d.world.wire.generates);
      }
    } else if !AwaitsCandidate(w.state) {
      OnlyRestAwaits(sh, w);
      assert Loaded(w) == w;
    } else if SpeechOverflows(sh, w, op.text) {
      hide PostTurn;
      StuckUtters(sh, w, op.text);
    } else {
      hide PostTurn;
      WordsUtter(sh, w, op.text);
    }
  }

  /** In every session, what the transcript gives as the interviewer's is, to the letter, what some
      reply of the backend has carried. */
  lemma {:induction false} InterviewersSayTheirReplies(sh: Shell, id: nat, plan: RawPlan, ops: seq<Op>)
    ensures
      var w := Session(sh, id, plan, ops);
      w.Some? && AllUttered(sh.env, w.value.transcript, w.value.wire.generates)
    decreases |ops|
  {
    hide AllUttered, Perform;
    if ops == [] {
      OpeningUtters(sh, id, plan);
    } else {
      InterviewersSayTheirReplies(sh, id, plan, Front(ops));
      SessionsAreSafe(sh, id, plan, Front(ops));
      OpUtters(sh, Session(sh, id, plan, Front(ops)).value, Last(ops));
    }
  }

  lemma OpeningUtters(sh: Shell, id: nat, plan: RawPlan)
    ensures
      var d := Create(sh, id, plan);
      d.Settled? && AllUttered(sh.env, d.world.transcript, d.world.wire.generates)
  {
    hide Drive, Uttered;
    CreateHolds(sh, id, plan);
  }
}
