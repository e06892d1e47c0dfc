/** Whole sessions of the shell: any series of candidate turns and scheduled assessor tasks
    after create_session, whatever the agents, the clock and the ceiling do. */
module DevSessionRuns {
  import opened Common
  import opened InterviewPlan
  import opened RequestPayload
  import opened StateMachine
  import opened MachineInvariant
  import opened MachineBounds
  import opened ModelCall
  import opened ModelCallProperties
  import opened DevSession
  import opened DevSessionDrive
  import opened DevSessionTranscript

  // ---------- what every session keeps ----------

  /** Task j belongs to one candidate entry: it was given what the transcript said when
      that entry was the last. */
  predicate TaskFits(sessionId: nat, entries: seq<Entry>, t: Task)
  {
    && t.turnId.CandidateTurn? && t.turnId.session == sessionId
    && 2 * t.turnId.ordinal + 2 <= |entries|
    && t.inputs == InputsFrom(entries[..2 * t.turnId.ordinal + 2])
  }

  ghost predicate TasksFit(id: nat, entries: seq<Entry>, tasks: seq<Task>)
  {
    && (forall j :: 0 <= j < |tasks| ==> TaskFits(id, entries, tasks[j]))
    && (forall i, j :: 0 <= i < j < |tasks| ==> tasks[i].turnId.ordinal < tasks[j].turnId.ordinal)
    && 2 * |tasks| <= |entries|
  }

  /** At most four rows for a machine turn below `issued`, and two for the turn of a task
      that has run; none for a turn not handed out or a task not yet run. */
  ghost predicate RowsFit(id: nat, log: seq<Write>, issued: nat, tasks: seq<Task>, spoken: nat)
  {
    && (forall n: nat :: RowsOf(log, MachineTurn(id, n)) <= if n < issued then 4 else 0)
    && (forall j :: 0 <= j < |tasks| ==> RowsOf(log, tasks[j].turnId) <= if tasks[j].done then 2 else 0)
    && (forall n: nat :: spoken <= n ==> RowsOf(log, CandidateTurn(id, n)) == 0)
  }

  /** The rows and backend calls of the whole session. */
  ghost predicate WireFits(wire: Wire, tasks: seq<Task>, spoken: nat)
  {
    && |wire.log| <= 4 * spoken + 2 * Count(tasks, IsDone)
    && wire.generates <= 12 * spoken + 6 * Count(tasks, IsDone)
  }

  /** The TECH turns a plan payload allows. */
  function PlanTurns(plan: RawPlan, c: Config): nat
  {
    if ValidatePlan(plan).Some? then TurnsFrom(ValidatePlan(plan).value, 0, c) else 0
  }

  /** The opening script, filled in from the plan. */
  function OpeningOf(sh: Shell, info: Info): string
  {
    sh.opening(ValidatePlan(info.planInput))
  }

  function ClosingOf(sh: Shell, info: Info): string
  {
    sh.closing(ValidatePlan(info.planInput))
  }

  /** Waiting for the candidate or ended; or stuck on a request that does not fit. */
  ghost predicate Standing(sh: Shell, w: World)
  {
    Rested(sh, w) || Stalled(sh, w)
  }

  /** The candidate has had an answer to everything said, unless the session has ended. */
  predicate InTurn(w: World)
  {
    !Terminal(w.state.phase) ==> |w.transcript| % 2 == if AtRest(w.state) then 1 else 0
  }

  /** The transcript, and the assessor tasks and trace rows that go with it. */
  ghost predicate Bookkept(sh: Shell, w: World)
  {
    var id, spoken := w.state.info.id, |w.transcript| / 2;
    && Alternates(OpeningOf(sh, w.state.info), id, w.transcript)
    && InTurn(w)
    && TasksFit(id, w.transcript, w.tasks)
    && RowsFit(id, w.wire.log, w.state.turn.number, w.tasks, spoken)
    && WireFits(w.wire, w.tasks, spoken)
  }

  /** One decision row once the session has ended, and none before. */
  predicate DecidedOnce(w: World)
  {
    && |w.decisions| == (if Terminal(w.state.phase) then 1 else 0)
    && (w.decisions != [] ==> w.decisions[0].abort == w.state.abortReason)
  }

  ghost predicate SessionInvariant(sh: Shell, w: World)
  {
    && Standing(sh, w) && w.state.phase != Created
    && Bookkept(sh, w)
    && |w.tasks| + TurnsLeft(w.state, sh.config) <= PlanTurns(w.state.info.planInput, sh.config)
    && DecidedOnce(w)
  }

  // ---------- a candidate turn ----------

  /** What the candidate's words always do: they put a move, or the closing, on the wire. */
  lemma CandidateTurnWakes(s: SessionState, e: Event, c: Config)
    requires Invariant(s, c) && AwaitsCandidate(s) && s.phase != Created && e.CandidateTurnReceived?
    ensures var step := Transition(s, e, c); step.Stepped? && !AtRest(step.state)
  {
    CandidateTurnKeeps(s, e.turnId, e.now, c);
  }

  ghost predicate TaskAdded(w: World, turn: TurnId, v: World)
  {
    && |v.tasks| == |w.tasks| + 1 && Front(v.tasks) == w.tasks
    && Last(v.tasks) == Task(turn, Last(v.tasks).focus, InputsFrom(w.transcript), false)
  }

  /** What a drive that begins with the candidate's entry adds to the world. */
  ghost predicate SpokenData(sh: Shell, w: World, turn: TurnId, v: World)
  {
    && v.state.info == w.state.info && v.state.turn.number == w.state.turn.number + 1
    && (v.tasks == w.tasks || TaskAdded(w, turn, v))
    && Spans(w.wire, v.wire, MachineTurn(w.state.info.id, w.state.turn.number), 2)
    && (if Terminal(v.state.phase)
        then
          || v.transcript == w.transcript
          || v.transcript == w.transcript + [Entry(SystemRole, ClosingOf(sh, v.state.info), PendingTurn(v.state))]
        else if AtRest(v.state)
        then SaidNext(w.transcript, v.transcript, MachineTurn(w.state.info.id, w.state.turn.number))
        else v.transcript == w.transcript)
  }

  /** From a world that ends in the candidate's entry to the end of the drive. */
  ghost predicate SpokenEffect(sh: Shell, w: World, turn: TurnId, v: World)
    requires PhaseInvariant(w.state, sh.config)
  {
    && Standing(sh, v) && v.state.phase != Created
    && |v.tasks| + TurnsLeft(v.state, sh.config) <= |w.tasks| + TurnsLeft(w.state, sh.config)
    && DecisionsKept(w, v)
    && SpokenData(sh, w, turn, v)
  }

  lemma WokenThenConcluded(sh: Shell, w: World, e: Event, done: Effect, v: World)
    requires Invariant(w.state, sh.config) && AtRest(w.state) && AwaitsCandidate(w.state)
    requires e.CandidateTurnReceived?
    requires Invariant(done.world.state, sh.config) && !AtRest(done.world.state)
    requires done.world.state.info == w.state.info
    requires TurnsLeft(done.world.state, sh.config) <= TurnsLeft(w.state, sh.config)
    requires done.world.state.turn.number == w.state.turn.number + 1
    requires Woken(sh, w, e, done.world.state, done) && !done.escaped && Concluded(sh, done.world, v)
    ensures SpokenEffect(sh, w, e.turnId, v)
  {
    hide TurnsLeft;
    var m := done.world;
    SpansCompose(w.wire, m.wire, v.wire, PendingTurn(m.state),
                 if m.state.phase == Close then 0 else 1, if Distance(m.state) == 2 then 1 else 0);
  }

  lemma WokenThenStalled(sh: Shell, w: World, e: Event, done: Effect)
    requires Invariant(w.state, sh.config) && AtRest(w.state) && AwaitsCandidate(w.state)
    requires e.CandidateTurnReceived?
    requires Invariant(done.world.state, sh.config) && done.world.state.info == w.state.info
    requires TurnsLeft(done.world.state, sh.config) <= TurnsLeft(w.state, sh.config)
    requires done.world.state.turn.number == w.state.turn.number + 1
    requires Woken(sh, w, e, done.world.state, done) && done.escaped
    ensures SpokenEffect(sh, w, e.turnId, done.world) && Stalled(sh, done.world)
  {
  }

  /** The step of the candidate's words. */
  ghost predicate SpokenStep(s: SessionState, e: Event, step: Step, c: Config)
    requires PhaseInvariant(s, c)
  {
    step.Stepped? && Settling(s, e, step, 2, c) && !AtRest(step.state)
  }

  lemma CandidateSteps(s: SessionState, e: Event, c: Config)
    requires Invariant(s, c) && AtRest(s) && AwaitsCandidate(s) && s.phase != Created && e.CandidateTurnReceived?
    ensures SpokenStep(s, e, Transition(s, e, c), c)
  {
    CandidateTurnWakes(s, e, c);
    AnyEventSettles(s, e, c);
  }

  /** How the drive of a candidate turn ends: stuck exactly when its request overflows. */
  ghost predicate SpokenDriven(
    sh: Shell, w: World, turn: TurnId, overflow: bool, d: Driven, steps: nat, widest: nat)
    requires PhaseInvariant(w.state, sh.config)
  {
    && (if overflow then d.Crashed? && Stalled(sh, d.world)
        else SettlesWithin(d, steps, widest, 3) && Rested(sh, d.world))
    && SpokenEffect(sh, w, turn, d.world)
  }

  lemma SpeakDrive(sh: Shell, w: World, e: Event, steps: nat, widest: nat)
    requires Invariant(w.state, sh.config) && AtRest(w.state) && AwaitsCandidate(w.state)
    requires w.state.phase != Created && e.CandidateTurnReceived?
    requires steps + 3 <= MAX_DRIVE_STEPS
    ensures SpokenDriven(sh, w, e.turnId, Overflows(sh, w, Next(w.state, e, sh.config)),
                         Drive(sh, w, [e], steps, widest), steps, widest)
  {
    hide Transition, Drive, SpokenStep, SpokenDriven, Overflows;
    CandidateSteps(w.state, e, sh.config);
    var step := Transition(w.state, e, sh.config);
    DriveOne(sh, w, e, step.state, step.commands, steps, widest);
    SpokenIsConcluded(sh, w, e, step, steps, widest);
  }

  lemma SpokenIsConcluded(sh: Shell, w: World, e: Event, step: Step, steps: nat, widest: nat)
    requires Invariant(w.state, sh.config) && AtRest(w.state) && AwaitsCandidate(w.state) && e.CandidateTurnReceived?
    requires SpokenStep(w.state, e, step, sh.config) && steps + 3 <= MAX_DRIVE_STEPS
    ensures SpokenDriven(sh, w, e.turnId, Overflows(sh, w, step.state),
                         Remainder(sh, w, step.state, step.commands, steps + 1, widest), steps, widest)
  {
    if Overflows(sh, w, step.state) {
      SpokenIsStuck(sh, w, e, step, steps, widest);
    } else {
      SpokenIsAnswered(sh, w, e, step, steps, widest);
    }
  }

  lemma SpokenIsStuck(sh: Shell, w: World, e: Event, step: Step, steps: nat, widest: nat)
    requires Invariant(w.state, sh.config) && AtRest(w.state) && AwaitsCandidate(w.state) && e.CandidateTurnReceived?
    requires SpokenStep(w.state, e, step, sh.config) && steps + 3 <= MAX_DRIVE_STEPS
    requires Overflows(sh, w, step.state)
    ensures SpokenDriven(sh, w, e.turnId, true,
                         Remainder(sh, w, step.state, step.commands, steps + 1, widest), steps, widest)
  {
    WakingStep(sh, w, e, step.state, step.commands);
    WokenThenStalled(sh, w, e, Handled(sh, w, step.state, step.commands));
  }

  lemma SpokenIsAnswered(sh: Shell, w: World, e: Event, step: Step, steps: nat, widest: nat)
    requires Invariant(w.state, sh.config) && AtRest(w.state) && AwaitsCandidate(w.state) && e.CandidateTurnReceived?
    requires SpokenStep(w.state, e, step, sh.config) && steps + 3 <= MAX_DRIVE_STEPS
    requires !Overflows(sh, w, step.state)
    ensures SpokenDriven(sh, w, e.turnId, false,
                         Remainder(sh, w, step.state, step.commands, steps + 1, widest), steps, widest)
  {
    var t, cs := step.state, step.commands;
    WokenDrive(sh, w, e, t, cs, steps + 1, widest);
    WokenIsSpoken(sh, w, e, Handled(sh, w, t, cs), Remainder(sh, w, t, cs, steps + 1, widest), steps, widest);
  }

  lemma WokenIsSpoken(sh: Shell, w: World, e: Event, done: Effect, d: Driven, steps: nat, widest: nat)
    requires Invariant(w.state, sh.config) && AtRest(w.state) && AwaitsCandidate(w.state)
    requires e.CandidateTurnReceived?
    requires Invariant(done.world.state, sh.config) && !AtRest(done.world.state)
    requires done.world.state.info == w.state.info
    requires TurnsLeft(done.world.state, sh.config) <= TurnsLeft(w.state, sh.config)
    requires done.world.state.turn.number == w.state.turn.number + 1
    requires Woken(sh, w, e, done.world.state, done) && !done.escaped
    requires AnsweredWithin(sh, done.world, d, steps + 1, widest, Distance(done.world.state))
    ensures SpokenDriven(sh, w, e.turnId, false, d, steps, widest)
  {
    WokenThenConcluded(sh, w, e, done, d.world);
  }

  lemma AlternationGrows(opening: string, id: nat, entries: seq<Entry>, e: Entry)
    requires Alternates(opening, id, entries) && entries != [] && EntryFits(id, e, |entries|)
    ensures Alternates(opening, id, entries + [e])
  {
  }

  lemma SpeakKeepsTranscript(sh: Shell, w: World, text: string, v: World)
    requires Alternates(OpeningOf(sh, w.state.info), w.state.info.id, w.transcript) && |w.transcript| % 2 == 1
    requires SpokenData(sh, Spoken(sh, w, text).0, Spoken(sh, w, text).1.turnId, v)
    ensures
      var spoken := Spoken(sh, w, text).0.transcript;
      && |spoken| == |w.transcript| + 1
      && Spoken(sh, w, text).1.turnId == CandidateTurn(w.state.info.id, |w.transcript| / 2)
      && |spoken| <= |v.transcript| <= |spoken| + 1 && v.transcript[..|spoken|] == spoken
      && Alternates(OpeningOf(sh, v.state.info), v.state.info.id, v.transcript)
      && InTurn(v)
  {
    var spoken, id, opening := Spoken(sh, w, text).0.transcript, w.state.info.id, OpeningOf(sh, w.state.info);
    CandidateEntriesAreHalf(opening, id, w.transcript);
    AlternationGrows(opening, id, w.transcript, Last(spoken));
    if |v.transcript| > |spoken| {
      assert v.transcript == spoken + [Last(v.transcript)];
      AlternationGrows(opening, id, spoken, Last(v.transcript));
    }
  }

  lemma TasksOutlive(id: nat, entries: seq<Entry>, longer: seq<Entry>, tasks: seq<Task>)
    requires TasksFit(id, entries, tasks) && |entries| <= |longer| && longer[..|entries|] == entries
    ensures TasksFit(id, longer, tasks)
  {
    forall j | 0 <= j < |tasks|
      ensures TaskFits(id, longer, tasks[j])
    {
      assert TaskFits(id, entries, tasks[j]);
      var m := 2 * tasks[j].turnId.ordinal + 2;
      assert longer[..m] == entries[..m];
    }
  }

  lemma TaskJoins(id: nat, entries: seq<Entry>, said: Entry, tasks: seq<Task>, t: Task)
    requires TasksFit(id, entries, tasks) && |entries| % 2 == 1
    requires t.turnId == CandidateTurn(id, |entries| / 2) && t.inputs == InputsFrom(entries + [said])
    ensures TasksFit(id, entries + [said], tasks + [t])
  {
    TasksOutlive(id, entries, entries + [said], tasks);
    assert (entries + [said])[..|entries| + 1] == entries + [said];
    assert TaskFits(id, entries + [said], t);
    forall j | 0 <= j < |tasks|
      ensures tasks[j].turnId.ordinal < t.turnId.ordinal
    {
      assert TaskFits(id, entries, tasks[j]);
    }
  }

  lemma NewTaskIsNotDone(tasks: seq<Task>, t: Task)
    requires !t.done
    ensures Count(tasks + [t], IsDone) == Count(tasks, IsDone)
  {
    assert Front(tasks + [t]) == tasks;
  }

  lemma SpeakKeepsTasks(id: nat, before: seq<Entry>, said: Entry, after: seq<Entry>, tasks: seq<Task>, more: seq<Task>)
    requires TasksFit(id, before, tasks) && |before| % 2 == 1
    requires |before| < |after| && after[..|before| + 1] == before + [said]
    requires
      || more == tasks
      || (&& more != [] && Front(more) == tasks
          && var inputs := InputsFrom(before + [said]);
             Last(more) == Task(CandidateTurn(id, |before| / 2), Last(more).focus, inputs, false))
    ensures TasksFit(id, after, more) && Count(more, IsDone) == Count(tasks, IsDone)
  {
    if more == tasks {
      assert after[..|before|] == before;
      TasksOutlive(id, before, after, tasks);
    } else {
      assert more == tasks + [Last(more)];
      TaskJoins(id, before, said, tasks, Last(more));
      TasksOutlive(id, before + [said], after, more);
      NewTaskIsNotDone(tasks, Last(more));
    }
  }

  lemma SpeakKeepsRows(id: nat, w: Wire, v: Wire, issued: nat, tasks: seq<Task>, more: seq<Task>, spoken: nat)
    requires RowsFit(id, w.log, issued, tasks, spoken)
    requires Spans(w, v, MachineTurn(id, issued), 2)
    requires forall j :: 0 <= j < |tasks| ==> tasks[j].turnId.CandidateTurn?
    requires || more == tasks
             || (&& more != [] && Front(more) == tasks
                 && Last(more).turnId == CandidateTurn(id, spoken) && !Last(more).done)
    ensures RowsFit(id, v.log, issued + 1, more, spoken + 1)
  {
    var turn := MachineTurn(id, issued);
    forall t: TurnId
      ensures if t == turn then RowsOf(v.log, t) <= RowsOf(w.log, t) + 4 else RowsOf(v.log, t) == RowsOf(w.log, t)
    {
      SpanRows(w, v, turn, 2, t);
    }
    forall j | 0 <= j < |more|
      ensures RowsOf(v.log, more[j].turnId) <= if more[j].done then 2 else 0
    {
      if j < |tasks| {
        assert more[j] == tasks[j];
      } else {
        assert more[j] == Last(more);
      }
    }
  }

  lemma DecisionsFit(w: World, v: World)
    requires DecidedOnce(w) && DecisionsKept(w, v) && (Terminal(w.state.phase) ==> v.state == w.state)
    ensures DecidedOnce(v)
  {
  }

  /** What a candidate turn leaves: at most one entry after the candidate's own, a reply if
      and only if the session has not ended, and at most four trace rows and twelve backend
      calls, all for the one machine turn it put out. */
  ghost predicate TurnTaken(w: World, text: string, v: World, utterance: Option<string>)
  {
    && v.state.info == w.state.info
    && |w.transcript| + 1 <= |v.transcript| <= |w.transcript| + 2
    && v.transcript[..|w.transcript|] == w.transcript
    && v.transcript[|w.transcript|] == Entry(CandidateRole, text, CandidateTurn(w.state.info.id, |w.transcript| / 2))
    && (utterance.Some? <==> !Terminal(v.state.phase) && AtRest(v.state))
    && (utterance.Some? ==> |v.transcript| == |w.transcript| + 2
                            && Last(v.transcript).role == InterviewerRole && Last(v.transcript).text == utterance.value)
    && Spans(w.wire, v.wire, MachineTurn(w.state.info.id, w.state.turn.number), 2)
  }

  lemma NewestIsHeard(before: seq<Entry>, after: seq<Entry>)
    requires |before| <= |after| <= |before| + 1
    ensures
      HeardSince(after, |before|)
      == if |after| > |before| && IsInterviewer(Last(after)) then Some(Last(after).text) else None
  {
    var more := after[|before|..];
    if |after| > |before| {
      assert more == [Last(after)] && Front(more) == [];
      assert LastWhere(Front(more), IsInterviewer) == None;
    } else {
      assert more == [];
    }
  }

  /** The transcript, the assessor tasks and the trace rows after a candidate turn. */
  lemma SpokenKeepsTasks(sh: Shell, w: World, text: string, v: World)
    requires Bookkept(sh, w) && |w.transcript| % 2 == 1
    requires SpokenData(sh, Spoken(sh, w, text).0, Spoken(sh, w, text).1.turnId, v)
    ensures TasksFit(v.state.info.id, v.transcript, v.tasks) && Count(v.tasks, IsDone) == Count(w.tasks, IsDone)
  {
    var id, n := w.state.info.id, |w.transcript| / 2;
    var said := Entry(CandidateRole, text, CandidateTurn(id, n));
    SpeakKeepsTranscript(sh, w, text, v);
    assert Spoken(sh, w, text).0.transcript == w.transcript + [said];
    SpeakKeepsTasks(id, w.transcript, said, v.transcript, w.tasks, v.tasks);
  }

  lemma SpokenKeepsRows(sh: Shell, w: World, text: string, v: World)
    requires Bookkept(sh, w) && |w.transcript| % 2 == 1
    requires SpokenData(sh, Spoken(sh, w, text).0, Spoken(sh, w, text).1.turnId, v)
    ensures RowsFit(v.state.info.id, v.wire.log, v.state.turn.number, v.tasks, |w.transcript| / 2 + 1)
  {
    var id, n := w.state.info.id, |w.transcript| / 2;
    CandidateEntriesAreHalf(OpeningOf(sh, w.state.info), id, w.transcript);
    TasksAreCandidates(id, w.transcript, w.tasks);
    SpeakKeepsRows(id, w.wire, v.wire, w.state.turn.number, w.tasks, v.tasks, n);
  }

  lemma SpokenKeepsBooks(sh: Shell, w: World, text: string, v: World)
    requires Bookkept(sh, w) && |w.transcript| % 2 == 1
    requires SpokenData(sh, Spoken(sh, w, text).0, Spoken(sh, w, text).1.turnId, v)
    ensures Bookkept(sh, v)
  {
    SpeakKeepsTranscript(sh, w, text, v);
    SpokenKeepsTasks(sh, w, text, v);
    SpokenKeepsRows(sh, w, text, v);
  }

  lemma TasksAreCandidates(id: nat, entries: seq<Entry>, tasks: seq<Task>)
    requires TasksFit(id, entries, tasks)
    ensures forall j :: 0 <= j < |tasks| ==> tasks[j].turnId.CandidateTurn?
  {
    forall j | 0 <= j < |tasks|
      ensures tasks[j].turnId.CandidateTurn?
    {
      assert TaskFits(id, entries, tasks[j]);
    }
  }

  lemma TurnIsTaken(sh: Shell, w: World, text: string, v: World)
    requires Bookkept(sh, w) && |w.transcript| % 2 == 1
    requires SpokenData(sh, Spoken(sh, w, text).0, Spoken(sh, w, text).1.turnId, v)
    ensures TurnTaken(w, text, v, HeardSince(v.transcript, |w.transcript| + 1))
    ensures !Terminal(v.state.phase) && !AtRest(v.state) ==> TurnTaken(w, text, v, None)
  {
    var spoken := Spoken(sh, w, text).0.transcript;
    SpeakKeepsTranscript(sh, w, text, v);
    NewestIsHeard(spoken, v.transcript);
    assert spoken[..|w.transcript|] == w.transcript;
    assert v.transcript[..|w.transcript|] == w.transcript;
    assert v.transcript[|w.transcript|] == v.transcript[..|spoken|][|w.transcript|];
  }

  lemma SpokenEffectKeeps(sh: Shell, w: World, text: string, v: World)
    requires SessionInvariant(sh, w) && AwaitsCandidate(w.state)
    requires SpokenEffect(sh, Spoken(sh, w, text).0, Spoken(sh, w, text).1.turnId, v)
    ensures SessionInvariant(sh, v)
    ensures TurnTaken(w, text, v, HeardSince(v.transcript, |w.transcript| + 1))
    ensures !Terminal(v.state.phase) && !AtRest(v.state) ==> TurnTaken(w, text, v, None)
  {
    hide TurnTaken, Alternates, RowsFit, WireFits, TasksFit;
    OnlyRestAwaits(sh, w);
    SpokenKeepsBooks(sh, w, text, v);
    TurnIsTaken(sh, w, text, v);
    DecisionsFit(w, v);
  }

  /** The candidate's words would put out a move whose request does not fit. */
  predicate SpeechOverflows(sh: Shell, w: World, text: string)
  {
    var (spoken, event) := Spoken(sh, w, text);
    Overflows(sh, spoken, Next(spoken.state, event, sh.config))
  }

  /** The turn the shell hands to the drive is taken: answered, or stuck on its request. */
  lemma SpeakOutcome(sh: Shell, w: World, text: string) returns (v: World)
    requires Rested(sh, w) && w.state.phase != Created && AwaitsCandidate(w.state)
    ensures PostTurn(sh, w, text)
         == if SpeechOverflows(sh, w, text) then Broken(Crashed(v))
            else Replied(v, HeardSince(v.transcript, |w.transcript| + 1))
    ensures SpokenEffect(sh, Spoken(sh, w, text).0, Spoken(sh, w, text).1.turnId, v)
    ensures if SpeechOverflows(sh, w, text) then Stalled(sh, v) else Rested(sh, v)
  {
    hide SpokenEffect, Transition;
    assert Loaded(w) == w;
    var (spoken, event) := Spoken(sh, w, text);
    SpeakDrive(sh, spoken, event, 0, 1);
    v := Drive(sh, spoken, [event], 0, 1).world;
  }

  lemma OnlyRestAwaits(sh: Shell, w: World)
    requires Standing(sh, w)
    ensures Stalled(sh, w) <==> !AtRest(w.state)
    ensures AwaitsCandidate(w.state) && w.state.phase != Created ==> Rested(sh, w)
    ensures !AwaitsCandidate(w.state) && w.state.phase != Created ==> Terminal(w.state.phase) || Stalled(sh, w)
  {
  }

  /** What post_turn answers and leaves. */
  ghost predicate PostKept(sh: Shell, w: World, text: string, p: Posted)
  {
    match p
    case NotAwaiting(v) => v == w && (Terminal(w.state.phase) || !AtRest(w.state))
    case Replied(v, utterance) =>
      && AtRest(w.state) && !Terminal(w.state.phase) && !SpeechOverflows(sh, w, text)
      && SessionInvariant(sh, v) && AtRest(v.state) && TurnTaken(w, text, v, utterance)
    case Broken(d) =>
      && AtRest(w.state) && !Terminal(w.state.phase) && SpeechOverflows(sh, w, text)
      && d.Crashed? && SessionInvariant(sh, d.world) && !AtRest(d.world.state) && TurnTaken(w, text, d.world, None)
  }

  /** post_turn is refused exactly when the session has ended or is stuck, and then changes
      nothing. Otherwise it fails, and the session is stuck from then on, exactly when the
      move it puts out does not fit a request; and if not it answers, with no utterance
      exactly when the session has ended. */
  lemma PostKeeps(sh: Shell, w: World, text: string)
    requires SessionInvariant(sh, w)
    ensures PostKept(sh, w, text, PostTurn(sh, w, text))
  {
    hide Drive, SpokenEffect, TurnTaken, SpeechOverflows, Bookkept, Invariant, DecidedOnce;
    OnlyRestAwaits(sh, w);
    if AwaitsCandidate(w.state) {
      var v := SpeakOutcome(sh, w, text);
      SpokenEffectKeeps(sh, w, text, v);
    } else {
      assert Loaded(w) == w;
    }
  }

  // ---------- a scheduled assessor task ----------

  predicate IsAssessorResult(e: Event)
  {
    e.AssessmentCompleted? || e.AssessmentFailed? || e.OperatorAbort?
  }

  /** A result, or the ceiling, says nothing to the candidate and waits for nothing. */
  ghost predicate SilentStepOf(s: SessionState, step: Step, c: Config)
    requires PhaseInvariant(s, c)
  {
    && Keeps(step, c)
    && (Terminal(step.state.phase)
        || (step.state.phase == s.phase && step.state.turn == s.turn && step.state.plan == s.plan))
    && step.state.info == s.info && step.state.turn.number == s.turn.number
    && (s.phase != Created ==> step.state.phase != Created)
    && TurnsLeft(step.state, c) <= TurnsLeft(s, c)
    && (if Terminal(step.state.phase) && !Terminal(s.phase)
        then exists r :: Does(step.commands, RecordDecision(r)) else AllInert(step.commands))
  }

  lemma ResultIsSilent(s: SessionState, e: Event, c: Config)
    requires Invariant(s, c) && IsAssessorResult(e)
    ensures SilentStepOf(s, Transition(s, e, c), c)
  {
    StepSpends(s, e, c);
  }

  /** The world after a task's drive. */
  ghost predicate TaskEffect(sh: Shell, w: World, v: World)
    requires PhaseInvariant(w.state, sh.config)
  {
    && Standing(sh, v)
    && v == w.(state := v.state, stored := v.stored, decisions := v.decisions)
    && (Terminal(v.state.phase) || AtRest(v.state) == AtRest(w.state))
    && v.state.info == w.state.info && v.state.turn.number == w.state.turn.number
    && v.state.phase != Created
    && TurnsLeft(v.state, sh.config) <= TurnsLeft(w.state, sh.config)
    && DecisionsKept(w, v)
    && (Terminal(w.state.phase) ==> v.state == w.state)
  }

  lemma SilentEffect(sh: Shell, w: World, t: SessionState, cs: seq<Command>)
    requires Standing(sh, w) && w.state.phase != Created
    requires SilentStepOf(w.state, Stepped(t, cs), sh.config)
    requires Terminal(w.state.phase) ==> t == w.state
    ensures Handled(sh, w, t, cs).events == [] && !Handled(sh, w, t, cs).escaped
    ensures TaskEffect(sh, w, Handled(sh, w, t, cs).world)
  {
    SilentStep(sh, w, t, cs);
    if Terminal(t.phase) && !Terminal(w.state.phase) {
      DecisionIsNotInert(cs);
    }
  }

  lemma DecisionIsNotInert(cs: seq<Command>)
    requires exists r :: Does(cs, RecordDecision(r))
    ensures !AllInert(cs)
  {
    var r :| Does(cs, RecordDecision(r));
    assert !Inert(cs[if cs[0] == RecordDecision(r) then 0 else 1]);
  }

  lemma ResultDrive(sh: Shell, w: World, e: Event, steps: nat, widest: nat)
    requires Standing(sh, w) && w.state.phase != Created && IsAssessorResult(e)
    requires steps < MAX_DRIVE_STEPS
    ensures SettlesWithin(Drive(sh, w, [e], steps, widest), steps, widest, 1)
    ensures TaskEffect(sh, w, Drive(sh, w, [e], steps, widest).world)
  {
    hide TaskEffect, SilentStepOf, Handled;
    ResultIsSilent(w.state, e, sh.config);
    var step := Transition(w.state, e, sh.config);
    DriveOne(sh, w, e, step.state, step.commands, steps, widest);
    SilentEffect(sh, w, step.state, step.commands);
  }

  /** Scoring raises: the ceiling does not stop it, and its request cannot be built. */
  predicate ScoringOverflows(sh: Shell, w: World, task: Task)
  {
    !CeilingBreached(sh, w) && !Fits(AssessorPayload(task.focus, task.inputs))
  }

  lemma AssessorCallAnswers(sh: Shell, w: World, task: Task)
    ensures
      var done := RunAssessorCall(sh, w, task);
      && done.escaped == ScoringOverflows(sh, w, task)
      && done.world == w.(wire := done.world.wire, ticks := w.ticks + 1)
      && (if done.escaped then done.world.wire == w.wire
          else |done.events| == 1 && IsAssessorResult(done.events[0]) && Spans(w.wire, done.world.wire, task.turnId, 1))
  {
    var payload := AssessorPayload(task.focus, task.inputs);
    AssessorEchoesItsRequest(w.wire, sh.env, sh.settings, task.turnId, w.state.info.id, task.focus, payload);
  }

  /** What running the k-th task leaves: at most two trace rows and six backend calls, all
      for its turn, and nothing added to the transcript. */
  ghost predicate TaskTaken(sh: Shell, w: World, k: nat, v: World)
    requires PhaseInvariant(w.state, sh.config) && k < |w.tasks|
  {
    && Standing(sh, v)
    && (Terminal(v.state.phase) || AtRest(v.state) == AtRest(w.state))
    && v.tasks == Marked(w.tasks, k)
    && v.transcript == w.transcript
    && v.state.info == w.state.info && v.state.turn.number == w.state.turn.number
    && v.state.phase != Created
    && TurnsLeft(v.state, sh.config) <= TurnsLeft(w.state, sh.config)
    && DecisionsKept(w, v)
    && (Terminal(w.state.phase) ==> v.state == w.state)
    && Spans(w.wire, v.wire, w.tasks[k].turnId, 1)
  }

  lemma TaskOutcome(sh: Shell, w: World, k: nat) returns (v: World)
    requires Standing(sh, w) && w.state.phase != Created && k < |w.tasks| && !w.tasks[k].done
    ensures
      var d := RunTask(sh, w, k);
      && (d.Settled? || d.Crashed?) && d.world == v
      && d.Crashed? == ScoringOverflows(sh, w, w.tasks[k])
      && (d.Crashed? ==> v.state == w.state && v.stored == w.stored)
    ensures TaskTaken(sh, w, k, v)
  {
    hide Transition, AssessorPayload, Handled, TurnsLeft, SilentStepOf, AssessorTurn;
    var marked := w.(tasks := Marked(w.tasks, k));
    AssessorCallAnswers(sh, marked, w.tasks[k]);
    var done := RunAssessorCall(sh, marked, w.tasks[k]);
    if done.escaped {
      v := done.world;
    } else {
      var called := done.world;
      assert Loaded(called) == called && done.events == [done.events[0]];
      ResultDrive(sh, called, done.events[0], 0, 1);
      v := Drive(sh, called, done.events, 0, 1).world;
    }
  }

  lemma TaskKeepsTasks(id: nat, entries: seq<Entry>, tasks: seq<Task>, k: nat)
    requires TasksFit(id, entries, tasks) && k < |tasks|
    ensures TasksFit(id, entries, Marked(tasks, k))
  {
    var after := Marked(tasks, k);
    forall j | 0 <= j < |after|
      ensures TaskFits(id, entries, after[j]) && after[j].turnId == tasks[j].turnId
    {
      assert TaskFits(id, entries, tasks[j]);
    }
    forall i, j | 0 <= i < j < |after|
      ensures after[i].turnId.ordinal < after[j].turnId.ordinal
    {
      assert after[i].turnId == tasks[i].turnId && after[j].turnId == tasks[j].turnId;
    }
  }

  lemma TaskKeepsRows(id: nat, entries: seq<Entry>, w: Wire, v: Wire, issued: nat, tasks: seq<Task>, k: nat)
    requires TasksFit(id, entries, tasks) && k < |tasks| && !tasks[k].done
    requires RowsFit(id, w.log, issued, tasks, |entries| / 2)
    requires Spans(w, v, tasks[k].turnId, 1)
    ensures RowsFit(id, v.log, issued, Marked(tasks, k), |entries| / 2)
  {
    var turn, after := tasks[k].turnId, Marked(tasks, k);
    assert TaskFits(id, entries, tasks[k]);
    forall t: TurnId
      ensures if t == turn then RowsOf(v.log, t) <= RowsOf(w.log, t) + 2 else RowsOf(v.log, t) == RowsOf(w.log, t)
    {
      SpanRows(w, v, turn, 1, t);
    }
    forall j | 0 <= j < |after|
      ensures RowsOf(v.log, after[j].turnId) <= if after[j].done then 2 else 0
    {
      assert TaskFits(id, entries, tasks[j]);
      if j != k {
        assert tasks[j].turnId.ordinal != tasks[k].turnId.ordinal;
      }
    }
  }

  lemma TaskKeepsBooks(sh: Shell, w: World, k: nat, v: World)
    requires Bookkept(sh, w) && k < |w.tasks| && !w.tasks[k].done
    requires v.tasks == Marked(w.tasks, k) && v.transcript == w.transcript
    requires v.state.info == w.state.info && v.state.turn.number == w.state.turn.number
    requires Terminal(v.state.phase) || (AtRest(v.state) == AtRest(w.state) && !Terminal(w.state.phase))
    requires Spans(w.wire, v.wire, w.tasks[k].turnId, 1)
    ensures Bookkept(sh, v)
  {
    var id := w.state.info.id;
    TaskKeepsTasks(id, w.transcript, w.tasks, k);
    TaskKeepsRows(id, w.transcript, w.wire, v.wire, w.state.turn.number, w.tasks, k);
    DoneOnceMore(w.tasks, k);
  }

  lemma TaskTakenKeeps(sh: Shell, w: World, k: nat, v: World)
    requires SessionInvariant(sh, w) && k < |w.tasks| && !w.tasks[k].done
    requires TaskTaken(sh, w, k, v)
    ensures SessionInvariant(sh, v)
  {
    TaskKeepsBooks(sh, w, k, v);
    DecisionsFit(w, v);
  }

  /** What a scheduled assessment leaves, however it ends. */
  ghost predicate TaskKept(sh: Shell, w: World, k: nat, d: Driven)
    requires k < |w.tasks|
  {
    && (d.Settled? || d.Crashed?) && SessionInvariant(sh, d.world)
    && (d.Crashed? <==> !w.tasks[k].done && ScoringOverflows(sh, w, w.tasks[k]))
    && (d.Crashed? ==> d.world.state == w.state)
    && d.world.transcript == w.transcript && d.world.state.info == w.state.info
    && d.world.tasks == Marked(w.tasks, k)
    && Spans(w.wire, d.world.wire, w.tasks[k].turnId, 1)
    && (Terminal(d.world.state.phase) || AtRest(d.world.state) == AtRest(w.state))
  }

  /** A scheduled assessment never disturbs the conversation, and writes at most two rows and
      makes at most six backend calls, all for its turn. It fails exactly when its own
      request does not fit, and then the machine never hears of it. */
  lemma TaskKeeps(sh: Shell, w: World, k: nat)
    requires SessionInvariant(sh, w) && k < |w.tasks|
    ensures TaskKept(sh, w, k, RunTask(sh, w, k))
  {
    hide ScoringOverflows, Bookkept, Invariant;
    if !w.tasks[k].done {
      var v := TaskOutcome(sh, w, k);
      TaskTakenKeeps(sh, w, k, v);
    }
  }

  // ---------- creation ----------

  /** The step of SessionStarted out of the initial state. */
  ghost predicate Started(s: SessionState, step: Step, c: Config)
  {
    && Keeps(step, c) && step.state.info == s.info && AtRest(step.state)
    && step.state.turn.number <= 1
    && TurnsLeft(step.state, c) <= PlanTurns(s.info.planInput, c)
    && (if ValidatePlan(s.info.planInput).Some?
        then step.state.phase == Intro && Does(step.commands, Send(EmitScriptedOpening(MachineTurn(s.info.id, 0))))
        else step.state.phase == Aborted && Does(step.commands, RecordDecision(PlanRejected)))
  }

  lemma StartSteps(s: SessionState, now: Time, c: Config)
    requires s == InitialState(s.info.id, s.info.planInput, c)
    ensures Started(s, Transition(s, SessionStarted(now), c), c)
  {
    StepSpends(s, SessionStarted(now), c);
  }

  /** Nothing but the opening has been said, and nothing decided. */
  predicate OpeningSaid(sh: Shell, v: World)
  {
    var info := v.state.info;
    v.transcript == [Entry(SystemRole, OpeningOf(sh, info), MachineTurn(info.id, 0))] && v.decisions == []
  }

  lemma StartHandled(sh: Shell, w: World, t: SessionState, cs: seq<Command>)
    requires Started(w.state, Stepped(t, cs), sh.config)
    requires w.transcript == [] && w.decisions == []
    ensures
      var done := Handled(sh, w, t, cs);
      var v := done.world;
      && done.events == [] && !done.escaped && Rested(sh, v)
      && v.state == t && v.tasks == w.tasks && v.wire == w.wire
      && (if t.phase == Intro then OpeningSaid(sh, v)
          else v.transcript == [] && |v.decisions| == 1 && v.decisions[0].abort == t.abortReason)
  {
    var start := Persisted(w.(state := t));
    if t.phase == Intro {
      OneCommand(sh, start, cs, Send(EmitScriptedOpening(MachineTurn(t.info.id, 0))));
    } else {
      OneCommand(sh, start, cs, RecordDecision(PlanRejected));
    }
  }

  lemma StartIsSound(sh: Shell, v: World)
    requires Rested(sh, v) && v.tasks == [] && v.wire == Wire(0, [], 0.0)
    requires TurnsLeft(v.state, sh.config) <= PlanTurns(v.state.info.planInput, sh.config)
    requires
      if v.state.phase == Intro then OpeningSaid(sh, v)
      else
        && v.state.phase == Aborted && v.transcript == [] && |v.decisions| == 1
        && v.decisions[0].abort == v.state.abortReason
    ensures SessionInvariant(sh, v)
  {
  }

  /** The plan contract, field by field. */
  predicate Startable(plan: RawPlan)
  {
    && plan.Shaped?
    && plan.plan.version > 0 && plan.plan.qaMinutes > -1 && plan.plan.sessionMaxMinutes > 0
    && plan.plan.competencies != []
    && forall x :: x in plan.plan.competencies ==>
         && x.nodeId != "" && x.labelUk != ""
         && x.targetLevel in {1, 2, 3, 4, 5} && x.minutes > 0
         && x.seeds != [] && "" !in x.seeds && "" !in x.probes
  }

  lemma StartableIsValid(plan: RawPlan)
    ensures ValidatePlan(plan).Some? <==> Startable(plan)
  {
    if plan.Shaped? {
      var cs := plan.plan.competencies;
      forall x | x in cs
        ensures x.Valid() <==> && x.nodeId != "" && x.labelUk != "" && x.targetLevel in {1, 2, 3, 4, 5}
                               && x.minutes > 0 && x.seeds != [] && "" !in x.seeds && "" !in x.probes
      {
        assert "" in x.seeds ==> exists k :: 0 <= k < |x.seeds| && |x.seeds[k]| == 0;
        assert "" in x.probes ==> exists k :: 0 <= k < |x.probes| && |x.probes[k]| == 0;
        assert forall k :: 0 <= k < |x.seeds| && |x.seeds[k]| == 0 ==> x.seeds[k] == "";
        assert forall k :: 0 <= k < |x.probes| && |x.probes[k]| == 0 ==> x.probes[k] == "";
      }
      assert (forall k :: 0 <= k < |cs| ==> cs[k].Valid()) <==> (forall x :: x in cs ==> x.Valid());
    }
  }

  /** create_session: the scripted opening and INTRO for a valid plan; a session already
      ABORTED, with an empty transcript, for any other. */
  lemma CreateHolds(sh: Shell, id: nat, plan: RawPlan)
    ensures
      var d := Create(sh, id, plan);
      && d.Settled? && d.steps == 1
      && SessionInvariant(sh, d.world)
      && d.world.state.info == Info(sh.config.schemaVersion, id, plan)
      && (if ValidatePlan(plan).Some?
          then d.world.state.phase == Intro && |d.world.transcript| == 1
          else d.world.state.phase == Aborted && d.world.transcript == [])
      && (ValidatePlan(plan).Some? <==> Startable(plan))
  {
    StartableIsValid(plan);
    var w := Ticked(Persisted(Fresh(sh, id, plan)));
    var now := sh.clock(0);
    StartSteps(w.state, now, sh.config);
    var step := Transition(w.state, SessionStarted(now), sh.config);
    var t, cs := step.state, step.commands;
    DriveOne(sh, w, SessionStarted(now), t, cs, 0, 1);
    StartHandled(sh, w, t, cs);
    StartIsSound(sh, Handled(sh, w, t, cs).world);
  }

  // ---------- whole sessions ----------

  datatype Op = Speak(text: string) | Assess(task: nat)

  /** How one request, or one run of the scheduler, ends: as it should; with the error of a
      request that could not be built; or with one of the shell's own internal errors. */
  datatype Performance = Normal(world: World) | Errored(world: World) | Lost

  function EndOfPost(p: Posted): Performance
  {
    match p
    case NotAwaiting(v) => Normal(v)
    case Replied(v, _) => Normal(v)
    case Broken(d) => if d.Crashed? then Errored(d.world) else Lost
  }

  function EndOfDrive(d: Driven): Performance
  {
    match d
    case Settled(v, _, _) => Normal(v)
    case Crashed(v) => Errored(v)
    case _ => Lost
  }

  function Perform(sh: Shell, w: World, op: Op): Performance
  {
    match op
    case Speak(text) => EndOfPost(PostTurn(sh, w, text))
    case Assess(k) => if k >= |w.tasks| then Normal(w) else EndOfDrive(RunTask(sh, w, k))
  }

  /** The session goes on from the stored row, whether the last request failed or not. */
  function Session(sh: Shell, id: nat, plan: RawPlan, ops: seq<Op>): Option<World>
    decreases |ops|
  {
    if ops == [] then
      var d := Create(sh, id, plan);
      if d.Settled? then Some(d.world) else None
    else
      var before := Session(sh, id, plan, Front(ops));
      if before.None? then None else Onwards(Perform(sh, before.value, Last(ops)))
  }

  function Onwards(p: Performance): Option<World>
  {
    if p.Lost? then None else Some(p.world)
  }

  /** Nothing the operation asks of an agent is too long for a request. */
  predicate OpFits(sh: Shell, w: World, op: Op)
  {
    match op
    case Speak(text) => AwaitsCandidate(w.state) ==> !SpeechOverflows(sh, w, text)
    case Assess(k) => k < |w.tasks| && !w.tasks[k].done ==> !ScoringOverflows(sh, w, w.tasks[k])
  }

  /** Nothing said is ever taken back, and only a request that does not fit is an error. */
  ghost predicate Continues(sh: Shell, w: World, op: Op, p: Performance)
  {
    && !p.Lost? && SessionInvariant(sh, p.world)
    && (p.Errored? <==> !OpFits(sh, w, op))
    && p.world.state.info == w.state.info
    && |w.transcript| <= |p.world.transcript| && p.world.transcript[..|w.transcript|] == w.transcript
    && (AtRest(w.state) && !p.Errored? ==> AtRest(p.world.state))
  }

  lemma SpeakPerforms(sh: Shell, w: World, op: Op)
    requires SessionInvariant(sh, w) && op.Speak?
    ensures Continues(sh, w, op, Perform(sh, w, op))
  {
    hide PostTurn, SpeechOverflows, Invariant, Bookkept, DecidedOnce, Spans;
    PostKeeps(sh, w, op.text);
    OnlyRestAwaits(sh, w);
  }

  lemma AssessContinues(sh: Shell, w: World, k: nat, d: Driven)
    requires k < |w.tasks| && TaskKept(sh, w, k, d)
    ensures Continues(sh, w, Assess(k), EndOfDrive(d))
  {
    hide SessionInvariant, ScoringOverflows;
  }

  lemma AssessPerforms(sh: Shell, w: World, op: Op)
    requires SessionInvariant(sh, w) && op.Assess? && op.task < |w.tasks|
    ensures Continues(sh, w, op, Perform(sh, w, op))
  {
    hide RunTask, TaskKept, Continues;
    TaskKeeps(sh, w, op.task);
    AssessContinues(sh, w, op.task, RunTask(sh, w, op.task));
  }

  lemma PerformContinues(sh: Shell, w: World, op: Op)
    requires SessionInvariant(sh, w)
    ensures Continues(sh, w, op, Perform(sh, w, op))
  {
    if op.Speak? {
      SpeakPerforms(sh, w, op);
    } else if op.task < |w.tasks| {
      AssessPerforms(sh, w, op);
    } else {
      IdleContinues(sh, w, op);
    }
  }

  lemma IdleContinues(sh: Shell, w: World, op: Op)
    requires SessionInvariant(sh, w) && OpFits(sh, w, op)
    ensures Continues(sh, w, op, Normal(w))
  {
    hide SessionInvariant, OpFits;
  }

  /** A session that has lost nothing. */
  ghost predicate Safe(sh: Shell, info: Info, w: Option<World>)
  {
    w.Some? && SessionInvariant(sh, w.value) && w.value.state.info == info
  }

  lemma PerformKeeps(sh: Shell, w: World, op: Op)
    requires SessionInvariant(sh, w)
    ensures Safe(sh, w.state.info, Onwards(Perform(sh, w, op)))
  {
    PerformContinues(sh, w, op);
  }

  lemma CreateIsSafe(sh: Shell, id: nat, plan: RawPlan)
    ensures Safe(sh, Info(sh.config.schemaVersion, id, plan), Session(sh, id, plan, []))
  {
    CreateHolds(sh, id, plan);
  }

  lemma PerformSucceedsIffItFits(sh: Shell, w: World, op: Op)
    requires SessionInvariant(sh, w)
    ensures Perform(sh, w, op).Normal? <==> OpFits(sh, w, op)
    ensures AtRest(w.state) && OpFits(sh, w, op) ==> AtRest(Perform(sh, w, op).world.state)
  {
    PerformContinues(sh, w, op);
  }

  /** Any plan payload, any series of candidate turns and assessor tasks in any order: the
      safety valve never trips, the machine never raises, and every invariant of the session
      holds after each operation, also after one whose request did not fit. */
  lemma {:induction false} SessionsAreSafe(sh: Shell, id: nat, plan: RawPlan, ops: seq<Op>)
    ensures Safe(sh, Info(sh.config.schemaVersion, id, plan), Session(sh, id, plan, ops))
    decreases |ops|
  {
    if ops == [] {
      CreateIsSafe(sh, id, plan);
    } else {
      SessionsAreSafe(sh, id, plan, Front(ops));
      PerformKeeps(sh, Session(sh, id, plan, Front(ops)).value, Last(ops));
    }
  }

  /** The session before its k-th operation. */
  function Before(sh: Shell, id: nat, plan: RawPlan, ops: seq<Op>, k: nat): Option<World>
    requires k <= |ops|
  {
    Session(sh, id, plan, ops[..k])
  }

  /** Whether the k-th operation ends as it should. */
  predicate Succeeds(sh: Shell, id: nat, plan: RawPlan, ops: seq<Op>, k: nat)
    requires k < |ops|
  {
    Before(sh, id, plan, ops, k).Some? && Perform(sh, Before(sh, id, plan, ops, k).value, ops[k]).Normal?
  }

  predicate FitsAt(sh: Shell, id: nat, plan: RawPlan, ops: seq<Op>, k: nat)
    requires k < |ops|
  {
    Before(sh, id, plan, ops, k).Some? && OpFits(sh, Before(sh, id, plan, ops, k).value, ops[k])
  }

  lemma StepSucceedsIffItFits(sh: Shell, id: nat, plan: RawPlan, ops: seq<Op>, k: nat)
    requires k < |ops|
    ensures Succeeds(sh, id, plan, ops, k) <==> FitsAt(sh, id, plan, ops, k)
  {
    SessionsAreSafe(sh, id, plan, ops[..k]);
    PerformSucceedsIffItFits(sh, Session(sh, id, plan, ops[..k]).value, ops[k]);
  }

  /** The session fits: each request built on the way does. */
  ghost predicate AllFit(sh: Shell, id: nat, plan: RawPlan, ops: seq<Op>)
  {
    forall k :: 0 <= k < |ops| ==> FitsAt(sh, id, plan, ops, k)
  }

  lemma FittingFront(sh: Shell, id: nat, plan: RawPlan, ops: seq<Op>)
    requires ops != [] && AllFit(sh, id, plan, ops)
    ensures AllFit(sh, id, plan, Front(ops))
    ensures FitsAt(sh, id, plan, ops, |ops| - 1) && ops[..|ops| - 1] == Front(ops)
  {
    forall k | 0 <= k < |Front(ops)|
      ensures FitsAt(sh, id, plan, Front(ops), k)
    {
      assert ops[..k] == Front(ops)[..k] && FitsAt(sh, id, plan, ops, k);
    }
  }

  lemma {:induction false} FittingSessionsRest(sh: Shell, id: nat, plan: RawPlan, ops: seq<Op>)
    requires AllFit(sh, id, plan, ops)
    ensures Session(sh, id, plan, ops).Some? && AtRest(Session(sh, id, plan, ops).value.state)
    decreases |ops|
  {
    if ops == [] {
      CreateRests(sh, id, plan);
    } else {
      FittingFront(sh, id, plan, ops);
      FittingSessionsRest(sh, id, plan, Front(ops));
      SessionsAreSafe(sh, id, plan, Front(ops));
      PerformSucceedsIffItFits(sh, Session(sh, id, plan, Front(ops)).value, Last(ops));
    }
  }

  lemma CreateRests(sh: Shell, id: nat, plan: RawPlan)
    ensures Create(sh, id, plan).Settled? && AtRest(Create(sh, id, plan).world.state)
  {
    CreateHolds(sh, id, plan);
  }

  /** In any session every operation succeeds exactly when every request it builds fits; and
      a session all of whose requests fit is never stuck: it waits for the candidate or has
      ended. */
  lemma SessionsSettleIffRequestsFit(sh: Shell, id: nat, plan: RawPlan, ops: seq<Op>)
    ensures forall k :: 0 <= k < |ops| ==> (Succeeds(sh, id, plan, ops, k) <==> FitsAt(sh, id, plan, ops, k))
    ensures Session(sh, id, plan, ops).Some?
    ensures AllFit(sh, id, plan, ops) ==> AtRest(Session(sh, id, plan, ops).value.state)
  {
    forall k | 0 <= k < |ops|
      ensures Succeeds(sh, id, plan, ops, k) <==> FitsAt(sh, id, plan, ops, k)
    {
      StepSucceedsIffItFits(sh, id, plan, ops, k);
    }
    SessionsAreSafe(sh, id, plan, ops);
    if AllFit(sh, id, plan, ops) {
      FittingSessionsRest(sh, id, plan, ops);
    }
  }

  /** Candidate turn ids never repeat, in any session. */
  lemma CandidateTurnsAreDistinct(sh: Shell, id: nat, plan: RawPlan, ops: seq<Op>)
    ensures
      var w := Session(sh, id, plan, ops);
      && w.Some?
      && (forall i, j :: 0 <= i < j < |w.value.transcript|
            && IsCandidate(w.value.transcript[i]) && IsCandidate(w.value.transcript[j])
            ==> w.value.transcript[i].turnId != w.value.transcript[j].turnId)
  {
    SessionsAreSafe(sh, id, plan, ops);
    var entries := Session(sh, id, plan, ops).value.transcript;
    forall i, j | 0 <= i < j < |entries| && IsCandidate(entries[i]) && IsCandidate(entries[j])
      ensures entries[i].turnId != entries[j].turnId
    {
      assert EntryFits(id, entries[i], i) && EntryFits(id, entries[j], j);
    }
  }

  /** Retries compose: n candidate turns write at most 6n trace rows and make at most 18n
      backend calls, at most four rows for one machine turn and two for an assessed one;
      and whatever is said, a plan allows at most its seeds and probes to be assessed. */
  ghost predicate CostsBounded(id: nat, wire: Wire, tasks: seq<Task>, n: nat)
  {
    && |wire.log| <= 6 * n && wire.generates <= 18 * n
    && (forall k: nat :: RowsOf(wire.log, MachineTurn(id, k)) <= 4)
    && (forall j :: 0 <= j < |tasks| ==> RowsOf(wire.log, tasks[j].turnId) <= 2)
    && |tasks| <= n
  }

  lemma RowsBoundCosts(id: nat, entries: seq<Entry>, wire: Wire, issued: nat, tasks: seq<Task>)
    requires 2 * |tasks| <= |entries|
    requires RowsFit(id, wire.log, issued, tasks, |entries| / 2) && WireFits(wire, tasks, |entries| / 2)
    ensures CostsBounded(id, wire, tasks, |entries| / 2)
  {
    CountAtMost(tasks, IsDone);
  }

  lemma InvariantBoundsCosts(sh: Shell, w: World)
    requires SessionInvariant(sh, w)
    ensures CostsBounded(w.state.info.id, w.wire, w.tasks, CandidateEntries(w.transcript))
    ensures |w.tasks| <= PlanTurns(w.state.info.planInput, sh.config)
  {
    CandidateEntriesAreHalf(OpeningOf(sh, w.state.info), w.state.info.id, w.transcript);
    RowsBoundCosts(w.state.info.id, w.transcript, w.wire, w.state.turn.number, w.tasks);
  }

  lemma SessionCosts(sh: Shell, id: nat, plan: RawPlan, ops: seq<Op>)
    ensures
      var w := Session(sh, id, plan, ops);
      && w.Some?
      && CostsBounded(id, w.value.wire, w.value.tasks, CandidateEntries(w.value.transcript))
      && |w.value.tasks| <= PlanTurns(plan, sh.config)
  {
    SessionsAreSafe(sh, id, plan, ops);
    InvariantBoundsCosts(sh, Session(sh, id, plan, ops).value);
  }

  /** An assessor task is about one candidate entry, and is given its text and the text before. */
  ghost predicate AboutItsTurn(task: Task, entries: seq<Entry>)
  {
    exists k :: 1 <= k < |entries| && AboutEntry(task, entries[k - 1], entries[k])
  }

  predicate AboutEntry(task: Task, asked: Entry, answered: Entry)
  {
    && answered.role == CandidateRole && answered.turnId == task.turnId && asked.role != CandidateRole
    && (answered.text != "" ==> task.inputs.answer == answered.text && task.inputs.question == asked.text)
  }

  /** What the task of that turn was given. */
  lemma InputsAreThePair(prefix: seq<Entry>, inputs: AssessorInputs)
    requires EndsInATurn(prefix) && inputs == InputsFrom(prefix)
    ensures prefix[|prefix| - 1].text != "" ==>
              inputs.answer == prefix[|prefix| - 1].text && inputs.question == prefix[|prefix| - 2].text
  {
    AssessorSeesItsTurn(prefix);
  }

  lemma FittingTaskIsAboutItsTurn(opening: string, id: nat, entries: seq<Entry>, task: Task)
    requires Alternates(opening, id, entries) && TaskFits(id, entries, task)
    ensures AboutItsTurn(task, entries)
  {
    var o := task.turnId.ordinal;
    AlternatingEndsInATurn(opening, id, entries, o);
    PairIsTheTurn(entries, o, task);
  }

  lemma PairIsTheTurn(entries: seq<Entry>, o: nat, task: Task)
    requires 2 * o + 2 <= |entries| && EndsInATurn(entries[..2 * o + 2])
    requires entries[2 * o + 1].turnId == task.turnId && task.inputs == InputsFrom(entries[..2 * o + 2])
    ensures AboutItsTurn(task, entries)
  {
    InputsAreThePair(entries[..2 * o + 2], task.inputs);
    var k := 2 * o + 1;
    assert AboutEntry(task, entries[k - 1], entries[k]);
  }

  /** Every task is asked about exactly the turn its id names, and about what was said to
      the candidate just before it, whenever that turn has text. */
  lemma TasksAreAboutTheirTurn(sh: Shell, id: nat, plan: RawPlan, ops: seq<Op>, j: nat)
    ensures
      var w := Session(sh, id, plan, ops);
      w.Some? && (j < |w.value.tasks| ==> AboutItsTurn(w.value.tasks[j], w.value.transcript))
  {
    SessionsAreSafe(sh, id, plan, ops);
    var w := Session(sh, id, plan, ops).value;
    if j < |w.tasks| {
      FittingTaskIsAboutItsTurn(OpeningOf(sh, w.state.info), id, w.transcript, w.tasks[j]);
    }
  }
}
