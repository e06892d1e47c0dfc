/** A shell session is a run of the machine: the events its drives handle, one after the
    other, take the initial state to the stored one. So what holds of every run of the
    machine holds of every session. */
module DevSessionTrail {
  import opened Common
  import opened InterviewPlan
  import opened StateMachine
  import opened MachineTurns
  import opened MachineAssessments
  import opened DevSession
  import opened DevSessionRuns

  // ---------- runs from the front ----------

  /** The rest of a run whose first step is known. */
  function After(step: Step, rest: seq<Event>, c: Config): Step
  {
    match step
    case Raised => Raised
    case Stepped(s, cs) =>
      match Execute(s, rest, c)
      case Raised => Raised
      case Stepped(t, ds) => Stepped(t, cs + ds)
  }

  lemma AfterSnoc(step: Step, es: seq<Event>, e: Event, c: Config)
    ensures After(step, es + [e], c) == Then(After(step, es, c), e, c)
  {
    hide Transition;
    assert Front(es + [e]) == es;
    if step.Stepped? && Execute(step.state, es, c).Stepped? {
      var mid := Execute(step.state, es, c);
      var last := Transition(mid.state, e, c);
      if last.Stepped? {
        assert step.commands + (mid.commands + last.commands) == step.commands + mid.commands + last.commands;
      }
    }
  }

  lemma {:induction false} ExecuteAppend(s: SessionState, es: seq<Event>, more: seq<Event>, c: Config)
    ensures Execute(s, es + more, c) == After(Execute(s, es, c), more, c)
    decreases |more|
  {
    if more == [] {
      assert es + more == es;
      assert forall cs: seq<Command> :: cs + [] == cs;
    } else {
      ExecuteAppend(s, es, Front(more), c);
      assert Front(es + more) == es + Front(more);
      assert Front(more) + [Last(more)] == more;
      AfterSnoc(Execute(s, es, c), Front(more), Last(more), c);
    }
  }

  lemma ExecuteOneEvent(s: SessionState, e: Event, c: Config)
    ensures Execute(s, [e], c) == Transition(s, e, c)
  {
    assert Front([e]) == [] && Last([e]) == e;
    assert Execute(s, [], c) == Stepped(s, []);
    assert forall cs: seq<Command> :: [] + cs == cs;
  }

  // ---------- what a drive handles ----------

  /** The events a drive handles, in order. */
  function Trail(sh: Shell, w: World, queue: seq<Event>, steps: nat): seq<Event>
    requires steps <= MAX_DRIVE_STEPS
    decreases MAX_DRIVE_STEPS - steps, |queue|
  {
    if queue == [] || steps + 1 > MAX_DRIVE_STEPS then []
    else
      match Transition(w.state, queue[0], sh.config)
      case Raised => []
      case Stepped(state, commands) =>
        var done := Handled(sh, w, state, commands);
        [queue[0]] + if done.escaped then [] else Trail(sh, done.world, queue[1..] + done.events, steps + 1)
  }

  /** The assessor calls that tasks stand for, in order. */
  function CallsOf(tasks: seq<Task>): seq<Call>
  {
    seq(|tasks|, k requires 0 <= k < |tasks| => Call(tasks[k].turnId, tasks[k].focus))
  }

  /** `w` is where the run `step` has got to: its tasks are the assessor calls of the run, in
      order, and it has a decision row for every decision command. */
  ghost predicate Mirrors(w: World, step: Step)
  {
    && step.Stepped? && step.state == w.state
    && Calls(step.commands) == CallsOf(w.tasks)
    && Count(step.commands, IsDecision) == |w.decisions|
  }

  predicate IsRecorded(x: Command) { x.RunAssessor? || x.RecordDecision? }

  /** Nothing that leaves a row comes after a command that may raise. */
  predicate Orderly(cs: seq<Command>)
  {
    forall i, j :: 0 <= i < j < |cs| && (cs[i].Send? || cs[i].Reissue?) ==> !IsRecorded(cs[j])
  }

  lemma CandidateTurnIsOrderly(s: SessionState, turn: TurnId, now: Time, c: Config)
    ensures
      var step := OnCandidateTurn(s, turn, now, c);
      step.Stepped? ==> Orderly(step.commands)
  {
    hide ReactionTo;
  }

  lemma StepIsOrderly(s: SessionState, e: Event, c: Config)
    ensures Transition(s, e, c).Stepped? ==> Orderly(Transition(s, e, c).commands)
  {
    hide OnCandidateTurn, Orderly;
    if e.CandidateTurnReceived? {
      CandidateTurnIsOrderly(s, e.turnId, e.now, c);
    } else if Transition(s, e, c).Stepped? {
      OtherStepIsOrderly(s, e, c);
    }
    assert Orderly([]) by {
      NothingIsOrderly();
    }
  }

  lemma NothingIsOrderly()
    ensures Orderly([])
  {
  }

  lemma OtherStepIsOrderly(s: SessionState, e: Event, c: Config)
    requires !e.CandidateTurnReceived? && Transition(s, e, c).Stepped?
    ensures Orderly(Transition(s, e, c).commands)
  {
    hide OnCandidateTurn;
  }

  lemma {:induction false} NothingRecorded(cs: seq<Command>)
    requires forall k :: 0 <= k < |cs| ==> !IsRecorded(cs[k])
    ensures Calls(cs) == [] && Count(cs, IsDecision) == 0
  {
    if cs != [] {
      assert !IsRecorded(cs[|cs| - 1]);
      NothingRecorded(Front(cs));
    }
  }

  /** These calls and so many decisions have left their rows. */
  ghost predicate Recorded(w: World, v: World, calls: seq<Call>, decisions: nat)
  {
    && v.state == w.state
    && CallsOf(v.tasks) == CallsOf(w.tasks) + calls && |v.decisions| == |w.decisions| + decisions
  }

  lemma OneCommandCounts(sh: Shell, w: World, x: Command)
    ensures
      var done := ExecuteOne(sh, w, x);
      && Recorded(w, done.world, Calls([x]), if IsDecision(x) then 1 else 0)
      && (done.escaped ==> x.Send? || x.Reissue?)
  {
    hide RequestOf, CeilingBreached, InterviewerEvent;
    assert Front([x]) == [] && Last([x]) == x && Calls([]) == [];
    var done := ExecuteOne(sh, w, x);
    assert done.world.tasks == w.tasks
        || (x.RunAssessor? && |done.world.tasks| == |w.tasks| + 1 && done.world.tasks[..|w.tasks|] == w.tasks);
  }

  lemma RecordedJoin(w: World, m: World, v: World, calls: seq<Call>, more: seq<Call>, decisions: nat, others: nat)
    requires Recorded(w, m, calls, decisions) && Recorded(m, v, more, others)
    ensures Recorded(w, v, calls + more, decisions + others)
  {
    assert CallsOf(w.tasks) + calls + more == CallsOf(w.tasks) + (calls + more);
  }

  lemma CallsFirst(cs: seq<Command>)
    requires cs != []
    ensures Calls(cs) == Calls([cs[0]]) + Calls(cs[1..])
  {
    assert cs == [cs[0]] + cs[1..];
    CallsAppend([cs[0]], cs[1..]);
  }

  lemma CountFirst(cs: seq<Command>, p: Command -> bool)
    requires cs != []
    ensures Count(cs, p) == (if p(cs[0]) then 1 else 0) + Count(cs[1..], p)
  {
    assert cs == [cs[0]] + cs[1..];
    CountAppend([cs[0]], cs[1..], p);
    CountShort([cs[0]], p);
  }

  lemma {:induction false} ExecuteAllCounts(sh: Shell, w: World, cs: seq<Command>)
    requires Orderly(cs)
    ensures Recorded(w, ExecuteAll(sh, w, cs).world, Calls(cs), Count(cs, IsDecision))
    decreases |cs|
  {
    hide ExecuteOne, RequestOf;
    if cs != [] {
      hide Recorded;
      var first, rest := ExecuteOne(sh, w, cs[0]), cs[1..];
      OneCommandCounts(sh, w, cs[0]);
      CallsFirst(cs);
      CountFirst(cs, IsDecision);
      if first.escaped {
        NothingRecorded(rest);
      } else {
        ExecuteAllCounts(sh, first.world, rest);
        RecordedJoin(w, first.world, ExecuteAll(sh, first.world, rest).world, Calls([cs[0]]), Calls(rest),
                     if IsDecision(cs[0]) then 1 else 0, Count(rest, IsDecision));
      }
    }
  }

  lemma HandledMirrors(sh: Shell, w: World, run: Step, t: SessionState, cs: seq<Command>)
    requires Mirrors(w, run) && Orderly(cs)
    ensures Mirrors(Handled(sh, w, t, cs).world, Stepped(t, run.commands + cs))
  {
    ExecuteAllCounts(sh, Persisted(w.(state := t)), cs);
    CallsAppend(run.commands, cs);
    CountAppend(run.commands, cs, IsDecision);
  }

  /** The events a drive handles take the machine where the drive ends, also when the error
      of a request ends it. */
  lemma {:induction false} DriveIsARun(sh: Shell, w: World, run: Step, queue: seq<Event>, steps: nat, widest: nat)
    requires steps <= MAX_DRIVE_STEPS && Mirrors(w, run)
    ensures
      var d := Drive(sh, w, queue, steps, widest);
      d.Settled? || d.Crashed? ==> Mirrors(d.world, After(run, Trail(sh, w, queue, steps), sh.config))
    decreases MAX_DRIVE_STEPS - steps
  {
    if queue == [] {
      assert run.commands + [] == run.commands;
    } else if steps + 1 <= MAX_DRIVE_STEPS {
      var step := Transition(w.state, queue[0], sh.config);
      if step.Stepped? {
        var done := Handled(sh, w, step.state, step.commands);
        StepIsOrderly(w.state, queue[0], sh.config);
        HandledMirrors(sh, w, run, step.state, step.commands);
        var run' := Stepped(step.state, run.commands + step.commands);
        if done.escaped {
          AfterFirst(run, queue[0], step, [], sh.config);
          assert run'.commands + [] == run'.commands;
        } else {
          var rest := queue[1..] + done.events;
          DriveIsARun(sh, done.world, run', rest, steps + 1, Wider(widest, |rest|));
          AfterFirst(run, queue[0], step, Trail(sh, done.world, rest, steps + 1), sh.config);
        }
      }
    }
  }

  lemma AfterFirst(run: Step, e: Event, step: Step, rest: seq<Event>, c: Config)
    requires run.Stepped? && step.Stepped? && step == Transition(run.state, e, c)
    ensures After(run, [e] + rest, c) == After(Stepped(step.state, run.commands + step.commands), rest, c)
  {
    ExecuteAppend(run.state, [e], rest, c);
    ExecuteOneEvent(run.state, e, c);
    var tail := Execute(step.state, rest, c);
    if tail.Stepped? {
      assert run.commands + (step.commands + tail.commands) == run.commands + step.commands + tail.commands;
    }
  }

  // ---------- whole sessions ----------

  /** The events one operation feeds the machine. */
  function OpTrail(sh: Shell, w: World, op: Op): seq<Event>
  {
    if w.stored.None? then []
    else
      match op
      case Speak(text) =>
        if !AwaitsCandidate(Loaded(w).state) then []
        else Trail(sh, Spoken(sh, Loaded(w), text).0, [Spoken(sh, Loaded(w), text).1], 0)
      case Assess(k) =>
        if k >= |w.tasks| || w.tasks[k].done then []
        else
          var done := RunAssessorCall(sh, w.(tasks := Marked(w.tasks, k)), w.tasks[k]);
          if done.escaped || done.world.stored.None? then [] else Trail(sh, Loaded(done.world), done.events, 0)
  }

  function History(sh: Shell, id: nat, plan: RawPlan, ops: seq<Op>): seq<Event>
    decreases |ops|
  {
    if ops == [] then Trail(sh, Ticked(Persisted(Fresh(sh, id, plan))), [SessionStarted(sh.clock(0))], 0)
    else
      var before := Session(sh, id, plan, Front(ops));
      History(sh, id, plan, Front(ops)) + (if before.None? then [] else OpTrail(sh, before.value, Last(ops)))
  }

  /** Where post_turn leaves the session is where its drive does. */
  lemma SpeakEndsWithItsDrive(sh: Shell, w: World, text: string)
    requires Standing(sh, w) && w.state.phase != Created && AwaitsCandidate(w.state)
    ensures
      var (spoken, e) := Spoken(sh, w, text);
      var d, p := Drive(sh, spoken, [e], 0, 1), Perform(sh, w, Speak(text));
      (d.Settled? || d.Crashed?) && !p.Lost? && p.world == d.world
  {
    hide Drive, SpokenEffect, SpeechOverflows, HeardSince, CandidateEntries;
    assert Loaded(w) == w;
    var v := SpeakOutcome(sh, w, text);
  }

  lemma SpokenMirrors(sh: Shell, w: World, run: Step, text: string)
    requires Mirrors(w, run)
    ensures Mirrors(Spoken(sh, w, text).0, run)
  {
  }

  lemma SpeakMirrors(sh: Shell, w: World, run: Step, text: string)
    requires Standing(sh, w) && w.state.phase != Created && Mirrors(w, run)
    ensures !Perform(sh, w, Speak(text)).Lost?
    ensures Mirrors(Perform(sh, w, Speak(text)).world, After(run, OpTrail(sh, w, Speak(text)), sh.config))
  {
    hide Drive, Transition, Mirrors, Execute, CandidateEntries;
    if AwaitsCandidate(w.state) {
      var (spoken, e) := Spoken(sh, w, text);
      SpeakEndsWithItsDrive(sh, w, text);
      SpokenMirrors(sh, w, run, text);
      DriveIsARun(sh, spoken, run, [e], 0, 1);
      assert Loaded(w) == w;
    } else {
      assert Loaded(w) == w;
      NothingMore(run, sh.config);
    }
  }

  /** Scoring a task changes nothing of what a run is mirrored in. */
  lemma ScoringMirrors(sh: Shell, w: World, run: Step, k: nat)
    requires Mirrors(w, run) && k < |w.tasks|
    ensures Mirrors(RunAssessorCall(sh, w.(tasks := Marked(w.tasks, k)), w.tasks[k]).world, run)
  {
    var marked := w.(tasks := Marked(w.tasks, k));
    assert CallsOf(marked.tasks) == CallsOf(w.tasks);
    AssessorCallAnswers(sh, marked, w.tasks[k]);
  }

  lemma NothingMore(run: Step, c: Config)
    ensures After(run, [], c) == run
  {
    if run.Stepped? {
      assert run.commands + [] == run.commands;
    }
  }

  lemma TaskMirrors(sh: Shell, w: World, run: Step, k: nat)
    requires Standing(sh, w) && w.state.phase != Created && Mirrors(w, run) && k < |w.tasks| && !w.tasks[k].done
    ensures
      var d := RunTask(sh, w, k);
      (d.Settled? || d.Crashed?) && Mirrors(d.world, After(run, OpTrail(sh, w, Assess(k)), sh.config))
  {
    hide Drive, Transition, TaskTaken, ScoringOverflows, Mirrors, Execute, Calls, CallsOf, Trail;
    var v := TaskOutcome(sh, w, k);
    var marked := w.(tasks := Marked(w.tasks, k));
    ScoringMirrors(sh, w, run, k);
    AssessorCallAnswers(sh, marked, w.tasks[k]);
    var done := RunAssessorCall(sh, marked, w.tasks[k]);
    if done.escaped {
      NothingMore(run, sh.config);
    } else {
      assert Loaded(done.world) == done.world;
      DriveIsARun(sh, done.world, run, done.events, 0, 1);
    }
  }

  lemma AssessMirrors(sh: Shell, w: World, run: Step, k: nat)
    requires Standing(sh, w) && w.state.phase != Created && Mirrors(w, run)
    ensures !Perform(sh, w, Assess(k)).Lost?
    ensures Mirrors(Perform(sh, w, Assess(k)).world, After(run, OpTrail(sh, w, Assess(k)), sh.config))
  {
    hide Drive, Transition, RunAssessorCall, Standing;
    if k < |w.tasks| && !w.tasks[k].done {
      TaskMirrors(sh, w, run, k);
    } else {
      assert run.commands + [] == run.commands;
    }
  }

  lemma CreateMirrors(sh: Shell, id: nat, plan: RawPlan)
    ensures
      var d := Create(sh, id, plan);
      d.Settled? && Mirrors(d.world, Execute(InitialState(id, plan, sh.config), History(sh, id, plan, []), sh.config))
  {
    hide Drive, SessionInvariant;
    CreateHolds(sh, id, plan);
    var w := Ticked(Persisted(Fresh(sh, id, plan)));
    var run := Stepped(w.state, []);
    DriveIsARun(sh, w, run, [SessionStarted(sh.clock(0))], 0, 1);
    assert forall cs: seq<Command> :: [] + cs == cs;
  }

  /** Every session of the shell is a run of the machine from its initial state, whose
      tasks are the assessor calls of that run and with one decision row per RecordDecision. */
  lemma {:induction false} SessionIsAMachineRun(sh: Shell, id: nat, plan: RawPlan, ops: seq<Op>)
    ensures Session(sh, id, plan, ops).Some?
    ensures Mirrors(Session(sh, id, plan, ops).value,
                    Execute(InitialState(id, plan, sh.config), History(sh, id, plan, ops), sh.config))
    decreases |ops|
  {
    hide Mirrors, Perform, OpTrail, Bookkept;
    if ops == [] {
      CreateMirrors(sh, id, plan);
    } else {
      SessionIsAMachineRun(sh, id, plan, Front(ops));
      SessionsAreSafe(sh, id, plan, Front(ops));
      var s := InitialState(id, plan, sh.config);
      var w, es := Session(sh, id, plan, Front(ops)).value, History(sh, id, plan, Front(ops));
      ExecuteAppend(s, es, OpTrail(sh, w, Last(ops)), sh.config);
      match Last(ops)
      case Speak(text) => SpeakMirrors(sh, w, Execute(s, es, sh.config), text);
      case Assess(k) => AssessMirrors(sh, w, Execute(s, es, sh.config), k);
    }
  }

  lemma TaskTurnsAreDistinct(id: nat, entries: seq<Entry>, tasks: seq<Task>)
    requires TasksFit(id, entries, tasks)
    ensures NoDuplicates(TurnsOf(CallsOf(tasks)))
  {
    var turns := TurnsOf(CallsOf(tasks));
    forall i, j | 0 <= i < j < |turns|
      ensures turns[i] != turns[j]
    {
      assert TaskFits(id, entries, tasks[i]) && TaskFits(id, entries, tasks[j]);
    }
  }

  /** No session loses an assessment, in whatever order its results come in: each answer the
      machine has accepted is assessed, pending or resolved, and none is both or either twice. */
  lemma SessionsLoseNothing(sh: Shell, id: nat, plan: RawPlan, ops: seq<Op>)
    ensures
      var s, es := InitialState(id, plan, sh.config), History(sh, id, plan, ops);
      var run, resolved := Execute(s, es, sh.config), Resolved(s, es, sh.config);
      && Splits(run, resolved) && NoOrderLoses(s, es, sh.config)
      && NoDuplicates(run.state.evidence.pending) && NoDuplicates(resolved)
      && (forall t :: !(t in run.state.evidence.pending && t in resolved))
  {
    var es := History(sh, id, plan, ops);
    SessionIsAMachineRun(sh, id, plan, ops);
    SessionsAreSafe(sh, id, plan, ops);
    var w := Session(sh, id, plan, ops).value;
    TaskTurnsAreDistinct(w.state.info.id, w.transcript, w.tasks);
    AssessmentsAreAccounted(id, plan, es, sh.config);
    DistinctIdsSplit(id, plan, es, sh.config);
    DistinctIdsReuseNone(id, plan, es, sh.config);
    NoOrderLosesIff(id, plan, es, sh.config);
  }
}
