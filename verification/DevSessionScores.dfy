/** Where the scores of a session go: each assessment that runs while the session is alive is
    folded into the coverage the machine routes by, or marked failed, once. */
module DevSessionScores {
  import opened Common
  import opened InterviewPlan
  import opened StateMachine
  import opened MachineInvariant
  import opened MachineCommute
  import opened MachineAssessments
  import opened ModelCall
  import opened DevSession
  import opened DevSessionDrive
  import opened DevSessionRuns
  import opened DevSessionTrail
  import opened DevSessionReplies

  // ---------- which results a session hands to its machine ----------

  /** Every assessor result among these events is one of those. */
  ghost predicate ResultsAmong(es: seq<Event>, of: seq<Event>)
  {
    forall k :: 0 <= k < |es| && IsAssessorEvent(es[k]) ==> es[k] in of
  }

  lemma OneCommandReports(sh: Shell, w: World, x: Command)
    ensures forall k :: 0 <= k < |ExecuteOne(sh, w, x).events| ==> !IsAssessorEvent(ExecuteOne(sh, w, x).events[k])
  {
    hide InterviewerTurn, RequestOf;
  }

  lemma {:induction false} CommandsReportNoResults(sh: Shell, w: World, cs: seq<Command>)
    ensures forall k :: 0 <= k < |ExecuteAll(sh, w, cs).events| ==> !IsAssessorEvent(ExecuteAll(sh, w, cs).events[k])
    decreases |cs|
  {
    if cs != [] {
      hide ExecuteOne, IsAssessorEvent;
      OneCommandReports(sh, w, cs[0]);
      CommandsReportNoResults(sh, ExecuteOne(sh, w, cs[0]).world, cs[1..]);
    }
  }

  lemma {:induction false} TrailReportsItsQueue(sh: Shell, w: World, queue: seq<Event>, steps: nat)
    requires steps <= MAX_DRIVE_STEPS
    ensures ResultsAmong(Trail(sh, w, queue, steps), queue)
    decreases MAX_DRIVE_STEPS - steps
  {
    hide Transition, ExecuteAll, IsAssessorEvent;
    if queue != [] && steps + 1 <= MAX_DRIVE_STEPS {
      var step := Transition(w.state, queue[0], sh.config);
      if step.Stepped? {
        var done := Handled(sh, w, step.state, step.commands);
        CommandsReportNoResults(sh, Persisted(w.(state := step.state)), step.commands);
        if !done.escaped {
          TrailReportsItsQueue(sh, done.world, queue[1..] + done.events, steps + 1);
        }
      }
    }
  }

  /** A task that has been run carries this turn. */
  ghost predicate Ran(tasks: seq<Task>, turn: TurnId)
  {
    exists j :: 0 <= j < |tasks| && tasks[j].done && tasks[j].turnId == turn
  }

  ghost predicate ResultsRan(es: seq<Event>, tasks: seq<Task>)
  {
    forall k :: 0 <= k < |es| && IsAssessorEvent(es[k]) ==> Ran(tasks, es[k].forTurn)
  }

  lemma OpResultsRan(sh: Shell, w: World, op: Op)
    requires SessionInvariant(sh, w)
    ensures !Perform(sh, w, op).Lost?
    ensures ResultsRan(OpTrail(sh, w, op), Perform(sh, w, op).world.tasks)
    ensures forall turn :: Ran(w.tasks, turn) ==> Ran(Perform(sh, w, op).world.tasks, turn)
  {
    if op.Speak? {
      SpeechResultsRan(sh, w, op.text);
    } else if op.task < |w.tasks| {
      TaskResultsRan(sh, w, op.task);
    }
  }

  lemma SpeechGrowsTasks(sh: Shell, w: World, text: string)
    requires Rested(sh, w) && w.state.phase != Created && AwaitsCandidate(w.state)
    ensures !Perform(sh, w, Speak(text)).Lost?
    ensures
      var v := Perform(sh, w, Speak(text)).world;
      |w.tasks| <= |v.tasks| && v.tasks[..|w.tasks|] == w.tasks
  {
    hide Drive, Transition, SpeechOverflows, HeardSince;
    var v := SpeakOutcome(sh, w, text);
  }

  lemma SpeechResultsRan(sh: Shell, w: World, text: string)
    requires SessionInvariant(sh, w)
    ensures !Perform(sh, w, Speak(text)).Lost?
    ensures ResultsRan(OpTrail(sh, w, Speak(text)), Perform(sh, w, Speak(text)).world.tasks)
    ensures forall turn :: Ran(w.tasks, turn) ==> Ran(Perform(sh, w, Speak(text)).world.tasks, turn)
  {
    hide Drive, Transition, SpeechOverflows, Trail, Bookkept, Ran;
    OnlyRestAwaits(sh, w);
    assert Loaded(w) == w;
    if AwaitsCandidate(w.state) {
      var (spoken, e) := Spoken(sh, w, text);
      SpeechGrowsTasks(sh, w, text);
      TrailReportsItsQueue(sh, spoken, [e], 0);
      var v := Perform(sh, w, Speak(text)).world;
      assert forall j :: 0 <= j < |w.tasks| ==> v.tasks[j] == v.tasks[..|w.tasks|][j];
      RanStays(w.tasks, v.tasks);
    }
  }

  lemma RanStays(tasks: seq<Task>, more: seq<Task>)
    requires |tasks| <= |more| && forall j :: 0 <= j < |tasks| ==> more[j].turnId == tasks[j].turnId
    requires forall j :: 0 <= j < |tasks| && tasks[j].done ==> more[j].done
    ensures forall turn :: Ran(tasks, turn) ==> Ran(more, turn)
  {
    forall turn | Ran(tasks, turn)
      ensures Ran(more, turn)
    {
      var j :| 0 <= j < |tasks| && tasks[j].done && tasks[j].turnId == turn;
      assert more[j].done && more[j].turnId == turn;
    }
  }

  /** The one event of a task, if any, is about its turn. */
  lemma TaskReportsItsTurn(sh: Shell, w: World, k: nat)
    requires k < |w.tasks|
    ensures
      var done := RunAssessorCall(sh, w.(tasks := Marked(w.tasks, k)), w.tasks[k]);
      && (forall j :: 0 <= j < |done.events| && IsAssessorEvent(done.events[j]) ==>
            done.events[j].forTurn == w.tasks[k].turnId)
      && done.world.stored == w.stored
  {
    hide AssessorTurn, AssessorPayload;
  }

  lemma TaskResultsRan(sh: Shell, w: World, k: nat)
    requires SessionInvariant(sh, w) && k < |w.tasks|
    ensures !Perform(sh, w, Assess(k)).Lost?
    ensures ResultsRan(OpTrail(sh, w, Assess(k)), Perform(sh, w, Assess(k)).world.tasks)
    ensures forall turn :: Ran(w.tasks, turn) ==> Ran(Perform(sh, w, Assess(k)).world.tasks, turn)
  {
    hide Drive, Transition, Trail, RunAssessorCall, SessionInvariant, ScoringOverflows;
    TaskKeeps(sh, w, k);
    var v := Perform(sh, w, Assess(k)).world;
    RanStays(w.tasks, v.tasks);
    if !w.tasks[k].done {
      var done := RunAssessorCall(sh, w.(tasks := Marked(w.tasks, k)), w.tasks[k]);
      TaskReportsItsTurn(sh, w, k);
      assert v.tasks[k].done && v.tasks[k].turnId == w.tasks[k].turnId;
      if done.world.stored.Some? {
        TrailReportsItsQueue(sh, Loaded(done.world), done.events, 0);
      }
    }
  }

  lemma ResultsRanJoin(es: seq<Event>, more: seq<Event>, tasks: seq<Task>, after: seq<Task>)
    requires ResultsRan(es, tasks) && ResultsRan(more, after)
    requires forall turn :: Ran(tasks, turn) ==> Ran(after, turn)
    ensures ResultsRan(es + more, after)
  {
  }

  lemma {:induction false} SessionResultsRan(sh: Shell, id: nat, plan: RawPlan, ops: seq<Op>)
    ensures
      var w := Session(sh, id, plan, ops);
      w.Some? && ResultsRan(History(sh, id, plan, ops), w.value.tasks)
    decreases |ops|
  {
    hide ResultsRan, Perform, OpTrail, Ran;
    if ops == [] {
      StartReportsNothing(sh, id, plan);
    } else {
      SessionResultsRan(sh, id, plan, Front(ops));
      SessionsAreSafe(sh, id, plan, Front(ops));
      var w := Session(sh, id, plan, Front(ops)).value;
      OpResultsRan(sh, w, Last(ops));
      ResultsRanJoin(History(sh, id, plan, Front(ops)), OpTrail(sh, w, Last(ops)), w.tasks,
                     Perform(sh, w, Last(ops)).world.tasks);
    }
  }

  lemma StartReportsNothing(sh: Shell, id: nat, plan: RawPlan)
    ensures
      var d := Create(sh, id, plan);
      d.Settled? && ResultsRan(History(sh, id, plan, []), d.world.tasks)
  {
    hide Drive, Trail;
    CreateHolds(sh, id, plan);
    TrailReportsItsQueue(sh, Ticked(Persisted(Fresh(sh, id, plan))), [SessionStarted(sh.clock(0))], 0);
  }

  lemma {:induction false} ResolvedByResults(s: SessionState, es: seq<Event>, c: Config, turn: TurnId)
    requires turn in Resolved(s, es, c)
    ensures exists k :: 0 <= k < |es| && IsAssessorEvent(es[k]) && es[k].forTurn == turn
    decreases |es|
  {
    if turn in Resolved(s, Front(es), c) {
      ResolvedByResults(s, Front(es), c, turn);
      var k :| 0 <= k < |Front(es)| && IsAssessorEvent(Front(es)[k]) && Front(es)[k].forTurn == turn;
      assert es[k] == Front(es)[k];
    } else {
      assert IsAssessorEvent(es[|es| - 1]) && es[|es| - 1].forTurn == turn;
    }
  }

  // ---------- which words a session hands to its machine ----------

  datatype Words = Words(turn: TurnId, text: string)

  /** The candidate's words among events, and among entries. */
  function WordsHeard(es: seq<Event>): seq<Words>
  {
    if es == [] then []
    else
      WordsHeard(Front(es))
      + if Last(es).CandidateTurnReceived? then [Words(Last(es).turnId, Last(es).text)] else []
  }

  function WordsSaid(entries: seq<Entry>): seq<Words>
  {
    if entries == [] then []
    else
      WordsSaid(Front(entries))
      + if Last(entries).role.CandidateRole? then [Words(Last(entries).turnId, Last(entries).text)] else []
  }

  lemma {:induction false} WordsHeardAppend(a: seq<Event>, b: seq<Event>)
    ensures WordsHeard(a + b) == WordsHeard(a) + WordsHeard(b)
  {
    if b == [] {
      assert a + b == a;
    } else {
      assert Front(a + b) == a + Front(b);
      WordsHeardAppend(a, Front(b));
    }
  }

  lemma {:induction false} NoWordsHeard(es: seq<Event>)
    requires forall k :: 0 <= k < |es| ==> !es[k].CandidateTurnReceived?
    ensures WordsHeard(es) == []
  {
    if es != [] {
      NoWordsHeard(Front(es));
    }
  }

  /** Nothing the shell does by itself speaks for the candidate. */
  ghost predicate Wordless(es: seq<Event>)
  {
    forall k :: 0 <= k < |es| ==> !es[k].CandidateTurnReceived?
  }

  lemma OneCommandIsWordless(sh: Shell, w: World, x: Command)
    ensures Wordless(ExecuteOne(sh, w, x).events)
  {
    hide InterviewerTurn, RequestOf;
  }

  lemma {:induction false} CommandsAreWordless(sh: Shell, w: World, cs: seq<Command>)
    ensures Wordless(ExecuteAll(sh, w, cs).events)
    decreases |cs|
  {
    if cs != [] {
      hide ExecuteOne;
      OneCommandIsWordless(sh, w, cs[0]);
      CommandsAreWordless(sh, ExecuteOne(sh, w, cs[0]).world, cs[1..]);
    }
  }

  lemma {:induction false} TrailIsWordless(sh: Shell, w: World, queue: seq<Event>, steps: nat)
    requires steps <= MAX_DRIVE_STEPS && Wordless(queue)
    ensures Wordless(Trail(sh, w, queue, steps))
    decreases MAX_DRIVE_STEPS - steps
  {
    hide Transition, ExecuteAll;
    if queue != [] && steps + 1 <= MAX_DRIVE_STEPS {
      var step := Transition(w.state, queue[0], sh.config);
      if step.Stepped? {
        var done := Handled(sh, w, step.state, step.commands);
        CommandsAreWordless(sh, Persisted(w.(state := step.state)), step.commands);
        if !done.escaped {
          TrailIsWordless(sh, done.world, queue[1..] + done.events, steps + 1);
        }
      }
    }
  }

  /** A drive of the candidate's words hands exactly those to the machine. */
  lemma TrailOfWords(sh: Shell, w: World, e: Event)
    requires e.CandidateTurnReceived? && Transition(w.state, e, sh.config).Stepped?
    ensures WordsHeard(Trail(sh, w, [e], 0)) == [Words(e.turnId, e.text)]
  {
    hide Transition, ExecuteAll;
    var step := Transition(w.state, e, sh.config);
    var done := Handled(sh, w, step.state, step.commands);
    CommandsAreWordless(sh, Persisted(w.(state := step.state)), step.commands);
    assert [e][1..] + done.events == done.events;
    var rest := if done.escaped then [] else Trail(sh, done.world, done.events, 1);
    if !done.escaped {
      TrailIsWordless(sh, done.world, done.events, 1);
    }
    assert Trail(sh, w, [e], 0) == [e] + rest;
    NoWordsHeard(rest);
    WordsHeardAppend([e], rest);
    assert Front([e]) == [] && Last([e]) == e && WordsHeard([]) == [];
  }

  lemma WordsSaidSnoc(entries: seq<Entry>, e: Entry)
    ensures WordsSaid(entries + [e])
         == WordsSaid(entries) + if e.role.CandidateRole? then [Words(e.turnId, e.text)] else []
  {
    assert Front(entries + [e]) == entries;
  }

  lemma SpeechIsHeard(sh: Shell, w: World, text: string)
    requires SessionInvariant(sh, w)
    ensures !Perform(sh, w, Speak(text)).Lost?
    ensures WordsSaid(Perform(sh, w, Speak(text)).world.transcript)
         == WordsSaid(w.transcript) + WordsHeard(OpTrail(sh, w, Speak(text)))
  {
    hide Drive, Transition, SpeechOverflows, Trail, Bookkept;
    OnlyRestAwaits(sh, w);
    assert Loaded(w) == w;
    if AwaitsCandidate(w.state) {
      SpeechAddsWords(sh, w, text);
      var (spoken, e) := Spoken(sh, w, text);
      WordsMakeANewMove(spoken.state, e, sh.config);
      TrailOfWords(sh, spoken, e);
    }
  }

  /** One turn adds the candidate's entry, and at most one that is not the candidate's. */
  lemma SpeechAddsWords(sh: Shell, w: World, text: string)
    requires Rested(sh, w) && w.state.phase != Created && AwaitsCandidate(w.state)
    ensures !Perform(sh, w, Speak(text)).Lost?
    ensures WordsSaid(Perform(sh, w, Speak(text)).world.transcript)
         == WordsSaid(w.transcript) + [Words(Spoken(sh, w, text).1.turnId, text)]
  {
    hide Drive, Transition, SpeechOverflows, HeardSince, CandidateEntries, WordsSaid;
    var v := SpeakOutcome(sh, w, text);
    var spoken := Spoken(sh, w, text).0;
    WordsSaidSnoc(w.transcript, Last(spoken.transcript));
    if v.transcript != spoken.transcript {
      assert v.transcript == spoken.transcript + [Last(v.transcript)];
      WordsSaidSnoc(spoken.transcript, Last(v.transcript));
    }
  }

  lemma TaskIsWordless(sh: Shell, w: World, k: nat)
    requires SessionInvariant(sh, w)
    ensures !Perform(sh, w, Assess(k)).Lost?
    ensures Perform(sh, w, Assess(k)).world.transcript == w.transcript
    ensures WordsHeard(OpTrail(sh, w, Assess(k))) == []
  {
    hide Drive, Transition, Trail, RunAssessorCall, SessionInvariant, ScoringOverflows;
    if k < |w.tasks| {
      TaskKeeps(sh, w, k);
      var done := RunAssessorCall(sh, w.(tasks := Marked(w.tasks, k)), w.tasks[k]);
      AssessorCallIsWordless(sh, w.(tasks := Marked(w.tasks, k)), w.tasks[k]);
      if done.world.stored.Some? {
        TrailIsWordless(sh, Loaded(done.world), done.events, 0);
        NoWordsHeard(Trail(sh, Loaded(done.world), done.events, 0));
      }
    }
  }

  lemma AssessorCallIsWordless(sh: Shell, w: World, task: Task)
    ensures Wordless(RunAssessorCall(sh, w, task).events)
  {
    hide AssessorTurn, AssessorPayload;
  }

  /** In every session the machine has heard exactly what the candidate has said, turn by turn and
      word for word. */
  lemma {:induction false} MachinesHearTheCandidate(sh: Shell, id: nat, plan: RawPlan, ops: seq<Op>)
    ensures
      var w := Session(sh, id, plan, ops);
      w.Some? && WordsHeard(History(sh, id, plan, ops)) == WordsSaid(w.value.transcript)
    decreases |ops|
  {
    hide Perform, OpTrail, SessionInvariant;
    if ops == [] {
      StartIsWordless(sh, id, plan);
    } else {
      MachinesHearTheCandidate(sh, id, plan, Front(ops));
      SessionsAreSafe(sh, id, plan, Front(ops));
      var w := Session(sh, id, plan, Front(ops)).value;
      WordsHeardAppend(History(sh, id, plan, Front(ops)), OpTrail(sh, w, Last(ops)));
      match Last(ops)
      case Speak(text) => SpeechIsHeard(sh, w, text);
      case Assess(k) => TaskIsWordless(sh, w, k);
    }
  }

  lemma StartIsWordless(sh: Shell, id: nat, plan: RawPlan)
    ensures
      var d := Create(sh, id, plan);
      d.Settled? && WordsHeard(History(sh, id, plan, [])) == WordsSaid(d.world.transcript)
  {
    hide Drive, Trail, Transition, ValidatePlan, Startable, TasksFit, RowsFit, WireFits;
    CreateHolds(sh, id, plan);
    var start := [SessionStarted(sh.clock(0))];
    TrailIsWordless(sh, Ticked(Persisted(Fresh(sh, id, plan))), start, 0);
    NoWordsHeard(Trail(sh, Ticked(Persisted(Fresh(sh, id, plan))), start, 0));
    var entries := Create(sh, id, plan).world.transcript;
    if entries != [] {
      assert entries == [] + [entries[0]];
      WordsSaidSnoc([], entries[0]);
    }
  }

  // ---------- a task still to be run ----------

  lemma TurnsOfTasks(tasks: seq<Task>, k: nat)
    requires k < |tasks|
    ensures |TurnsOf(CallsOf(tasks))| == |tasks| && TurnsOf(CallsOf(tasks))[k] == tasks[k].turnId
  {
  }

  lemma {:induction false} LastFocusOfDistinct(calls: seq<Call>, k: nat)
    requires NoDuplicates(TurnsOf(calls)) && k < |calls|
    ensures LastFocus(calls, calls[k].turn) == Some(calls[k].focus)
  {
    var turns := TurnsOf(calls);
    if k < |calls| - 1 {
      assert turns[k] != turns[|calls| - 1];
      var front := TurnsOf(Front(calls));
      assert forall j :: 0 <= j < |front| ==> front[j] == turns[j];
      LastFocusOfDistinct(Front(calls), k);
    }
  }

  /** A task that has not been run is pending in the machine, under the competency it is about. */
  lemma TasksToRunArePending(sh: Shell, id: nat, plan: RawPlan, ops: seq<Op>, k: nat)
    ensures
      var w := Session(sh, id, plan, ops);
      && w.Some?
      && (k < |w.value.tasks| && !w.value.tasks[k].done ==>
            var ev, t := w.value.state.evidence, w.value.tasks[k];
            t.turnId in ev.pending && t.turnId in ev.focus && ev.focus[t.turnId] == t.focus)
  {
    hide Drive, Perform, Transition, History;
    var s, es := InitialState(id, plan, sh.config), History(sh, id, plan, ops);
    SessionIsAMachineRun(sh, id, plan, ops);
    SessionsAreSafe(sh, id, plan, ops);
    SessionResultsRan(sh, id, plan, ops);
    SessionsLoseNothing(sh, id, plan, ops);
    AssessmentsAreAccounted(id, plan, es, sh.config);
    var w := Session(sh, id, plan, ops).value;
    TaskTurnsAreDistinct(w.state.info.id, w.transcript, w.tasks);
    if k < |w.tasks| && !w.tasks[k].done {
      TaskIsPending(w, k, CallsOf(w.tasks), Resolved(s, es, sh.config), es, s, sh.config);
    }
  }

  lemma OneTaskATurn(tasks: seq<Task>, j: nat, k: nat)
    requires NoDuplicates(TurnsOf(CallsOf(tasks))) && j < |tasks| && k < |tasks|
    requires tasks[j].turnId == tasks[k].turnId
    ensures j == k
  {
    var turns := TurnsOf(CallsOf(tasks));
    assert turns[j] == turns[k];
  }

  lemma NotRun(tasks: seq<Task>, k: nat)
    requires NoDuplicates(TurnsOf(CallsOf(tasks))) && k < |tasks| && !tasks[k].done
    ensures !Ran(tasks, tasks[k].turnId)
  {
    forall j | 0 <= j < |tasks| && tasks[j].turnId == tasks[k].turnId
      ensures !tasks[j].done
    {
      OneTaskATurn(tasks, j, k);
    }
  }

  lemma TaskIsPending(w: World, k: nat, calls: seq<Call>, resolved: seq<TurnId>, es: seq<Event>, s: SessionState,
                      c: Config)
    requires k < |w.tasks| && !w.tasks[k].done && calls == CallsOf(w.tasks) && resolved == Resolved(s, es, c)
    requires NoDuplicates(TurnsOf(calls)) && ResultsRan(es, w.tasks)
    requires multiset(TurnsOf(calls)) == multiset(w.state.evidence.pending) + multiset(resolved)
    requires FocusIsLast(w.state.evidence, calls)
    ensures
      var ev, t := w.state.evidence, w.tasks[k];
      t.turnId in ev.pending && t.turnId in ev.focus && ev.focus[t.turnId] == t.focus
  {
    hide Ran, TurnsOf, LastFocus, Resolved;
    var turn := w.tasks[k].turnId;
    TurnsOfTasks(w.tasks, k);
    NotRun(w.tasks, k);
    if turn in resolved {
      ResolvedByResults(s, es, c, turn);
    }
    assert turn in multiset(TurnsOf(calls));
    assert turn in multiset(w.state.evidence.pending);
    LastFocusOfDistinct(calls, k);
  }

  // ---------- its score ----------

  /** In every session, running a task while the session is alive, under the ceiling, with a request
      that fits: what the assessor produced is folded into coverage; if it produced nothing, the
      competency the task is about is marked failed, and nothing else; and the task's turn is no
      longer pending. */
  lemma ScoresAreFolded(sh: Shell, id: nat, plan: RawPlan, ops: seq<Op>, k: nat)
    ensures
      var w := Session(sh, id, plan, ops);
      && w.Some?
      && (k < |w.value.tasks| && !w.value.tasks[k].done && !Terminal(w.value.state.phase)
          && !OverCeiling(sh, w.value.wire, w.value.ticks) ==>
            FoldedSo(sh, w.value, w.value.tasks[k], RunTask(sh, w.value, k)))
  {
    hide Drive, Perform, AssessorTurn, RunTask, SessionInvariant, AssessorPayload, SignalsNoted;
    SessionsAreSafe(sh, id, plan, ops);
    TasksToRunArePending(sh, id, plan, ops, k);
    var w := Session(sh, id, plan, ops).value;
    if k < |w.tasks| && !w.tasks[k].done && !Terminal(w.state.phase) && !OverCeiling(sh, w.wire, w.ticks) {
      TasksAreTold(sh, w, k);
      WithoutMember(w.state.evidence.pending, w.tasks[k].turnId);
    }
  }

  /** What one task leaves of the evidence. */
  ghost predicate FoldedSo(sh: Shell, w: World, task: Task, d: Driven)
  {
    var result := AssessorTurn(w.wire, sh.env, sh.settings, task.turnId, w.state.info.id, task.focus,
                               AssessorPayload(task.focus, task.inputs)).1;
    if result.Oversized? then d.Crashed? && d.world.state == w.state
    else
      && d.Settled? && task.turnId !in d.world.state.evidence.pending
      && d.world.state.evidence.coverage
         == (if result.Produced? then CoverageAfter(w.state.evidence.coverage, result.output)
             else w.state.evidence.coverage[task.focus :=
                    CellAt(w.state.evidence.coverage, task.focus).(assessmentFailed := true)])
  }
}
