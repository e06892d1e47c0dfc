/** Runs from the initial state in which an assessment is lost, in which an answered competency
    is probed again, and in which a turn id is reused to no harm. */
module MachineWitness {
  import opened Common
  import opened InterviewPlan
  import opened StateMachine
  import opened MachineAssessments
  import opened MachineVerdicts

  /** One competency of two seeds, a target of 3, and a clock that stands still. */
  const COMPETENCY := Competency("n", "l", 3, 30, ["s", "t"], [])
  const PLAN := Plan(1, [COMPETENCY], 5, 60)
  const CONFIG: Config := Thresholds(0.6, 2, 60, 1, 3, 10, 1)

  // ---------- the states passed through ----------

  /** TECH with the command `o` outstanding, after the move `last`. */
  function Standing(id: nat, number: nat, last: Move, o: Outbound, loop: Loop, ev: Evidence): SessionState
  {
    SessionState(Info(1, id, Shaped(PLAN)), Tech, Some(PLAN), None,
                 Turn(Some(if o.RunInterviewer? then Interviewer else Candidate), Some(last), 0, number, Some(o)),
                 loop, ev, Review(false, false, 0, 0), Clocks(Some(0), None, Some(0)))
  }

  /** The interviewer's move is outstanding. */
  function Asking(id: nat, n: nat, move: Move, node: Option<string>, context: MoveContext, loop: Loop, ev: Evidence)
    : SessionState
  {
    Standing(id, n + 1, move, RunInterviewer(MachineTurn(id, n), move, node, context, false), loop, ev)
  }

  /** ... and it has been put to the candidate. */
  function Asked(id: nat, n: nat, move: Move, loop: Loop, ev: Evidence): SessionState
  {
    Standing(id, n + 1, move, DeliverUtterance(MachineTurn(id, n), "q"), loop, ev)
  }

  function At(seed: int, probes: int): Loop
  {
    Loop(0, seed, probes, Some(0))
  }

  // ---------- the events ----------

  function Said(x: TurnId): Event { CandidateTurnReceived(x, "a", 0) }

  function Replies(id: nat, n: nat, move: Move): Event
  {
    InterviewerReplyReady(MachineTurn(id, n), InterviewerOutput("q", move), 0)
  }

  /** The assessment of one turn, with one item. */
  function Scored(x: TurnId, level: nat, confidence: real): Event
  {
    AssessmentCompleted(x, AssessorOutput("n", [AssessmentItem("n", level, confidence)], [], false), 0)
  }

  function Opening(id: nat, x: TurnId): seq<Event>
  {
    [SessionStarted(0), Said(x), Replies(id, 1, AskSeed)]
  }

  // ---------- a run, event by event ----------

  /** Where a run has got to, and the books kept over it. */
  datatype Account = Account(
    state: SessionState,
    calls: seq<Call>,
    verdicts: seq<Verdict>,
    resolved: seq<TurnId>,
    lost: multiset<TurnId>)

  function Verdicts(visits: seq<Visit>): seq<Verdict>
  {
    seq(|visits|, k requires 0 <= k < |visits| => visits[k].verdict)
  }

  ghost predicate Accounts(id: nat, es: seq<Event>, a: Account)
  {
    var s := InitialState(id, Shaped(PLAN), CONFIG);
    && Execute(s, es, CONFIG).Stepped?
    && Execute(s, es, CONFIG).state == a.state
    && Calls(Execute(s, es, CONFIG).commands) == a.calls
    && Verdicts(Visits(s, es, CONFIG)) == a.verdicts
    && Resolved(s, es, CONFIG) == a.resolved
    && Lost(s, es, CONFIG) == a.lost
  }

  /** What one more event adds. */
  function Booked(a: Account, e: Event, t: SessionState, calls: seq<Call>): Account
  {
    Account(t, a.calls + calls,
            if IsVisit(a.state, e) then a.verdicts + [VisitOf(a.state, e.now, CONFIG).verdict] else a.verdicts,
            if Resolves(a.state, e) then a.resolved + [e.forTurn] else a.resolved,
            if Resolves(a.state, e) then a.lost + Extra(a.state.evidence.pending, e.forTurn) else a.lost)
  }

  lemma OneMore(id: nat, es: seq<Event>, a: Account, e: Event, t: SessionState, cs: seq<Command>)
    requires Accounts(id, es, a) && Transition(a.state, e, CONFIG) == Stepped(t, cs)
    ensures Accounts(id, es + [e], Booked(a, e, t, Calls(cs)))
  {
    var s := InitialState(id, Shaped(PLAN), CONFIG);
    assert Front(es + [e]) == es && Last(es + [e]) == e;
    CallsAppend(Execute(s, es, CONFIG).commands, cs);
    var visits := Visits(s, es, CONFIG);
    if IsVisit(a.state, e) {
      assert Verdicts(visits + [VisitOf(a.state, e.now, CONFIG)])
          == Verdicts(visits) + [VisitOf(a.state, e.now, CONFIG).verdict];
    }
  }

  lemma OneCall(x: TurnId, o: Outbound)
    ensures Calls([RunAssessor(x, "n"), Send(o), PersistState]) == [Call(x, "n")]
  {
    FirstCallOnly([RunAssessor(x, "n"), Send(o), PersistState]);
  }

  lemma ReplyStep(id: nat, n: nat, move: Move, node: Option<string>, context: MoveContext, loop: Loop, ev: Evidence)
    ensures Transition(Asking(id, n, move, node, context, loop, ev), Replies(id, n, move), CONFIG)
         == Stepped(Asked(id, n, move, loop, ev), [Send(DeliverUtterance(MachineTurn(id, n), "q")), PersistState])
  {
  }

  /** The move outstanding is put to the candidate. */
  lemma Asks(id: nat, es: seq<Event>, a: Account, n: nat, move: Move, node: Option<string>, context: MoveContext,
             loop: Loop, ev: Evidence)
    requires Accounts(id, es, a) && a.state == Asking(id, n, move, node, context, loop, ev)
    ensures Accounts(id, es + [Replies(id, n, move)], a.(state := Asked(id, n, move, loop, ev)))
  {
    hide Accounts, Transition;
    var cs := [Send(DeliverUtterance(MachineTurn(id, n), "q")), PersistState];
    ReplyStep(id, n, move, node, context, loop, ev);
    NoCalls(cs);
    OneMore(id, es, a, Replies(id, n, move), Asked(id, n, move, loop, ev), cs);
    assert a.calls + [] == a.calls;
  }

  const NOTHING := Evidence(map[], [], map[])

  function Introduced(id: nat): SessionState
  {
    SessionState(Info(1, id, Shaped(PLAN)), Intro, Some(PLAN), None,
                 Turn(Some(Interviewer), None, 0, 1, Some(EmitScriptedOpening(MachineTurn(id, 0)))),
                 Loop(0, 0, 0, None), NOTHING, Review(false, false, 0, 0), Clocks(Some(0), None, Some(0)))
  }

  lemma StartStep(id: nat)
    ensures Transition(InitialState(id, Shaped(PLAN), CONFIG), SessionStarted(0), CONFIG)
         == Stepped(Introduced(id), [Send(EmitScriptedOpening(MachineTurn(id, 0))), PersistState])
  {
  }

  function FirstSeed(id: nat): Outbound
  {
    RunInterviewer(MachineTurn(id, 1), AskSeed, Some("n"), FirstSeedContext("n", "s"), false)
  }

  lemma FirstStep(id: nat, x: TurnId)
    ensures Transition(Introduced(id), Said(x), CONFIG)
         == Stepped(Standing(id, 2, AskSeed, FirstSeed(id), At(0, 0), NOTHING), [Send(FirstSeed(id)), PersistState])
  {
  }

  lemma Starts(id: nat)
    ensures Accounts(id, [SessionStarted(0)], Account(Introduced(id), [], [], [], multiset{}))
  {
    hide Transition;
    var cs := [Send(EmitScriptedOpening(MachineTurn(id, 0))), PersistState];
    var a := Account(InitialState(id, Shaped(PLAN), CONFIG), [], [], [], multiset{});
    StartStep(id);
    NoCalls(cs);
    OneMore(id, [], a, SessionStarted(0), Introduced(id), cs);
    assert [] + [SessionStarted(0)] == [SessionStarted(0)];
  }

  /** The opening, up to the first seed being asked. */
  lemma Opens(id: nat, x: TurnId)
    ensures Accounts(id, Opening(id, x), Account(Asked(id, 1, AskSeed, At(0, 0), NOTHING), [], [], [], multiset{}))
  {
    hide Accounts, Transition;
    var cs, t := [Send(FirstSeed(id)), PersistState], Standing(id, 2, AskSeed, FirstSeed(id), At(0, 0), NOTHING);
    Starts(id);
    FirstStep(id, x);
    NoCalls(cs);
    OneMore(id, [SessionStarted(0)], Account(Introduced(id), [], [], [], multiset{}), Said(x), t, cs);
    var es := [SessionStarted(0)] + [Said(x)];
    Asks(id, es, Account(t, [], [], [], multiset{}), 1, AskSeed, Some("n"), FirstSeedContext("n", "s"), At(0, 0),
         NOTHING);
    assert es + [Replies(id, 1, AskSeed)] == Opening(id, x);
  }

  /** The evidence on the one competency, and the verdict that calls for. */
  function VerdictOn(ev: Evidence, probes: int): Verdict
  {
    Adjudicate(Lookup(ev.coverage, "n"), 3, probes, Minutes(30), CONFIG).verdict
  }

  lemma DecidesAt(id: nat, n: nat, last: Move, seed: int, probes: int, ev: Evidence)
    ensures TechDecision(Asked(id, n, last, At(seed, probes), ev), COMPETENCY, 0, CONFIG).verdict
         == VerdictOn(ev, probes)
  {
  }

  /** What an answer in this state leads to. */
  lemma ProbeStep(id: nat, n: nat, last: Move, seed: int, probes: int, ev: Evidence, x: TurnId)
    requires VerdictOn(ev, probes) == Clarify
    ensures
      var context, loop := ProbeContext("n", probes, None), At(seed, probes + 1);
      var t := Asking(id, n + 1, DepthProbe, Some("n"), context, loop, Scheduled(ev, x, "n"));
      Transition(Asked(id, n, last, At(seed, probes), ev), Said(x), CONFIG)
      == Stepped(t, [RunAssessor(x, "n"), Send(t.turn.pending.value), PersistState])
  {
    assert CurrentCompetency(Asked(id, n, last, At(seed, probes), ev)) == Some(COMPETENCY);
    DecidesAt(id, n, last, seed, probes, ev);
  }

  lemma IsAVisit(id: nat, n: nat, last: Move, seed: int, probes: int, ev: Evidence, x: TurnId)
    ensures
      var s := Asked(id, n, last, At(seed, probes), ev);
      IsVisit(s, Said(x)) && VisitOf(s, 0, CONFIG).verdict == VerdictOn(ev, probes)
  {
    assert CurrentCompetency(Asked(id, n, last, At(seed, probes), ev)) == Some(COMPETENCY);
  }

  /** An answer and the move it leads to, which is put to the candidate. */
  lemma Answers(id: nat, es: seq<Event>, a: Account, n: nat, last: Move, seed: int, probes: int, x: TurnId,
                move: Move, context: MoveContext, loop: Loop)
    requires Accounts(id, es, a) && a.state == Asked(id, n, last, At(seed, probes), a.state.evidence)
    requires
      var t := Asking(id, n + 1, move, Some("n"), context, loop, Scheduled(a.state.evidence, x, "n"));
      Transition(a.state, Said(x), CONFIG)
      == Stepped(t, [RunAssessor(x, "n"), Send(t.turn.pending.value), PersistState])
    ensures Accounts(id, es + [Said(x)] + [Replies(id, n + 1, move)],
                     Account(Asked(id, n + 1, move, loop, Scheduled(a.state.evidence, x, "n")),
                             a.calls + [Call(x, "n")], a.verdicts + [VerdictOn(a.state.evidence, probes)],
                             a.resolved, a.lost))
  {
    var ev := Scheduled(a.state.evidence, x, "n");
    var t := Asking(id, n + 1, move, Some("n"), context, loop, ev);
    OneCall(x, t.turn.pending.value);
    IsAVisit(id, n, last, seed, probes, a.state.evidence, x);
    OneMore(id, es, a, Said(x), t, [RunAssessor(x, "n"), Send(t.turn.pending.value), PersistState]);
    Asks(id, es + [Said(x)], Booked(a, Said(x), t, [Call(x, "n")]), n + 1, move, Some("n"), context, loop, ev);
  }

  lemma Probes(id: nat, es: seq<Event>, a: Account, n: nat, last: Move, seed: int, probes: int, x: TurnId)
    requires Accounts(id, es, a) && a.state == Asked(id, n, last, At(seed, probes), a.state.evidence)
    requires VerdictOn(a.state.evidence, probes) == Clarify
    ensures Accounts(id, es + [Said(x)] + [Replies(id, n + 1, DepthProbe)],
                     Account(Asked(id, n + 1, DepthProbe, At(seed, probes + 1), Scheduled(a.state.evidence, x, "n")),
                             a.calls + [Call(x, "n")], a.verdicts + [Clarify], a.resolved, a.lost))
  {
    ProbeStep(id, n, last, seed, probes, a.state.evidence, x);
    Answers(id, es, a, n, last, seed, probes, x, DepthProbe, ProbeContext("n", probes, None), At(seed, probes + 1));
  }

  lemma NextSeedStep(id: nat, n: nat, last: Move, probes: int, ev: Evidence, x: TurnId)
    requires VerdictOn(ev, probes) == Answered
    ensures
      var t := Asking(id, n + 1, AcknowledgeAndTransition, Some("n"), NextSeedContext("n", 1, "t"), At(1, probes),
                      Scheduled(ev, x, "n"));
      Transition(Asked(id, n, last, At(0, probes), ev), Said(x), CONFIG)
      == Stepped(t, [RunAssessor(x, "n"), Send(t.turn.pending.value), PersistState])
  {
    assert CurrentCompetency(Asked(id, n, last, At(0, probes), ev)) == Some(COMPETENCY);
    DecidesAt(id, n, last, 0, probes, ev);
  }

  /** An answer that is evidence leads to the next seed. */
  lemma GoesOn(id: nat, es: seq<Event>, a: Account, n: nat, last: Move, probes: int, x: TurnId)
    requires Accounts(id, es, a) && a.state == Asked(id, n, last, At(0, probes), a.state.evidence)
    requires VerdictOn(a.state.evidence, probes) == Answered
    ensures Accounts(id, es + [Said(x)] + [Replies(id, n + 1, AcknowledgeAndTransition)],
                     Account(Asked(id, n + 1, AcknowledgeAndTransition, At(1, probes),
                                   Scheduled(a.state.evidence, x, "n")),
                             a.calls + [Call(x, "n")], a.verdicts + [Answered], a.resolved, a.lost))
  {
    NextSeedStep(id, n, last, probes, a.state.evidence, x);
    Answers(id, es, a, n, last, 0, probes, x, AcknowledgeAndTransition, NextSeedContext("n", 1, "t"), At(1, probes));
  }

  /** The evidence once an assessment of one item has landed. */
  function After(ev: Evidence, x: TurnId, level: nat, confidence: real): Evidence
  {
    DropPending(ev, x).(coverage := CoverageAfter(ev.coverage, Scored(x, level, confidence).output))
  }

  lemma ScoreStep(s: SessionState, x: TurnId, level: nat, confidence: real)
    requires !Terminal(s.phase) && s.review == Review(false, false, 0, 0) && x in s.evidence.pending
    ensures Transition(s, Scored(x, level, confidence), CONFIG)
         == Stepped(s.(evidence := After(s.evidence, x, level, confidence)), [PersistState])
  {
  }

  lemma Scores(id: nat, es: seq<Event>, a: Account, x: TurnId, level: nat, confidence: real)
    requires Accounts(id, es, a) && !Terminal(a.state.phase) && a.state.review == Review(false, false, 0, 0)
    requires x in a.state.evidence.pending
    ensures
      Accounts(id, es + [Scored(x, level, confidence)],
               a.(state := a.state.(evidence := After(a.state.evidence, x, level, confidence)),
                  resolved := a.resolved + [x], lost := a.lost + Extra(a.state.evidence.pending, x)))
  {
    ScoreStep(a.state, x, level, confidence);
    NoCalls([PersistState]);
    var t := a.state.(evidence := After(a.state.evidence, x, level, confidence));
    OneMore(id, es, a, Scored(x, level, confidence), t, [PersistState]);
    assert a.calls + [] == a.calls;
  }

  // ---------- a turn id reused while it is pending ----------

  /** The same id for two answers, and one assessment. */
  function ReusingRun(id: nat, x: TurnId): seq<Event>
  {
    Opening(id, x) + [Said(x)] + [Replies(id, 2, DepthProbe)] + [Said(x)] + [Replies(id, 3, DepthProbe)]
      + [Scored(x, 3, 0.9)]
  }

  function TwiceBooked(id: nat, x: TurnId, ev: Evidence): Account
  {
    Account(Asked(id, 3, DepthProbe, At(0, 2), ev), [Call(x, "n"), Call(x, "n")], [Clarify, Clarify], [], multiset{})
  }

  lemma TwiceScheduled(id: nat, x: TurnId)
    ensures
      var ev := Scheduled(Scheduled(NOTHING, x, "n"), x, "n");
      Accounts(id, ReusingRun(id, x)[..7], TwiceBooked(id, x, ev))
  {
    hide Accounts;
    var es, a := Opening(id, x), Account(Asked(id, 1, AskSeed, At(0, 0), NOTHING), [], [], [], multiset{});
    var ev := Scheduled(NOTHING, x, "n");
    Opens(id, x);
    Probes(id, es, a, 1, AskSeed, 0, 0, x);
    var more := es + [Said(x)] + [Replies(id, 2, DepthProbe)];
    var b := Account(Asked(id, 2, DepthProbe, At(0, 1), ev), [Call(x, "n")], [Clarify], [], multiset{});
    assert a.calls + [Call(x, "n")] == b.calls && a.verdicts + [Clarify] == b.verdicts;
    Probes(id, more, b, 2, DepthProbe, 0, 1, x);
    assert b.calls + [Call(x, "n")] == [Call(x, "n"), Call(x, "n")] && b.verdicts + [Clarify] == [Clarify, Clarify];
    assert more + [Said(x)] + [Replies(id, 3, DepthProbe)] == ReusingRun(id, x)[..7];
  }

  lemma BothDropped(x: TurnId)
    ensures
      var ev := Scheduled(Scheduled(NOTHING, x, "n"), x, "n");
      After(ev, x, 3, 0.9).pending == [] && Extra(ev.pending, x) == multiset{x}
  {
    var ev := Scheduled(Scheduled(NOTHING, x, "n"), x, "n");
    assert ev.pending == [x, x];
    AllDropped(ev.pending, x);
  }

  lemma {:induction false} AllDropped(pending: seq<TurnId>, x: TurnId)
    requires forall k :: 0 <= k < |pending| ==> pending[k] == x
    ensures Without(pending, x) == []
  {
    if pending != [] {
      AllDropped(Front(pending), x);
    }
  }

  /** Two answers are accepted and scheduled under one id; a single result takes both from the
      pending, and the other assessment is gone. */
  lemma ReusedIdLosesAnAssessment(id: nat, x: TurnId)
    ensures
      var s, es := InitialState(id, Shaped(PLAN), CONFIG), ReusingRun(id, x);
      var run := Execute(s, es, CONFIG);
      && run.Stepped? && Calls(run.commands) == [Call(x, "n"), Call(x, "n")]
      && Resolved(s, es, CONFIG) == [x] && run.state.evidence.pending == [] && Lost(s, es, CONFIG) == multiset{x}
  {
    var es, ev := ReusingRun(id, x)[..7], Scheduled(Scheduled(NOTHING, x, "n"), x, "n");
    TwiceScheduled(id, x);
    BothDropped(x);
    Scores(id, es, TwiceBooked(id, x, ev), x, 3, 0.9);
    assert es + [Scored(x, 3, 0.9)] == ReusingRun(id, x);
    assert [] + [x] == [x];
  }

  // ---------- a turn id reused once its result has landed ----------

  function ReusingLaterRun(id: nat, x: TurnId): seq<Event>
  {
    Opening(id, x) + [Said(x)] + [Replies(id, 2, DepthProbe)] + [Scored(x, 1, 0.9)]
      + [Said(x)] + [Replies(id, 3, DepthProbe)] + [Scored(x, 3, 0.9)]
  }

  /** Coverage by one item, or by later ones that are no lower. */
  function OneLevel(level: nat, confidence: real): Coverage
  {
    map["n" := CoverageCell(Some(level), confidence, Some(level), confidence, false, false, false, false, [])]
  }

  lemma OneRecorded(coverage: Coverage, x: TurnId, level: nat, confidence: real)
    requires coverage == map[] || exists l: nat, f :: l <= level && coverage == OneLevel(l, f)
    ensures CoverageAfter(coverage, Scored(x, level, confidence).output) == OneLevel(level, confidence)
  {
    var item := AssessmentItem("n", level, confidence);
    var items := [item];
    assert Front(items) == [] && Last(items) == item;
    assert RecordItems(coverage, Front(items)) == coverage;
    assert RecordItems(coverage, items) == coverage["n" := RecordItem(CellAt(coverage, "n"), item)];
    assert RecordItems(coverage, items) == OneLevel(level, confidence);
    assert LevelsRecorded(coverage, Scored(x, level, confidence).output) == OneLevel(level, confidence);
    var cell := OneLevel(level, confidence)["n"];
    assert cell.redFlags + [] == cell.redFlags;
  }

  /** What is left once the one pending assessment has landed. */
  lemma OneScored(coverage: Coverage, x: TurnId, level: nat, confidence: real)
    requires coverage == map[] || exists l: nat, f :: l <= level && coverage == OneLevel(l, f)
    ensures
      var ev := Scheduled(Evidence(coverage, [], map[]), x, "n");
      && After(ev, x, level, confidence) == Evidence(OneLevel(level, confidence), [], map[])
      && x in ev.pending && Extra(ev.pending, x) == multiset{}
  {
    var ev := Scheduled(Evidence(coverage, [], map[]), x, "n");
    assert ev.pending == [x];
    AllDropped(ev.pending, x);
    OneRecorded(coverage, x, level, confidence);
    assert ev.focus - {x} == map[];
  }

  /** One answer, its probe, and its assessment. */
  lemma AnswerScored(id: nat, es: seq<Event>, a: Account, coverage: Coverage, n: nat, last: Move, seed: int,
                     probes: int, x: TurnId, level: nat, confidence: real)
    requires Accounts(id, es, a) && a.state == Asked(id, n, last, At(seed, probes), Evidence(coverage, [], map[]))
    requires coverage == map[] || exists l: nat, f :: l <= level && coverage == OneLevel(l, f)
    requires VerdictOn(a.state.evidence, probes) == Clarify
    ensures
      Accounts(id, es + [Said(x)] + [Replies(id, n + 1, DepthProbe)] + [Scored(x, level, confidence)],
               Account(Asked(id, n + 1, DepthProbe, At(seed, probes + 1),
                             Evidence(OneLevel(level, confidence), [], map[])),
                       a.calls + [Call(x, "n")], a.verdicts + [Clarify], a.resolved + [x], a.lost))
  {
    hide Accounts, Transition, Execute, VerdictOn;
    var ev := Scheduled(Evidence(coverage, [], map[]), x, "n");
    Probes(id, es, a, n, last, seed, probes, x);
    OneScored(coverage, x, level, confidence);
    var b := Account(Asked(id, n + 1, DepthProbe, At(seed, probes + 1), ev),
                     a.calls + [Call(x, "n")], a.verdicts + [Clarify], a.resolved, a.lost);
    Scores(id, es + [Said(x)] + [Replies(id, n + 1, DepthProbe)], b, x, level, confidence);
    assert a.lost + multiset{} == a.lost;
  }

  /** The same id for two answers again, but the first assessment lands before the second
      answer: nothing is lost. */
  lemma ReusedLaterLosesNothing(id: nat, x: TurnId)
    ensures
      var s, es := InitialState(id, Shaped(PLAN), CONFIG), ReusingLaterRun(id, x);
      var run := Execute(s, es, CONFIG);
      && run.Stepped? && Calls(run.commands) == [Call(x, "n"), Call(x, "n")]
      && Resolved(s, es, CONFIG) == [x, x] && run.state.evidence.pending == [] && Lost(s, es, CONFIG) == multiset{}
  {
    var es, a := Opening(id, x), Account(Asked(id, 1, AskSeed, At(0, 0), NOTHING), [], [], [], multiset{});
    Opens(id, x);
    AnswerScored(id, es, a, map[], 1, AskSeed, 0, 0, x, 1, 0.9);
    var more := es + [Said(x)] + [Replies(id, 2, DepthProbe)] + [Scored(x, 1, 0.9)];
    var b := Account(Asked(id, 2, DepthProbe, At(0, 1), Evidence(OneLevel(1, 0.9), [], map[])), [Call(x, "n")],
                     [Clarify], [x], multiset{});
    assert [] + [Call(x, "n")] == b.calls && [] + [Clarify] == b.verdicts && [] + [x] == b.resolved;
    AnswerScored(id, more, b, OneLevel(1, 0.9), 2, DepthProbe, 0, 1, x, 3, 0.9);
    assert b.calls + [Call(x, "n")] == [Call(x, "n"), Call(x, "n")] && b.resolved + [x] == [x, x];
  }

  // ---------- an answer taken back ----------

  /** An answer of level 3 that is sure enough, then one of level 4 that is not. */
  function WaveringRun(id: nat, x: TurnId, y: TurnId, z: TurnId): seq<Event>
  {
    Opening(id, x) + [Said(x)] + [Replies(id, 2, DepthProbe)] + [Scored(x, 3, 0.9)]
      + [Said(y)] + [Replies(id, 3, AcknowledgeAndTransition)] + [Scored(y, 4, 0.5)]
      + [Said(z)] + [Replies(id, 4, DepthProbe)]
  }

  lemma AnsweredThenScored(id: nat, es: seq<Event>, a: Account, y: TurnId)
    requires Accounts(id, es, a)
    requires a.state == Asked(id, 2, DepthProbe, At(0, 1), Evidence(OneLevel(3, 0.9), [], map[]))
    ensures
      Accounts(id, es + [Said(y)] + [Replies(id, 3, AcknowledgeAndTransition)] + [Scored(y, 4, 0.5)],
               Account(Asked(id, 3, AcknowledgeAndTransition, At(1, 1), Evidence(OneLevel(4, 0.5), [], map[])),
                       a.calls + [Call(y, "n")], a.verdicts + [Answered], a.resolved + [y], a.lost))
  {
    var ev := Scheduled(Evidence(OneLevel(3, 0.9), [], map[]), y, "n");
    GoesOn(id, es, a, 2, DepthProbe, 1, y);
    OneScored(OneLevel(3, 0.9), y, 4, 0.5);
    var b := Account(Asked(id, 3, AcknowledgeAndTransition, At(1, 1), ev),
                     a.calls + [Call(y, "n")], a.verdicts + [Answered], a.resolved, a.lost);
    Scores(id, es + [Said(y)] + [Replies(id, 3, AcknowledgeAndTransition)], b, y, 4, 0.5);
    assert a.lost + multiset{} == a.lost;
  }

  /** Where the run has got to. */
  function WaveringEnd(id: nat, x: TurnId, y: TurnId, z: TurnId): Account
  {
    Account(Asked(id, 4, DepthProbe, At(1, 2), Scheduled(Evidence(OneLevel(4, 0.5), [], map[]), z, "n")),
            [Call(x, "n"), Call(y, "n"), Call(z, "n")], [Clarify, Answered, Clarify], [x, y], multiset{})
  }

  lemma Wavers(id: nat, x: TurnId, y: TurnId, z: TurnId)
    ensures Accounts(id, WaveringRun(id, x, y, z), WaveringEnd(id, x, y, z))
  {
    hide Accounts;
    var es, a := Opening(id, x), Account(Asked(id, 1, AskSeed, At(0, 0), NOTHING), [], [], [], multiset{});
    Opens(id, x);
    AnswerScored(id, es, a, map[], 1, AskSeed, 0, 0, x, 3, 0.9);
    var one := es + [Said(x)] + [Replies(id, 2, DepthProbe)] + [Scored(x, 3, 0.9)];
    var b := Account(Asked(id, 2, DepthProbe, At(0, 1), Evidence(OneLevel(3, 0.9), [], map[])),
                     [] + [Call(x, "n")], [] + [Clarify], [] + [x], multiset{});
    AnsweredThenScored(id, one, b, y);
    var two := one + [Said(y)] + [Replies(id, 3, AcknowledgeAndTransition)] + [Scored(y, 4, 0.5)];
    var d := Account(Asked(id, 3, AcknowledgeAndTransition, At(1, 1), Evidence(OneLevel(4, 0.5), [], map[])),
                     b.calls + [Call(y, "n")], b.verdicts + [Answered], b.resolved + [y], multiset{});
    Probes(id, two, d, 3, AcknowledgeAndTransition, 1, 1, z);
    assert d.calls + [Call(z, "n")] == [Call(x, "n"), Call(y, "n"), Call(z, "n")];
    assert d.verdicts + [Clarify] == [Clarify, Answered, Clarify] && d.resolved == [x, y];
  }

  /** A competency that has been answered, and left its first seed for that, is probed again on
      its second: a higher but less sure level has taken the answer back. */
  lemma AnsweredIsProbedAgain(id: nat, x: TurnId, y: TurnId, z: TurnId)
    ensures
      var s, es := InitialState(id, Shaped(PLAN), CONFIG), WaveringRun(id, x, y, z);
      && Execute(s, es, CONFIG).Stepped?
      && Verdicts(Visits(s, es, CONFIG)) == [Clarify, Answered, Clarify]
      && Execute(s, es, CONFIG).state.turn.lastMove == Some(DepthProbe)
      && Execute(s, es, CONFIG).state.loop == At(1, 2)
  {
    Wavers(id, x, y, z);
  }
}
