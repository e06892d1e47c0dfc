/** What a run makes of its verdicts: the moves and gaps it emits, the order in which it walks
    the plan, and how a verdict follows from everything the assessor has said. */
module MachineVerdicts {
  import opened Common
  import opened InterviewPlan
  import opened StateMachine
  import opened MachineInvariant
  import opened MachineCommute
  import opened MachineCoverage
  import opened MachineEdges

  // ---------- the assessed turns of a run ----------

  /** An accepted TECH answer: the competency it was given in, the verdict on that, whether
      the competency was left, and whether it was the last of the plan. */
  datatype Visit = Visit(
    index: int,
    node: string,
    verdict: Verdict,
    gap: Option<GapMarker>,
    leaves: bool,
    last: bool)

  function VisitOf(s: SessionState, now: Time, c: Config): Visit
    requires CurrentCompetency(s).Some?
  {
    var comp := CurrentCompetency(s).value;
    var a := TechDecision(s, comp, now, c);
    Visit(s.loop.competency, comp.nodeId, a.verdict, a.gap, Leaves(s, now, c),
          s.plan.value.CompetencyAt(s.loop.competency + 1).None?)
  }

  predicate IsVisit(s: SessionState, e: Event)
  {
    AcceptedTechTurn(s, e) && CurrentCompetency(s).Some?
  }

  function Visits(s: SessionState, es: seq<Event>, c: Config): seq<Visit>
    decreases |es|
  {
    if es == [] then []
    else
      var earlier, before := Visits(s, Front(es), c), Execute(s, Front(es), c);
      if before.Stepped? && IsVisit(before.state, Last(es))
      then earlier + [VisitOf(before.state, Last(es).now, c)] else earlier
  }

  // ---------- the moves and gaps of a run ----------

  /** The commands that tell how a competency fares: a probe, a move that closes it (named by
      the competency it closes), and a recorded gap. Retries are left aside. */
  datatype Mark = Probed(node: Option<string>) | Closed(named: Option<string>) | Gapped(gap: string, marker: GapMarker)

  function MarkOf(x: Command): seq<Mark>
  {
    match x
    case RecordGap(node, marker) => [Gapped(node, marker)]
    case Send(out) => MoveMark(out)
    case _ => []
  }

  function MoveMark(out: Outbound): seq<Mark>
  {
    if !out.RunInterviewer? || out.retry then []
    else if out.move == DepthProbe then [Probed(out.node)]
    else if out.move == CloseCompetency
    then [Closed(if out.context.AdvanceContext? then Some(out.context.closing) else None)]
    else []
  }

  function Marks(cs: seq<Command>): seq<Mark>
  {
    if cs == [] then [] else Marks(Front(cs)) + MarkOf(Last(cs))
  }

  lemma {:induction false} MarksAppend(a: seq<Command>, b: seq<Command>)
    ensures Marks(a + b) == Marks(a) + Marks(b)
  {
    if b == [] {
      assert a + b == a;
    } else {
      assert Front(a + b) == a + Front(b) && Last(a + b) == Last(b);
      MarksAppend(a, Front(b));
      var m, n, last := Marks(a), Marks(Front(b)), MarkOf(Last(b));
      assert m + n + last == m + (n + last);
    }
  }

  lemma {:induction false} NoMarks(cs: seq<Command>)
    requires forall k :: 0 <= k < |cs| ==> MarkOf(cs[k]) == []
    ensures Marks(cs) == []
  {
    if cs != [] {
      assert MarkOf(cs[|cs| - 1]) == [];
      NoMarks(Front(cs));
    }
  }

  lemma MarksOfFour(a: Command, b: Command, x: Command, y: Command)
    ensures Marks([a, b, x]) == MarkOf(a) + MarkOf(b) + MarkOf(x)
    ensures Marks([a, b, x, y]) == MarkOf(a) + MarkOf(b) + MarkOf(x) + MarkOf(y)
  {
    assert Front([a]) == [] && Marks([a]) == [] + MarkOf(a) == MarkOf(a);
    assert Front([a, b]) == [a] && Marks([a, b]) == MarkOf(a) + MarkOf(b);
    assert Front([a, b, x]) == [a, b];
    assert Front([a, b, x, y]) == [a, b, x];
  }

  /** What a verdict calls for: a probe when it asks for more; when there is no evidence, a
      recorded gap, and a closing move if another competency follows; otherwise nothing. */
  function Due(v: Visit): seq<Mark>
    requires v.verdict == NoEvidence ==> v.gap.Some?
  {
    match v.verdict
    case Answered => []
    case Clarify => [Probed(Some(v.node))]
    case NoEvidence =>
      if v.last then [Gapped(v.node, v.gap.value)] else [Closed(Some(v.node)), Gapped(v.node, v.gap.value)]
  }

  predicate Sensible(v: Visit)
  {
    && (v.verdict == NoEvidence <==> v.gap.Some?)
    && (v.verdict == NoEvidence ==> v.leaves) && (v.verdict == Clarify ==> !v.leaves)
  }

  function AllDue(visits: seq<Visit>): seq<Mark>
    requires forall k :: 0 <= k < |visits| ==> Sensible(visits[k])
  {
    if visits == [] then []
    else
      assert Sensible(visits[|visits| - 1]);
      AllDue(Front(visits)) + Due(Last(visits))
  }

  lemma ReactionFollowsVerdict(s: SessionState, now: Time, c: Config)
    requires Invariant(s, c) && s.phase == Tech
    ensures CurrentCompetency(s).Some? && ReactionTo(s, now, c).Some? && Sensible(VisitOf(s, now, c))
    ensures
      var v, r := VisitOf(s, now, c), ReactionTo(s, now, c).value;
      && r.gap == v.gap
      && (r.next.None? <==> v.leaves && v.last)
      && (r.next.Some? ==> r.next.value.competency == v.index + if v.leaves then 1 else 0)
      && (v.verdict == Clarify ==> r.move == DepthProbe && r.node == Some(v.node))
      && (v.verdict != Clarify ==> r.move != DepthProbe)
      && (v.verdict == NoEvidence && !v.last ==>
            r.move == CloseCompetency && r.context.AdvanceContext? && r.context.closing == v.node)
      && (v.verdict != NoEvidence || v.last ==> r.move != CloseCompetency)
  {
    ReactionKeeps(s, now, c);
  }

  lemma TechTurnMarks(s: SessionState, turn: TurnId, now: Time, c: Config)
    requires Invariant(s, c) && s.phase == Tech
    ensures CurrentCompetency(s).Some? && Sensible(VisitOf(s, now, c)) && OnTechTurn(s, turn, now, c).Stepped?
    ensures Marks(OnTechTurn(s, turn, now, c).commands) == Due(VisitOf(s, now, c))
  {
    ReactionFollowsVerdict(s, now, c);
    var v, r := VisitOf(s, now, c), ReactionTo(s, now, c).value;
    var next := NewMove(Staged(s, turn, v.node, r, now), r.move, r.node, r.context);
    TechCommandsMark(turn, v, next, r.gap);
  }

  lemma TechCommandsMark(turn: TurnId, v: Visit, next: Outbound, gap: Option<GapMarker>)
    requires Sensible(v) && gap == v.gap && next.RunInterviewer? && !next.retry
    requires v.verdict == Clarify ==> next.move == DepthProbe && next.node == Some(v.node)
    requires v.verdict != Clarify ==> next.move != DepthProbe
    requires v.verdict == NoEvidence && !v.last ==>
               next.move == CloseCompetency && next.context.AdvanceContext? && next.context.closing == v.node
    requires v.verdict != NoEvidence || v.last ==> next.move != CloseCompetency
    ensures Marks(TechCommands(turn, v.node, next, gap)) == Due(v)
  {
    MarksOfFour(RunAssessor(turn, v.node), Send(next),
                if gap.None? then PersistState else RecordGap(v.node, gap.value), PersistState);
  }

  /** The marks of one step, and none but those of an accepted TECH answer. */
  ghost predicate MarksInStep(s: SessionState, e: Event, step: Step, c: Config)
  {
    && step.Stepped?
    && (if IsVisit(s, e)
        then Sensible(VisitOf(s, e.now, c)) && Marks(step.commands) == Due(VisitOf(s, e.now, c))
        else Marks(step.commands) == [])
  }

  lemma CandidateTurnMarks(s: SessionState, e: Event, c: Config)
    requires Invariant(s, c) && e.CandidateTurnReceived? && s.phase != Created && !Terminal(s.phase)
    ensures MarksInStep(s, e, OnCandidateTurn(s, e.turnId, e.now, c), c)
  {
    CandidateTurnKeeps(s, e.turnId, e.now, c);
    if IsVisit(s, e) {
      TechTurnMarks(s, e.turnId, e.now, c);
    } else {
      NoMarks(OnCandidateTurn(s, e.turnId, e.now, c).commands);
    }
  }

  lemma StepMarks(s: SessionState, e: Event, c: Config)
    requires Invariant(s, c)
    ensures MarksInStep(s, e, Transition(s, e, c), c)
  {
    hide OnCandidateTurn, Invariant;
    if e.CandidateTurnReceived? && s.phase != Created && !Terminal(s.phase) {
      CandidateTurnMarks(s, e, c);
    } else {
      NoMarks(Transition(s, e, c).commands);
    }
  }

  /** All the visits of a run, and the marks they call for. */
  ghost predicate Marked(run: Step, visits: seq<Visit>)
  {
    && run.Stepped? && (forall k :: 0 <= k < |visits| ==> Sensible(visits[k]))
    && Marks(run.commands) == AllDue(visits)
  }

  lemma MarkedStep(before: Step, visits: seq<Visit>, e: Event, step: Step, c: Config)
    requires Marked(before, visits) && MarksInStep(before.state, e, step, c)
    ensures Marked(Stepped(step.state, before.commands + step.commands),
                   if IsVisit(before.state, e) then visits + [VisitOf(before.state, e.now, c)] else visits)
  {
    MarksAppend(before.commands, step.commands);
    if IsVisit(before.state, e) {
      assert Front(visits + [VisitOf(before.state, e.now, c)]) == visits;
    } else {
      assert Marks(before.commands) + [] == Marks(before.commands);
    }
  }

  lemma MarkedThen(before: Step, visits: seq<Visit>, e: Event, c: Config)
    requires Marked(before, visits) && Invariant(before.state, c)
    ensures Marked(Then(before, e, c),
                   if IsVisit(before.state, e) then visits + [VisitOf(before.state, e.now, c)] else visits)
  {
    StepMarks(before.state, e, c);
    MarkedStep(before, visits, e, Transition(before.state, e, c), c);
  }

  /** In every run: a depth probe goes out exactly when a verdict asks for more, a gap is
      recorded exactly when there is no evidence and for the competency that turn leaves, and
      a competency is closed exactly then, unless it is the last, which gives way to Q&A. */
  lemma {:induction false} RunsMarkTheirVerdicts(sessionId: nat, plan: RawPlan, es: seq<Event>, c: Config)
    ensures
      var s := InitialState(sessionId, plan, c);
      Marked(Execute(s, es, c), Visits(s, es, c))
    decreases |es|
  {
    if es != [] {
      RunsMarkTheirVerdicts(sessionId, plan, Front(es), c);
      ReachableInvariant(sessionId, plan, Front(es), c);
      var s := InitialState(sessionId, plan, c);
      MarkedThen(Execute(s, Front(es), c), Visits(s, Front(es), c), Last(es), c);
    }
  }

  // ---------- the walk through the plan ----------

  /** Where the loop stands after these visits. */
  function StandsAt(visits: seq<Visit>): int
  {
    if visits == [] then 0 else Last(visits).index + if Last(visits).leaves then 1 else 0
  }

  /** From the first competency on, each visit where the one before it left off, and none once
      the last competency is left. */
  ghost predicate Walk(visits: seq<Visit>)
  {
    && (forall k :: 0 <= k < |visits| ==> visits[k].index == StandsAt(visits[..k]))
    && (forall k :: 0 <= k < |visits| - 1 ==> !(visits[k].leaves && visits[k].last))
  }

  ghost predicate OnTheWay(s: SessionState, visits: seq<Visit>)
  {
    && Walk(visits)
    && (s.phase == Created || s.phase == Intro ==> visits == [])
    && (s.phase == Tech ==> s.loop.competency == StandsAt(visits))
    && (s.phase == Tech && visits != [] ==> !(Last(visits).leaves && Last(visits).last))
  }

  /** What one step means for the walk. */
  ghost predicate WalksInStep(s: SessionState, e: Event, step: Step, c: Config)
  {
    && step.Stepped?
    && (step.state.phase == Created || step.state.phase == Intro ==> s.phase == Created || s.phase == Intro)
    && (step.state.phase == Tech && s.phase != Tech ==> s.phase == Intro && step.state.loop.competency == 0)
    && (IsVisit(s, e) ==>
          var v := VisitOf(s, e.now, c);
          && step.state.phase == (if v.leaves && v.last then Qa else Tech)
          && (step.state.phase == Tech ==> step.state.loop.competency == v.index + if v.leaves then 1 else 0))
    && (!IsVisit(s, e) && s.phase == Tech && step.state.phase == Tech ==>
          step.state.loop.competency == s.loop.competency)
  }

  lemma TechTurnWalks(s: SessionState, e: Event, c: Config)
    requires Invariant(s, c) && IsVisit(s, e)
    ensures WalksInStep(s, e, OnTechTurn(s, e.turnId, e.now, c), c)
  {
    ReactionFollowsVerdict(s, e.now, c);
  }

  lemma CandidateTurnWalks(s: SessionState, e: Event, c: Config)
    requires Invariant(s, c) && e.CandidateTurnReceived? && s.phase != Created && !Terminal(s.phase)
    ensures WalksInStep(s, e, OnCandidateTurn(s, e.turnId, e.now, c), c)
  {
    if IsVisit(s, e) {
      TechTurnWalks(s, e, c);
    } else {
      CandidateTurnKeeps(s, e.turnId, e.now, c);
    }
  }

  lemma StepWalks(s: SessionState, e: Event, c: Config)
    requires Invariant(s, c)
    ensures WalksInStep(s, e, Transition(s, e, c), c)
  {
    if e.CandidateTurnReceived? && s.phase != Created && !Terminal(s.phase) {
      CandidateTurnWalks(s, e, c);
    }
  }

  lemma WalkOn(s: SessionState, visits: seq<Visit>, e: Event, step: Step, c: Config)
    requires OnTheWay(s, visits) && WalksInStep(s, e, step, c)
    ensures OnTheWay(step.state, if IsVisit(s, e) then visits + [VisitOf(s, e.now, c)] else visits)
  {
    if IsVisit(s, e) {
      var v := VisitOf(s, e.now, c);
      var more := visits + [v];
      assert more[..|visits|] == visits;
      forall k | 0 <= k < |more|
        ensures more[k].index == StandsAt(more[..k])
      {
        assert k < |visits| ==> more[..k] == visits[..k];
      }
    }
  }

  /** In every run the plan is walked from its first competency on, one after the other, none
      skipped and none after the last is left. */
  lemma {:induction false} RunsWalkThePlan(sessionId: nat, plan: RawPlan, es: seq<Event>, c: Config)
    ensures
      var s := InitialState(sessionId, plan, c);
      Execute(s, es, c).Stepped? && OnTheWay(Execute(s, es, c).state, Visits(s, es, c))
    decreases |es|
  {
    if es != [] {
      RunsWalkThePlan(sessionId, plan, Front(es), c);
      ReachableInvariant(sessionId, plan, Front(es), c);
      var s := InitialState(sessionId, plan, c);
      var before := Execute(s, Front(es), c);
      StepWalks(before.state, Last(es), c);
      WalkOn(before.state, Visits(s, Front(es), c), Last(es), Transition(before.state, Last(es), c), c);
    }
  }

  lemma {:induction false} WalkNeverReturns(visits: seq<Visit>, i: nat, j: nat)
    requires Walk(visits) && i < j < |visits|
    ensures visits[i].index <= visits[j].index
    ensures visits[i].leaves ==> visits[i].index < visits[j].index
    decreases j
  {
    assert visits[j].index == StandsAt(visits[..j]) && Last(visits[..j]) == visits[j - 1];
    if i < j - 1 {
      WalkNeverReturns(visits, i, j - 1);
    }
  }

  /** No competency is ever entered again once it is left, and none has two gaps. */
  lemma NoCompetencyIsReentered(sessionId: nat, plan: RawPlan, es: seq<Event>, c: Config, i: nat, j: nat)
    ensures
      var visits := Visits(InitialState(sessionId, plan, c), es, c);
      i < j < |visits| ==>
        && visits[i].index <= visits[j].index
        && (visits[i].leaves || visits[i].gap.Some? ==> visits[i].index < visits[j].index)
  {
    var s := InitialState(sessionId, plan, c);
    RunsWalkThePlan(sessionId, plan, es, c);
    RunsMarkTheirVerdicts(sessionId, plan, es, c);
    var visits := Visits(s, es, c);
    if i < j < |visits| {
      WalkNeverReturns(visits, i, j);
      assert Sensible(visits[i]);
    }
  }

  /** A competency whose minutes are over is left by the next accepted turn, whatever the
      evidence, the seeds and the probes left. */
  lemma CompetencyEndsOnTime(s: SessionState, e: Event, c: Config)
    requires Invariant(s, c) && TurnInTech(s, e)
    requires e.now >= s.loop.startedAt.value + 60_000_000 * s.plan.value.competencies[s.loop.competency].minutes
    ensures
      var step := Transition(s, e, c);
      && step.Stepped?
      && (step.state.phase == Qa || (step.state.phase == Tech && step.state.loop.competency == s.loop.competency + 1))
  {
    StepWalks(s, e, c);
    assert Leaves(s, e.now, c);
  }

  // ---------- verdicts and the history ----------

  predicate OutOfBudget(probes: int, remaining: Time, c: Config)
  {
    probes >= c.maxProbes || remaining <= Seconds(c.minProbeSeconds)
  }

  /** The last item to reach the best level reaches the target, with enough confidence. */
  ghost predicate Evidenced(items: seq<AssessmentItem>, target: int, c: Config)
  {
    exists k :: 0 <= k < |items| && IsBest(items, k)
                && items[k].level >= target && items[k].confidence >= c.confidenceMin
  }

  predicate EndsInZero(items: seq<AssessmentItem>)
  {
    items != [] && Last(items).level == 0
  }

  /** The verdict on a competency, from everything the assessor has ever said about it. */
  ghost function VerdictFrom(h: History, comp: Competency, probes: int, remaining: Time, c: Config): Verdict
  {
    var items := AllItemsAbout(h.outputs, comp.nodeId);
    if Evidenced(items, comp.targetLevel, c) then Answered
    else if EndsInZero(items) || OutOfBudget(probes, remaining, c)
            || (SomeSaysNothing(h.outputs, comp.nodeId) && probes >= 1)
    then NoEvidence
    else Clarify
  }

  lemma CellGivesVerdict(coverage: Coverage, h: History, comp: Competency, probes: int, remaining: Time, c: Config)
    requires CoverageMeans(coverage, h)
    ensures Adjudicate(Lookup(coverage, comp.nodeId), comp.targetLevel, probes, remaining, c).verdict
         == VerdictFrom(h, comp, probes, remaining, c)
  {
    assert CellMeans(CellAt(coverage, comp.nodeId), h, comp.nodeId);
    var items := AllItemsAbout(h.outputs, comp.nodeId);
    forall i, j | 0 <= i < |items| && 0 <= j < |items| && IsBest(items, i) && IsBest(items, j)
      ensures i == j
    {
    }
  }

  /** In every run, the verdict on the current competency is the one the whole ordered history
      of assessor outputs gives: the last item at the best level decides, and a zero that came
      last outweighs the probes left. */
  lemma VerdictsFollowHistory(sessionId: nat, plan: RawPlan, es: seq<Event>, now: Time, c: Config)
    ensures
      var s := InitialState(sessionId, plan, c);
      var run := Execute(s, es, c);
      && run.Stepped?
      && (run.state.phase == Tech ==>
            && CurrentCompetency(run.state).Some?
            && var comp := CurrentCompetency(run.state).value;
               TechDecision(run.state, comp, now, c).verdict
               == VerdictFrom(HistoryOf(s, es, c), comp, run.state.loop.probes,
                              TimeRemaining(comp, run.state.loop.startedAt, now), c))
  {
    CoverageIsItsHistory(sessionId, plan, es, c);
    ReachableInvariant(sessionId, plan, es, c);
    var s := InitialState(sessionId, plan, c);
    var t := Execute(s, es, c).state;
    if t.phase == Tech {
      var comp := CurrentCompetency(t).value;
      CellGivesVerdict(t.evidence.coverage, HistoryOf(s, es, c), comp, t.loop.probes,
                       TimeRemaining(comp, t.loop.startedAt, now), c);
    }
  }

  // ---------- a silent assessor ----------

  predicate NoneCompleted(es: seq<Event>)
  {
    forall k :: 0 <= k < |es| ==> !es[k].AssessmentCompleted?
  }

  lemma {:induction false} NothingSaid(s: SessionState, es: seq<Event>, c: Config)
    requires NoneCompleted(es)
    ensures HistoryOf(s, es, c).outputs == []
    decreases |es|
  {
    if es != [] {
      assert !es[|es| - 1].AssessmentCompleted?;
      assert forall k :: 0 <= k < |Front(es)| ==> Front(es)[k] == es[k];
      NothingSaid(s, Front(es), c);
    }
  }

  /** Nobody answered, and any gap is for want of budget. */
  predicate Unassessed(v: Visit)
  {
    v.verdict != Answered && (v.gap.Some? ==> v.gap == Some(GapBudgetExhausted))
  }

  lemma UnheardVisit(s: SessionState, h: History, now: Time, c: Config)
    requires CurrentCompetency(s).Some? && CoverageMeans(s.evidence.coverage, h) && h.outputs == []
    ensures Unassessed(VisitOf(s, now, c))
  {
    var node := CurrentCompetency(s).value.nodeId;
    assert CellMeans(CellAt(s.evidence.coverage, node), h, node);
    assert AllItemsAbout(h.outputs, node) == [];
  }

  /** In every run in which no assessment completes, however many are pending or fail, nothing
      is ever answered, and competencies are closed by their probe and time budgets alone. */
  lemma {:induction false} SilentAssessorOnlySpendsBudget(
    sessionId: nat, plan: RawPlan, es: seq<Event>, c: Config, k: nat)
    requires NoneCompleted(es)
    ensures
      var visits := Visits(InitialState(sessionId, plan, c), es, c);
      k < |visits| ==> Unassessed(visits[k])
    decreases |es|
  {
    if es != [] {
      var s, front := InitialState(sessionId, plan, c), Front(es);
      assert forall j :: 0 <= j < |front| ==> front[j] == es[j];
      SilentAssessorOnlySpendsBudget(sessionId, plan, front, c, k);
      CoverageIsItsHistory(sessionId, plan, front, c);
      NothingSaid(s, front, c);
      var before := Execute(s, front, c);
      if IsVisit(before.state, Last(es)) {
        UnheardVisit(before.state, HistoryOf(s, front, c), Last(es).now, c);
      }
    }
  }

  // ---------- silence ----------

  /** The candidate, or the start of the session, is heard. */
  predicate Hears(s: SessionState, e: Event)
  {
    || (s.phase == Created && e.SessionStarted? && ValidatePlan(s.info.planInput).Some?)
    || (e.CandidateTurnReceived? && (s.phase == Intro || s.phase == Qa || AcceptedTechTurn(s, e)))
  }

  /** When anything was last heard in a run. */
  function LastHeard(s: SessionState, es: seq<Event>, c: Config): Option<Time>
    decreases |es|
  {
    if es == [] then None
    else
      var before := Execute(s, Front(es), c);
      if before.Stepped? && Hears(before.state, Last(es)) then Some(Last(es).now) else LastHeard(s, Front(es), c)
  }

  ghost predicate HearsInStep(s: SessionState, e: Event, step: Step)
  {
    && step.Stepped?
    && step.state.clocks.lastActivity == if Hears(s, e) then Some(e.now) else s.clocks.lastActivity
  }

  lemma CandidateTurnIsHeard(s: SessionState, e: Event, c: Config)
    requires Invariant(s, c) && e.CandidateTurnReceived? && s.phase != Created && !Terminal(s.phase)
    ensures HearsInStep(s, e, OnCandidateTurn(s, e.turnId, e.now, c))
  {
    CandidateTurnKeeps(s, e.turnId, e.now, c);
  }

  lemma StepHears(s: SessionState, e: Event, c: Config)
    requires Invariant(s, c)
    ensures HearsInStep(s, e, Transition(s, e, c))
  {
    if e.CandidateTurnReceived? && s.phase != Created && !Terminal(s.phase) {
      CandidateTurnIsHeard(s, e, c);
    }
  }

  lemma {:induction false} LastActivityIsLastHeard(sessionId: nat, plan: RawPlan, es: seq<Event>, c: Config)
    ensures
      var s := InitialState(sessionId, plan, c);
      Execute(s, es, c).Stepped? && Execute(s, es, c).state.clocks.lastActivity == LastHeard(s, es, c)
    decreases |es|
  {
    if es != [] {
      LastActivityIsLastHeard(sessionId, plan, Front(es), c);
      ReachableInvariant(sessionId, plan, Front(es), c);
      StepHears(Execute(InitialState(sessionId, plan, c), Front(es), c).state, Last(es), c);
    }
  }

  /** In every run that has not ended, a tick ends it for silence exactly when more than the
      configured minutes have passed since the candidate, or the start, was last heard. */
  lemma TicksEndForSilence(sessionId: nat, plan: RawPlan, es: seq<Event>, e: Event, c: Config)
    requires e.TimerTick?
    ensures
      var s := InitialState(sessionId, plan, c);
      var run := Execute(s, es, c);
      && run.Stepped?
      && (!Terminal(run.state.phase) ==>
            var step, heard := Transition(run.state, e, c), LastHeard(s, es, c);
            && step.Stepped?
            && (step.state.abortReason == Some(CandidateTimeout)
                <==> heard.Some? && e.now > heard.value + 60_000_000 * c.candidateTimeoutMinutes))
  {
    var s := InitialState(sessionId, plan, c);
    LastActivityIsLastHeard(sessionId, plan, es, c);
    ReachableInvariant(sessionId, plan, es, c);
    EdgesAreExact(Execute(s, es, c).state, e, c);
  }
}
