/** Every decision on an answer, from the events of the run alone: what the assessor has said,
    what the answers before it came to, when the competency was entered, and the plan. */
module MachineDecisions {
  import opened Common
  import opened InterviewPlan
  import opened StateMachine
  import opened MachineInvariant
  import opened MachineCommute
  import opened MachineCoverage
  import opened MachineVerdicts
  import opened MachineClocks
  import MachineAssessments

  // ---------- the loop ----------

  /** The probes since the competency was entered, and the seeds that were answered. */
  function ProbesUsed(visits: seq<Visit>): nat
  {
    if visits == [] || Last(visits).leaves then 0
    else ProbesUsed(Front(visits)) + if Last(visits).verdict == Clarify then 1 else 0
  }

  function SeedsPassed(visits: seq<Visit>): nat
  {
    if visits == [] || Last(visits).leaves then 0
    else SeedsPassed(Front(visits)) + if Last(visits).verdict == Answered then 1 else 0
  }

  ghost predicate LoopCounts(s: SessionState, visits: seq<Visit>)
  {
    && (s.phase == Created || s.phase == Intro ==> visits == [])
    && (s.phase == Tech ==> s.loop.seed == SeedsPassed(visits) && s.loop.probes == ProbesUsed(visits))
  }

  ghost predicate LoopInStep(s: SessionState, e: Event, step: Step, c: Config)
  {
    && step.Stepped?
    && var t := step.state;
       && (t.phase == Created || t.phase == Intro ==> s.phase == Created || s.phase == Intro)
       && (t.phase == Tech && s.phase != Tech ==> s.phase == Intro && t.loop.seed == 0 && t.loop.probes == 0)
       && (IsVisit(s, e) && t.phase == Tech ==> LoopAfter(s.loop, t.loop, VisitOf(s, e.now, c)))
       && (!IsVisit(s, e) && s.phase == Tech && t.phase == Tech ==> t.loop == s.loop)
  }

  predicate LoopAfter(loop: Loop, after: Loop, v: Visit)
  {
    if v.leaves then after.seed == 0 && after.probes == 0
    else
      && after.seed == loop.seed + (if v.verdict == Answered then 1 else 0)
      && after.probes == loop.probes + (if v.verdict == Clarify then 1 else 0)
  }

  lemma TechTurnLoop(s: SessionState, e: Event, c: Config)
    requires Invariant(s, c) && IsVisit(s, e)
    ensures LoopInStep(s, e, OnTechTurn(s, e.turnId, e.now, c), c)
  {
    hide Adjudicate;
    ReactionKeeps(s, e.now, c);
  }

  lemma CandidateTurnLoop(s: SessionState, e: Event, c: Config)
    requires Invariant(s, c) && e.CandidateTurnReceived? && s.phase != Created && !Terminal(s.phase)
    ensures LoopInStep(s, e, OnCandidateTurn(s, e.turnId, e.now, c), c)
  {
    hide OnTechTurn;
    CandidateTurnKeeps(s, e.turnId, e.now, c);
    if IsVisit(s, e) {
      TechTurnLoop(s, e, c);
    }
  }

  lemma StepLoops(s: SessionState, e: Event, c: Config)
    requires Invariant(s, c)
    ensures LoopInStep(s, e, Transition(s, e, c), c)
  {
    hide OnCandidateTurn;
    if e.CandidateTurnReceived? && s.phase != Created && !Terminal(s.phase) {
      CandidateTurnLoop(s, e, c);
    }
  }

  lemma LoopStep(s: SessionState, visits: seq<Visit>, e: Event, step: Step, c: Config)
    requires LoopCounts(s, visits) && LoopInStep(s, e, step, c)
    ensures LoopCounts(step.state, if IsVisit(s, e) then visits + [VisitOf(s, e.now, c)] else visits)
  {
    hide VisitOf;
    if IsVisit(s, e) {
      assert Front(visits + [VisitOf(s, e.now, c)]) == visits;
    }
  }

  lemma {:induction false} LoopsCountVisits(sessionId: nat, plan: RawPlan, es: seq<Event>, c: Config)
    ensures
      var s := InitialState(sessionId, plan, c);
      Execute(s, es, c).Stepped? && LoopCounts(Execute(s, es, c).state, Visits(s, es, c))
    decreases |es|
  {
    if es != [] {
      hide Transition, LoopCounts, LoopInStep, VisitOf;
      var s, front := InitialState(sessionId, plan, c), Front(es);
      LoopsCountVisits(sessionId, plan, front, c);
      ReachableInvariant(sessionId, plan, front, c);
      var before := Execute(s, front, c);
      StepLoops(before.state, Last(es), c);
      LoopStep(before.state, Visits(s, front, c), Last(es), Transition(before.state, Last(es), c), c);
    }
    assert LoopCounts(InitialState(sessionId, plan, c), []);
  }

  /** In every run in TECH, the loop is what the answers so far have come to: the competency
      after those left, the seeds answered and probes spent since it was entered, and when. */
  lemma LoopIsItsVisits(sessionId: nat, plan: RawPlan, es: seq<Event>, c: Config)
    ensures
      var s := InitialState(sessionId, plan, c);
      && Execute(s, es, c).Stepped?
      && var t, visits := Execute(s, es, c).state, Visits(s, es, c);
         t.phase == Tech ==>
           t.loop == Loop(StandsAt(visits), SeedsPassed(visits), ProbesUsed(visits),
                          LastTime(s, es, EntersCompetency, c))
  {
    hide Transition, VisitOf, Walk;
    LoopsCountVisits(sessionId, plan, es, c);
    RunsWalkThePlan(sessionId, plan, es, c);
    ClocksHoldTheRun(sessionId, plan, es, c);
  }

  // ---------- the decision ----------

  /** The answer ends the time for probes, or for the competency. */
  predicate TimeForProbesIsOver(comp: Competency, entered: Time, now: Time, c: Config)
  {
    now >= entered + 60_000_000 * comp.minutes - 1_000_000 * c.minProbeSeconds
  }

  predicate TimeIsOver(comp: Competency, entered: Time, now: Time)
  {
    now >= entered + 60_000_000 * comp.minutes
  }

  predicate NothingLeft(comp: Competency, probes: nat, entered: Time, now: Time, c: Config)
  {
    probes >= c.maxProbes || TimeForProbesIsOver(comp, entered, now, c)
  }

  /** The decision table, from the top: enough evidence; a zero last; no probes or no time left;
      an assessor that could not say, even after a probe; and otherwise one more probe. */
  ghost predicate Decided(
    v: Visit, h: History, comp: Competency, seeds: nat, probes: nat, entered: Time, now: Time, c: Config)
  {
    var items := AllItemsAbout(h.outputs, comp.nodeId);
    var answered, zero := Evidenced(items, comp.targetLevel, c), EndsInZero(items);
    var spent := NothingLeft(comp, probes, entered, now, c);
    var unassessable := SomeSaysNothing(h.outputs, comp.nodeId) && probes >= 1;
    && v.node == comp.nodeId
    && (v.verdict == Answered <==> answered)
    && (v.gap == Some(LevelZero) <==> !answered && zero)
    && (v.gap == Some(GapBudgetExhausted) <==> !answered && !zero && spent)
    && (v.gap == Some(GapNotAssessable) <==> !answered && !zero && !spent && unassessable)
    && (v.verdict == Clarify <==> !answered && !zero && !spent && !unassessable)
    && (v.verdict == NoEvidence <==> v.gap.Some?)
    && (v.leaves <==>
          v.verdict == NoEvidence
          || (v.verdict == Answered && (seeds + 1 >= |comp.seeds| || TimeIsOver(comp, entered, now))))
  }

  /** What a decision is based on: levels; or a word that there is nothing to assess; or a failed
      assessment; or nothing yet. */
  ghost function BasisFrom(h: History, node: string): Basis
  {
    if AllItemsAbout(h.outputs, node) != [] then Assessment
    else if SomeSaysNothing(h.outputs, node) then NotAssessable
    else if node in h.failures then Failed
    else Pending
  }

  lemma CellDecides(s: SessionState, h: History, now: Time, c: Config)
    requires CoverageMeans(s.evidence.coverage, h) && CurrentCompetency(s).Some?
    requires 0 <= s.loop.seed && 0 <= s.loop.probes && s.loop.startedAt.Some?
    ensures Decided(VisitOf(s, now, c), h, CurrentCompetency(s).value, s.loop.seed, s.loop.probes,
                    s.loop.startedAt.value, now, c)
    ensures TechDecision(s, CurrentCompetency(s).value, now, c).basis
         == BasisFrom(h, CurrentCompetency(s).value.nodeId)
  {
    var comp := CurrentCompetency(s).value;
    var cell, items := CellAt(s.evidence.coverage, comp.nodeId), AllItemsAbout(h.outputs, comp.nodeId);
    assert CellMeans(cell, h, comp.nodeId);
    forall i, j | 0 <= i < |items| && 0 <= j < |items| && IsBest(items, i) && IsBest(items, j)
      ensures i == j
    {
    }
  }

  /** In every run, the decision on the next accepted answer is the one the table gives for the
      history of assessor outputs, the answers before it, and the time since the competency was
      entered. */
  lemma AnswersAreDecided(sessionId: nat, plan: RawPlan, es: seq<Event>, e: Event, c: Config)
    ensures
      var s := InitialState(sessionId, plan, c);
      && Execute(s, es, c).Stepped?
      && var t, visits, entered := Execute(s, es, c).state, Visits(s, es, c), LastTime(s, es, EntersCompetency, c);
         AcceptedTechTurn(t, e) ==>
           && entered.Some? && ValidatePlan(plan).Some?
           && 0 <= StandsAt(visits) < |plan.plan.competencies|
           && CurrentCompetency(t) == Some(plan.plan.competencies[StandsAt(visits)])
           && Visits(s, es + [e], c) == visits + [VisitOf(t, e.now, c)]
           && VisitOf(t, e.now, c).index == StandsAt(visits)
           && Decided(VisitOf(t, e.now, c), HistoryOf(s, es, c), plan.plan.competencies[StandsAt(visits)],
                      SeedsPassed(visits), ProbesUsed(visits), entered.value, e.now, c)
           && TechDecision(t, CurrentCompetency(t).value, e.now, c).basis
              == BasisFrom(HistoryOf(s, es, c), CurrentCompetency(t).value.nodeId)
  {
    hide Transition, Decided, Walk;
    var s := InitialState(sessionId, plan, c);
    ReachableInvariant(sessionId, plan, es, c);
    MachineAssessments.CallsAreAboutThePlan(sessionId, plan, es, c);
    CoverageIsItsHistory(sessionId, plan, es, c);
    LoopIsItsVisits(sessionId, plan, es, c);
    assert Front(es + [e]) == es && Last(es + [e]) == e;
    var t := Execute(s, es, c).state;
    if AcceptedTechTurn(t, e) {
      CellDecides(t, HistoryOf(s, es, c), e.now, c);
    }
  }
}
