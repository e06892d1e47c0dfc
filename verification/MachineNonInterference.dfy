/** Two-run non-interference: candidate text, red flags, manual-review marks and the move
    an interviewer says it executed never reach a routing decision. */
module MachineNonInterference {
  import opened Common
  import opened StateMachine
  import opened MachineCommute

  /** A cell with the parts that are measurement only blanked out. */
  function RoutingCell(cell: CoverageCell): CoverageCell
  {
    cell.(needsManualReview := false, redFlags := [])
  }

  ghost predicate SameRoutingCoverage(x: Coverage, y: Coverage)
  {
    && (forall n :: n in x <==> n in y)
    && (forall n :: n in x && n in y ==> RoutingCell(x[n]) == RoutingCell(y[n]))
  }

  ghost predicate SameRoutingEvidence(x: Evidence, y: Evidence)
  {
    x.pending == y.pending && x.focus == y.focus && SameRoutingCoverage(x.coverage, y.coverage)
  }

  /** The two states differ at most in their review parts. */
  ghost predicate SameRouting(s: SessionState, t: SessionState)
  {
    t == s.(evidence := t.evidence, review := t.review) && SameRoutingEvidence(s.evidence, t.evidence)
  }

  /** The two events differ at most in what the machine must not route on. */
  predicate SameInput(e: Event, f: Event)
  {
    match e
    case CandidateTurnReceived(_, _, _) => f.CandidateTurnReceived? && f == e.(text := f.text)
    case InterviewerReplyReady(_, _, _) =>
      f.InterviewerReplyReady? && f == e.(reply := e.reply.(moveExecuted := f.reply.moveExecuted))
    case AssessmentCompleted(_, _, _) =>
      f.AssessmentCompleted?
      && f == e.(output := e.output.(redFlags := f.output.redFlags, needsManualReview := f.output.needsManualReview))
    case _ => f == e
  }

  ghost predicate SameStep(p: Step, q: Step)
  {
    if p.Raised? then q.Raised?
    else q.Stepped? && q.commands == p.commands && SameRouting(p.state, q.state)
  }

  // ---------- one step ----------

  lemma CellsAgree(x: Coverage, y: Coverage, node: string)
    requires SameRoutingCoverage(x, y)
    ensures RoutingCell(CellAt(x, node)) == RoutingCell(CellAt(y, node))
    ensures Lookup(x, node).Some? == Lookup(y, node).Some?
  {
  }

  lemma {:induction false} ItemsKeepRouting(x: Coverage, y: Coverage, items: seq<AssessmentItem>)
    requires SameRoutingCoverage(x, y)
    ensures SameRoutingCoverage(RecordItems(x, items), RecordItems(y, items))
  {
    if items != [] {
      ItemsKeepRouting(x, y, Front(items));
      var rx, ry, item := RecordItems(x, Front(items)), RecordItems(y, Front(items)), Last(items);
      CellsAgree(rx, ry, item.node);
      assert RoutingCell(RecordItem(CellAt(rx, item.node), item))
          == RoutingCell(RecordItem(CellAt(ry, item.node), item));
    }
  }

  lemma CoverageKeepsRouting(x: Coverage, y: Coverage, o: AssessorOutput, p: AssessorOutput)
    requires SameRoutingCoverage(x, y)
    requires p == o.(redFlags := p.redFlags, needsManualReview := p.needsManualReview)
    ensures SameRoutingCoverage(CoverageAfter(x, o), CoverageAfter(y, p))
  {
    ItemsKeepRouting(x, y, o.assessments);
    CellsAgree(x, y, o.focus);
    assert SameRoutingCoverage(LevelsRecorded(x, o), LevelsRecorded(y, p));
    CellsAgree(LevelsRecorded(x, o), LevelsRecorded(y, p), o.focus);
  }

  lemma AssessorEventsRouteAlike(s: SessionState, t: SessionState, e: Event, f: Event, c: Config)
    requires SameRouting(s, t) && SameInput(e, f) && IsAssessorEvent(e) && !Terminal(s.phase)
    ensures SameStep(Transition(s, e, c), Transition(t, f, c))
  {
    AssessorStep(s, e, c);
    AssessorStep(t, f, c);
    if e.AssessmentCompleted? {
      CoverageKeepsRouting(s.evidence.coverage, t.evidence.coverage, e.output, f.output);
    } else if e.forTurn in s.evidence.focus {
      CellsAgree(s.evidence.coverage, t.evidence.coverage, s.evidence.focus[e.forTurn]);
    }
  }

  lemma SameAdjudication(x: Option<CoverageCell>, y: Option<CoverageCell>, target: int, probes: int, remaining: Time,
                         c: Config)
    requires x.Some? == y.Some? && (x.Some? ==> RoutingCell(x.value) == RoutingCell(y.value))
    ensures Adjudicate(x, target, probes, remaining, c) == Adjudicate(y, target, probes, remaining, c)
  {
    if x.Some? {
      assert RoutingCell(x.value).latestLevel == x.value.latestLevel;
      assert RoutingCell(y.value).latestLevel == y.value.latestLevel;
    }
  }

  lemma SameReaction(s: SessionState, t: SessionState, now: Time, c: Config)
    requires SameRouting(s, t)
    ensures ReactionTo(s, now, c) == ReactionTo(t, now, c)
  {
    if CurrentCompetency(s).Some? {
      var comp := CurrentCompetency(s).value;
      CellsAgree(s.evidence.coverage, t.evidence.coverage, comp.nodeId);
      SameAdjudication(Lookup(s.evidence.coverage, comp.nodeId), Lookup(t.evidence.coverage, comp.nodeId),
                       comp.targetLevel, s.loop.probes, TimeRemaining(comp, s.loop.startedAt, now), c);
    }
  }

  lemma SameTechEvidence(x: Evidence, y: Evidence, turn: TurnId, node: string, gap: Option<GapMarker>)
    requires SameRoutingEvidence(x, y)
    ensures SameRoutingEvidence(TechEvidence(x, turn, node, gap), TechEvidence(y, turn, node, gap))
  {
    CellsAgree(x.coverage, y.coverage, node);
  }

  lemma TechTurnsRouteAlike(s: SessionState, t: SessionState, turn: TurnId, now: Time, c: Config)
    requires SameRouting(s, t)
    ensures SameStep(OnTechTurn(s, turn, now, c), OnTechTurn(t, turn, now, c))
  {
    SameReaction(s, t, now, c);
    if OnTechTurn(s, turn, now, c).Stepped? {
      TechTurnCarries(s, t.evidence, t.review, turn, now, c);
      var node, gap := CurrentCompetency(s).value.nodeId, ReactionTo(s, now, c).value.gap;
    SameTechEvidence(s.evidence, t.evidence, turn, node, gap);
    }
  }

  /** The event itself: its unrouted parts are not read. */
  lemma InputsRouteAlike(t: SessionState, e: Event, f: Event, c: Config)
    requires SameInput(e, f) && !IsAssessorEvent(e)
    ensures
      var p, q := Transition(t, e, c), Transition(t, f, c);
      if p.Raised? then q.Raised? else q == Stepped(p.state.(review := q.state.review), p.commands)
  {
  }

  lemma StepsRouteAlike(s: SessionState, t: SessionState, e: Event, f: Event, c: Config)
    requires SameRouting(s, t) && SameInput(e, f)
    ensures SameStep(Transition(s, e, c), Transition(t, f, c))
  {
    if Terminal(s.phase) {
    } else if IsAssessorEvent(e) {
      AssessorEventsRouteAlike(s, t, e, f, c);
    } else if AcceptedTechTurn(s, e) {
      TechTurnsRouteAlike(s, t, e.turnId, e.now, c);
    } else {
      InputsRouteAlike(t, e, f, c);
      assert t == s.(evidence := t.evidence, review := t.review);
      OtherEventCarries(s, t.evidence, t.review, e, c);
    }
  }

  // ---------- whole runs ----------

  ghost predicate SameInputs(es: seq<Event>, fs: seq<Event>)
  {
    |es| == |fs| && forall k :: 0 <= k < |es| ==> SameInput(es[k], fs[k])
  }

  lemma ThenRoutesAlike(p: Step, q: Step, e: Event, f: Event, c: Config)
    requires SameStep(p, q) && SameInput(e, f)
    ensures SameStep(Then(p, e, c), Then(q, f, c))
  {
    if p.Stepped? {
      StepsRouteAlike(p.state, q.state, e, f, c);
    }
  }

  /** Two runs over inputs that differ only in unrouted parts emit the same commands,
      one for one, and agree on every routing field throughout. */
  lemma {:induction false} RunsRouteAlike(s: SessionState, t: SessionState, es: seq<Event>, fs: seq<Event>, c: Config)
    requires SameRouting(s, t) && SameInputs(es, fs)
    ensures SameStep(Execute(s, es, c), Execute(t, fs, c))
    decreases |es|
  {
    if es != [] {
      RunsRouteAlike(s, t, Front(es), Front(fs), c);
      ThenRoutesAlike(Execute(s, Front(es), c), Execute(t, Front(fs), c), Last(es), Last(fs), c);
    }
  }
}
