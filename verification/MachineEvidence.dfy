/** When an answered competency stops being answered: evidence is the last item at the best
    level, so an item as high but less sure takes an answer back. */
module MachineEvidence {
  import opened Common
  import opened InterviewPlan
  import opened StateMachine
  import opened MachineAssessments
  import opened MachineCoverage
  import opened MachineVerdicts

  // ---------- the best of a series of items ----------

  lemma {:induction false} BestExists(items: seq<AssessmentItem>) returns (k: nat)
    requires items != []
    ensures k < |items| && IsBest(items, k)
  {
    if |items| == 1 {
      k := 0;
    } else {
      k := BestExists(Front(items));
      if Last(items).level >= items[k].level {
        k := |items| - 1;
        assert forall j :: 0 <= j < |Front(items)| ==> Front(items)[j] == items[j];
      } else {
        assert forall j :: 0 <= j < |Front(items)| ==> items[j] == Front(items)[j];
      }
    }
  }

  lemma BestDecides(items: seq<AssessmentItem>, k: nat, target: int, c: Config)
    requires k < |items| && IsBest(items, k)
    ensures Evidenced(items, target, c) <==> items[k].level >= target && items[k].confidence >= c.confidenceMin
  {
    if Evidenced(items, target, c) {
      var i :| 0 <= i < |items| && IsBest(items, i)
               && items[i].level >= target && items[i].confidence >= c.confidenceMin;
      assert i == k;
    }
  }

  /** Of two series, the later one decides unless its best is lower. */
  lemma BestOfBoth(items: seq<AssessmentItem>, more: seq<AssessmentItem>, k: nat, j: nat)
    requires k < |items| && IsBest(items, k) && j < |more| && IsBest(more, j)
    ensures IsBest(items + more, if more[j].level >= items[k].level then |items| + j else k)
  {
    var both := items + more;
    assert forall i :: 0 <= i < |items| ==> both[i] == items[i];
    assert forall i :: |items| <= i < |both| ==> both[i] == more[i - |items|];
  }

  /** The best of `more` is as high as the best of `items`, but not sure enough. */
  ghost predicate TakesBack(items: seq<AssessmentItem>, more: seq<AssessmentItem>, c: Config)
  {
    exists k: nat, j: nat :: k < |items| && j < |more| && IsBest(items, k) && IsBest(more, j)
                             && more[j].level >= items[k].level && more[j].confidence < c.confidenceMin
  }

  /** Items that were evidence cease to be, with more items behind them, exactly when the best
      of those is at least as high and not sure enough. */
  lemma RevocationIsExact(items: seq<AssessmentItem>, more: seq<AssessmentItem>, target: int, c: Config)
    requires Evidenced(items, target, c)
    ensures !Evidenced(items + more, target, c) <==> TakesBack(items, more, c)
  {
    var k := BestExists(items);
    BestDecides(items, k, target, c);
    if more == [] {
      assert items + more == items;
    } else {
      var j := BestExists(more);
      BestOfBoth(items, more, k, j);
      BestDecides(items + more, if more[j].level >= items[k].level then |items| + j else k, target, c);
      if TakesBack(items, more, c) {
        var a: nat, b: nat :| a < |items| && b < |more| && IsBest(items, a) && IsBest(more, b)
                              && more[b].level >= items[a].level && more[b].confidence < c.confidenceMin;
        assert a == k && b == j;
      }
    }
  }

  // ---------- runs ----------

  lemma AnsweredIffEvidenced(s: SessionState, h: History, comp: Competency, now: Time, c: Config)
    requires CoverageMeans(s.evidence.coverage, h)
    ensures TechDecision(s, comp, now, c).verdict == Answered
            <==> Evidenced(AllItemsAbout(h.outputs, comp.nodeId), comp.targetLevel, c)
  {
    CellGivesVerdict(s.evidence.coverage, h, comp, s.loop.probes, TimeRemaining(comp, s.loop.startedAt, now), c);
  }

  /** The assessment `e` is taken, and its items for the node take the answer back. */
  ghost predicate RevokedBy(s: SessionState, h: History, e: Event, node: string, c: Config)
  {
    && e.AssessmentCompleted? && Resolves(s, e)
    && TakesBack(AllItemsAbout(h.outputs, node), ItemsAbout(e.output.assessments, node), c)
  }

  lemma ItemsGrow(s: SessionState, h: History, e: Event, node: string, c: Config)
    ensures
      var after := Remember(h, s, e, c);
      AllItemsAbout(after.outputs, node)
      == AllItemsAbout(h.outputs, node)
         + if e.AssessmentCompleted? && Resolves(s, e) then ItemsAbout(e.output.assessments, node) else []
  {
    assert AllItemsAbout(h.outputs, node) + [] == AllItemsAbout(h.outputs, node);
    if e.AssessmentCompleted? {
      assert Front(h.outputs + [e.output]) == h.outputs;
    }
  }

  /** In every run, an event turns an answered competency into one that is not answered exactly
      when it is an assessment that is taken and whose items for it do so: the best of them is
      at least as high as the best so far, and below the confidence asked for. */
  lemma AnswersAreTakenBackIff(
    sessionId: nat, plan: RawPlan, es: seq<Event>, e: Event, comp: Competency, now: Time, later: Time, c: Config)
    ensures
      var s := InitialState(sessionId, plan, c);
      var before, after := Execute(s, es, c), Execute(s, es + [e], c);
      && before.Stepped? && after.Stepped?
      && (TechDecision(before.state, comp, now, c).verdict == Answered ==>
            (TechDecision(after.state, comp, later, c).verdict != Answered
             <==> RevokedBy(before.state, HistoryOf(s, es, c), e, comp.nodeId, c)))
  {
    var s := InitialState(sessionId, plan, c);
    CoverageIsItsHistory(sessionId, plan, es, c);
    CoverageIsItsHistory(sessionId, plan, es + [e], c);
    assert Front(es + [e]) == es && Last(es + [e]) == e;
    TakenBackIff(Execute(s, es, c).state, Execute(s, es + [e], c).state, HistoryOf(s, es, c), e, comp, now, later, c);
  }

  lemma TakenBackIff(s: SessionState, t: SessionState, h: History, e: Event, comp: Competency, now: Time, later: Time,
                     c: Config)
    requires CoverageMeans(s.evidence.coverage, h) && CoverageMeans(t.evidence.coverage, Remember(h, s, e, c))
    ensures TechDecision(s, comp, now, c).verdict == Answered ==>
              (TechDecision(t, comp, later, c).verdict != Answered <==> RevokedBy(s, h, e, comp.nodeId, c))
  {
    AnsweredIffEvidenced(s, h, comp, now, c);
    AnsweredIffEvidenced(t, Remember(h, s, e, c), comp, later, c);
    ItemsGrow(s, h, e, comp.nodeId, c);
    var items := AllItemsAbout(h.outputs, comp.nodeId);
    if Evidenced(items, comp.targetLevel, c) {
      if e.AssessmentCompleted? && Resolves(s, e) {
        RevocationIsExact(items, ItemsAbout(e.output.assessments, comp.nodeId), comp.targetLevel, c);
      } else {
        assert items + [] == items;
      }
    }
  }
}
