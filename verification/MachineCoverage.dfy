/** Coverage is maintained one assessor output at a time; in every run it equals its
    definition over the whole ordered history of what was folded in. */
module MachineCoverage {
  import opened Common
  import opened InterviewPlan
  import opened StateMachine
  import opened MachineInvariant
  import opened MachineCommute

  // ---------- the history of a run ----------

  /** What a run has folded into coverage, oldest first: assessor outputs, the focus nodes
      of failed assessments, and the nodes left with their budget exhausted. */
  datatype History = History(outputs: seq<AssessorOutput>, failures: seq<string>, exhausted: seq<string>)

  function Remember(h: History, s: SessionState, e: Event, c: Config): History
  {
    if Terminal(s.phase) then h
    else if e.AssessmentCompleted? && e.forTurn in s.evidence.pending then h.(outputs := h.outputs + [e.output])
    else if e.AssessmentFailed? && e.forTurn in s.evidence.pending && e.forTurn in s.evidence.focus
    then h.(failures := h.failures + [s.evidence.focus[e.forTurn]])
    else if AcceptedTechTurn(s, e) && ReactionTo(s, e.now, c).Some?
            && ReactionTo(s, e.now, c).value.gap == Some(GapBudgetExhausted)
    then h.(exhausted := h.exhausted + [CurrentCompetency(s).value.nodeId])
    else h
  }

  function HistoryOf(s: SessionState, es: seq<Event>, c: Config): History
    decreases |es|
  {
    if es == [] then History([], [], [])
    else
      var h, before := HistoryOf(s, Front(es), c), Execute(s, Front(es), c);
      if before.Raised? then h else Remember(h, before.state, Last(es), c)
  }

  /** The items about one node, in order. */
  function ItemsAbout(items: seq<AssessmentItem>, node: string): seq<AssessmentItem>
  {
    if items == [] then []
    else ItemsAbout(Front(items), node) + (if Last(items).node == node then [Last(items)] else [])
  }

  function AllItemsAbout(outputs: seq<AssessorOutput>, node: string): seq<AssessmentItem>
  {
    if outputs == [] then []
    else AllItemsAbout(Front(outputs), node) + ItemsAbout(Last(outputs).assessments, node)
  }

  /** The red flags of the outputs focused on one node, in order. */
  function FlagsAbout(outputs: seq<AssessorOutput>, node: string): seq<RedFlag>
  {
    if outputs == [] then []
    else FlagsAbout(Front(outputs), node) + (if Last(outputs).focus == node then Last(outputs).redFlags else [])
  }

  // ---------- what a cell means ----------

  /** Item k is the last one to reach the highest level. */
  predicate IsBest(items: seq<AssessmentItem>, k: nat)
    requires k < |items|
  {
    forall j :: 0 <= j < |items| ==> items[j].level <= items[k].level && (k < j ==> items[j].level < items[k].level)
  }

  ghost predicate LevelsMean(cell: CoverageCell, items: seq<AssessmentItem>)
  {
    if items == [] then cell.bestLevel.None? && cell.latestLevel.None?
    else
      && cell.latestLevel == Some(Last(items).level) && cell.latestConfidence == Last(items).confidence
      && exists k :: 0 <= k < |items| && IsBest(items, k)
                     && cell.bestLevel == Some(items[k].level) && cell.bestConfidence == items[k].confidence
  }

  predicate SaysNothing(o: AssessorOutput, node: string)
  {
    o.focus == node && o.assessments == []
  }

  predicate AsksForReview(o: AssessorOutput, node: string)
  {
    o.focus == node && o.needsManualReview
  }

  ghost predicate SomeSaysNothing(outputs: seq<AssessorOutput>, node: string)
  {
    exists k :: 0 <= k < |outputs| && SaysNothing(outputs[k], node)
  }

  ghost predicate SomeAsksForReview(outputs: seq<AssessorOutput>, node: string)
  {
    exists k :: 0 <= k < |outputs| && AsksForReview(outputs[k], node)
  }

  /** The definition of one cell over the history. */
  ghost predicate CellMeans(cell: CoverageCell, h: History, node: string)
  {
    && LevelsMean(cell, AllItemsAbout(h.outputs, node))
    && cell.redFlags == FlagsAbout(h.outputs, node)
    && (cell.gapNotAssessable <==> SomeSaysNothing(h.outputs, node))
    && (cell.needsManualReview <==> SomeAsksForReview(h.outputs, node))
    && (cell.assessmentFailed <==> node in h.failures)
    && (cell.gapBudgetExhausted <==> node in h.exhausted)
  }

  ghost predicate CoverageMeans(coverage: Coverage, h: History)
  {
    forall n :: CellMeans(CellAt(coverage, n), h, n)
  }

  // ---------- folding one output ----------

  function FoldItems(cell: CoverageCell, items: seq<AssessmentItem>): CoverageCell
  {
    if items == [] then cell else RecordItem(FoldItems(cell, Front(items)), Last(items))
  }

  lemma {:induction false} RecordedCell(coverage: Coverage, items: seq<AssessmentItem>, node: string)
    ensures CellAt(RecordItems(coverage, items), node) == FoldItems(CellAt(coverage, node), ItemsAbout(items, node))
  {
    if items != [] {
      RecordedCell(coverage, Front(items), node);
      var about := ItemsAbout(Front(items), node);
      if Last(items).node == node {
        assert Front(about + [Last(items)]) == about;
      } else {
        assert about + [] == about;
      }
    }
  }

  lemma RecordMeans(cell: CoverageCell, items: seq<AssessmentItem>, item: AssessmentItem)
    requires LevelsMean(cell, items)
    ensures LevelsMean(RecordItem(cell, item), items + [item])
  {
    var more := items + [item];
    if items == [] || item.level >= cell.bestLevel.value {
      assert IsBest(more, |items|);
    } else {
      var k :| 0 <= k < |items| && IsBest(items, k)
               && cell.bestLevel == Some(items[k].level) && cell.bestConfidence == items[k].confidence;
      assert IsBest(more, k);
    }
  }

  lemma {:induction false} FoldMeans(cell: CoverageCell, items: seq<AssessmentItem>, more: seq<AssessmentItem>)
    requires LevelsMean(cell, items)
    ensures LevelsMean(FoldItems(cell, more), items + more)
    ensures FoldItems(cell, more) == cell.(bestLevel := FoldItems(cell, more).bestLevel,
                                           bestConfidence := FoldItems(cell, more).bestConfidence,
                                           latestLevel := FoldItems(cell, more).latestLevel,
                                           latestConfidence := FoldItems(cell, more).latestConfidence)
  {
    if more == [] {
      assert items + more == items;
    } else {
      FoldMeans(cell, items, Front(more));
      RecordMeans(FoldItems(cell, Front(more)), items + Front(more), Last(more));
      assert items + Front(more) + [Last(more)] == items + more;
    }
  }

  /** One cell after one output. */
  function OutputCell(cell: CoverageCell, o: AssessorOutput, node: string): CoverageCell
  {
    var levels := FoldItems(cell, ItemsAbout(o.assessments, node));
    levels.(gapNotAssessable := levels.gapNotAssessable || SaysNothing(o, node),
            needsManualReview := levels.needsManualReview || AsksForReview(o, node),
            redFlags := levels.redFlags + (if o.focus == node then o.redFlags else []))
  }

  lemma CellAfterOutput(coverage: Coverage, o: AssessorOutput, node: string)
    ensures CellAt(CoverageAfter(coverage, o), node) == OutputCell(CellAt(coverage, node), o, node)
  {
    RecordedCell(coverage, o.assessments, node);
    assert CellAt(LevelsRecorded(coverage, o), node)
        == FoldItems(CellAt(coverage, node), ItemsAbout(o.assessments, node)).(gapNotAssessable :=
             CellAt(LevelsRecorded(coverage, o), node).gapNotAssessable);
    var flags := CellAt(LevelsRecorded(coverage, o), node).redFlags;
    assert flags + [] == flags;
  }

  lemma OneMoreOutput(outputs: seq<AssessorOutput>, o: AssessorOutput, node: string)
    ensures SomeSaysNothing(outputs + [o], node) <==> SomeSaysNothing(outputs, node) || SaysNothing(o, node)
    ensures SomeAsksForReview(outputs + [o], node) <==> SomeAsksForReview(outputs, node) || AsksForReview(o, node)
  {
    var more := outputs + [o];
    assert more[|outputs|] == o;
    assert forall k :: 0 <= k < |outputs| ==> more[k] == outputs[k];
  }

  lemma OutputMeans(coverage: Coverage, h: History, o: AssessorOutput, node: string)
    requires CellMeans(CellAt(coverage, node), h, node)
    ensures CellMeans(CellAt(CoverageAfter(coverage, o), node), h.(outputs := h.outputs + [o]), node)
  {
    assert Front(h.outputs + [o]) == h.outputs;
    CellAfterOutput(coverage, o, node);
    FoldMeans(CellAt(coverage, node), AllItemsAbout(h.outputs, node), ItemsAbout(o.assessments, node));
    OneMoreOutput(h.outputs, o, node);
  }

  lemma FailureMeans(coverage: Coverage, h: History, failed: string)
    requires CoverageMeans(coverage, h)
    ensures CoverageMeans(FailureMarked(coverage, failed), h.(failures := h.failures + [failed]))
  {
    forall n
      ensures CellMeans(CellAt(FailureMarked(coverage, failed), n), h.(failures := h.failures + [failed]), n)
    {
      assert CellMeans(CellAt(coverage, n), h, n);
    }
  }

  lemma ExhaustionMeans(coverage: Coverage, h: History, left: string)
    requires CoverageMeans(coverage, h)
    ensures CoverageMeans(GapMarked(coverage, left, Some(GapBudgetExhausted)), h.(exhausted := h.exhausted + [left]))
  {
    forall n
      ensures CellMeans(CellAt(GapMarked(coverage, left, Some(GapBudgetExhausted)), n),
                        h.(exhausted := h.exhausted + [left]), n)
    {
      assert CellMeans(CellAt(coverage, n), h, n);
    }
  }

  // ---------- runs ----------

  lemma OtherCoverage(s: SessionState, e: Event, c: Config)
    requires !Terminal(s.phase) && !IsAssessorEvent(e) && Transition(s, e, c).Stepped?
    ensures
      var after := Transition(s, e, c).state.evidence.coverage;
      if AcceptedTechTurn(s, e)
      then
        var reaction := ReactionTo(s, e.now, c);
        && CurrentCompetency(s).Some? && reaction.Some?
        && after == GapMarked(s.evidence.coverage, CurrentCompetency(s).value.nodeId, reaction.value.gap)
      else after == s.evidence.coverage
  {
    if AcceptedTechTurn(s, e) {
      TechTurnCarries(s, s.evidence, s.review, e.turnId, e.now, c);
    } else {
      OtherEventCarries(s, s.evidence, s.review, e, c);
    }
  }

  lemma StepMeans(s: SessionState, h: History, e: Event, c: Config)
    requires CoverageMeans(s.evidence.coverage, h) && Transition(s, e, c).Stepped?
    ensures CoverageMeans(Transition(s, e, c).state.evidence.coverage, Remember(h, s, e, c))
  {
    if Terminal(s.phase) {
    } else if IsAssessorEvent(e) {
      AssessorStep(s, e, c);
      if e.forTurn in s.evidence.pending {
        if e.AssessmentCompleted? {
          forall n
            ensures CellMeans(CellAt(CoverageAfter(s.evidence.coverage, e.output), n),
                              h.(outputs := h.outputs + [e.output]), n)
          {
            OutputMeans(s.evidence.coverage, h, e.output, n);
          }
        } else if e.forTurn in s.evidence.focus {
          FailureMeans(s.evidence.coverage, h, s.evidence.focus[e.forTurn]);
        }
      }
    } else {
      OtherCoverage(s, e, c);
      if AcceptedTechTurn(s, e) {
        ExhaustionMeans(s.evidence.coverage, h, CurrentCompetency(s).value.nodeId);
      }
    }
  }

  /** In every run, every cell of coverage is what its definition over the ordered
      history says: best level the maximum, best confidence that of the last item to
      reach it, latest the last item, and each marker exactly when its cause occurred. */
  lemma {:induction false} CoverageIsItsHistory(sessionId: nat, plan: RawPlan, es: seq<Event>, c: Config)
    ensures
      var run := Execute(InitialState(sessionId, plan, c), es, c);
      run.Stepped? && CoverageMeans(run.state.evidence.coverage, HistoryOf(InitialState(sessionId, plan, c), es, c))
    decreases |es|
  {
    if es != [] {
      CoverageIsItsHistory(sessionId, plan, Front(es), c);
      ReachableInvariant(sessionId, plan, es, c);
      var s := InitialState(sessionId, plan, c);
      StepMeans(Execute(s, Front(es), c).state, HistoryOf(s, Front(es), c), Last(es), c);
    }
  }

  // ---------- review signals ----------

  function Cheats(cell: CoverageCell): nat
  {
    CheatFlags(cell.redFlags)
  }

  /** The LIKELY_CHEATING entries of all cells together. */
  ghost function TotalCheats(coverage: Coverage): nat
    decreases |coverage|
  {
    if coverage == map[] then 0
    else
      var n :| n in coverage;
      Cheats(coverage[n]) + TotalCheats(coverage - {n})
  }

  lemma {:induction false} TotalPick(coverage: Coverage, n: string)
    requires n in coverage
    ensures TotalCheats(coverage) == Cheats(coverage[n]) + TotalCheats(coverage - {n})
    decreases |coverage|
  {
    var m :| m in coverage && TotalCheats(coverage) == Cheats(coverage[m]) + TotalCheats(coverage - {m});
    if m != n {
      TotalPick(coverage - {m}, n);
      TotalPick(coverage - {n}, m);
      assert coverage - {m} - {n} == coverage - {n} - {m};
    }
  }

  lemma TotalUpdate(coverage: Coverage, n: string, cell: CoverageCell)
    ensures TotalCheats(coverage[n := cell]) + Cheats(CellAt(coverage, n)) == TotalCheats(coverage) + Cheats(cell)
  {
    TotalPick(coverage[n := cell], n);
    if n in coverage {
      TotalPick(coverage, n);
      assert coverage[n := cell] - {n} == coverage - {n};
    } else {
      assert coverage[n := cell] - {n} == coverage;
    }
  }

  lemma {:induction false} ItemsKeepTotal(coverage: Coverage, items: seq<AssessmentItem>)
    ensures TotalCheats(RecordItems(coverage, items)) == TotalCheats(coverage)
  {
    if items != [] {
      ItemsKeepTotal(coverage, Front(items));
      var before := RecordItems(coverage, Front(items));
      TotalUpdate(before, Last(items).node, RecordItem(CellAt(before, Last(items).node), Last(items)));
    }
  }

  lemma CheatFlagsAppend(a: seq<RedFlag>, b: seq<RedFlag>)
    ensures CheatFlags(a + b) == CheatFlags(a) + CheatFlags(b)
  {
    CountAppend(a, b, f => f == LikelyCheating);
  }

  lemma OutputTotal(coverage: Coverage, o: AssessorOutput)
    ensures TotalCheats(CoverageAfter(coverage, o)) == TotalCheats(coverage) + CheatFlags(o.redFlags)
  {
    var levels := LevelsRecorded(coverage, o);
    ItemsKeepTotal(coverage, o.assessments);
    TotalUpdate(coverage, o.focus, CellAt(coverage, o.focus).(gapNotAssessable := true));
    var cell := CellAt(levels, o.focus);
    CheatFlagsAppend(cell.redFlags, o.redFlags);
    TotalUpdate(levels, o.focus, CellAt(CoverageAfter(coverage, o), o.focus));
  }

  ghost predicate SomeCellNeedsReview(coverage: Coverage)
  {
    exists n :: n in coverage && coverage[n].needsManualReview
  }

  /** The session-level signals are the cells' signals added up. */
  ghost predicate SignalsAddUp(s: SessionState, c: Config)
  {
    && s.review.cheatFlags == TotalCheats(s.evidence.coverage)
    && (s.review.needsManual <==> SomeCellNeedsReview(s.evidence.coverage))
    && (s.review.flagged <==> s.review.cheatFlags >= c.cheatFlagsToReview || s.review.drift >= c.driftToReview)
  }

  lemma {:induction false} ItemsKeepReview(coverage: Coverage, items: seq<AssessmentItem>)
    ensures SomeCellNeedsReview(RecordItems(coverage, items)) <==> SomeCellNeedsReview(coverage)
  {
    if items != [] {
      ItemsKeepReview(coverage, Front(items));
      var before := RecordItems(coverage, Front(items));
      ReviewUpdate(before, Last(items).node, RecordItem(CellAt(before, Last(items).node), Last(items)));
    }
  }

  lemma ReviewUpdate(coverage: Coverage, n: string, cell: CoverageCell)
    requires CellAt(coverage, n).needsManualReview ==> cell.needsManualReview
    ensures SomeCellNeedsReview(coverage[n := cell]) <==> SomeCellNeedsReview(coverage) || cell.needsManualReview
  {
    var after := coverage[n := cell];
    if SomeCellNeedsReview(coverage) {
      var m :| m in coverage && coverage[m].needsManualReview;
      assert after[m].needsManualReview;
    }
    if cell.needsManualReview {
      assert after[n].needsManualReview;
    }
  }

  lemma OutputReview(coverage: Coverage, o: AssessorOutput)
    ensures SomeCellNeedsReview(CoverageAfter(coverage, o)) <==> SomeCellNeedsReview(coverage) || o.needsManualReview
  {
    var levels := LevelsRecorded(coverage, o);
    ItemsKeepReview(coverage, o.assessments);
    ReviewUpdate(coverage, o.focus, CellAt(coverage, o.focus).(gapNotAssessable := true));
    ReviewUpdate(levels, o.focus, CellAt(CoverageAfter(coverage, o), o.focus));
  }

  lemma MarkKeepsSignals(coverage: Coverage, n: string, cell: CoverageCell)
    requires cell.redFlags == CellAt(coverage, n).redFlags
    requires cell.needsManualReview == CellAt(coverage, n).needsManualReview
    ensures TotalCheats(coverage[n := cell]) == TotalCheats(coverage)
    ensures SomeCellNeedsReview(coverage[n := cell]) <==> SomeCellNeedsReview(coverage)
  {
    TotalUpdate(coverage, n, cell);
    ReviewUpdate(coverage, n, cell);
  }

  lemma AssessorSignals(s: SessionState, e: Event, c: Config)
    requires SignalsAddUp(s, c) && IsAssessorEvent(e) && !Terminal(s.phase)
    ensures Transition(s, e, c).Stepped? && SignalsAddUp(Transition(s, e, c).state, c)
  {
    AssessorStep(s, e, c);
    if e.AssessmentCompleted? {
      OutputTotal(s.evidence.coverage, e.output);
      OutputReview(s.evidence.coverage, e.output);
    } else if e.forTurn in s.evidence.focus {
      var node := s.evidence.focus[e.forTurn];
      MarkKeepsSignals(s.evidence.coverage, node, CellAt(s.evidence.coverage, node).(assessmentFailed := true));
    }
  }

  lemma StepSignals(s: SessionState, e: Event, c: Config)
    requires SignalsAddUp(s, c) && Transition(s, e, c).Stepped?
    ensures SignalsAddUp(Transition(s, e, c).state, c)
  {
    if Terminal(s.phase) {
    } else if IsAssessorEvent(e) {
      AssessorSignals(s, e, c);
    } else if AcceptedTechTurn(s, e) {
      TechTurnCarries(s, s.evidence, s.review, e.turnId, e.now, c);
      var node := CurrentCompetency(s).value.nodeId;
      MarkKeepsSignals(s.evidence.coverage, node, CellAt(s.evidence.coverage, node).(gapBudgetExhausted := true));
    } else {
      OtherEventCarries(s, s.evidence, s.review, e, c);
    }
  }

  /** In every run: the session's cheat count is the LIKELY_CHEATING entries of all cells
      together, it needs manual review exactly when some cell does, and it is flagged
      exactly when the cheat or the drift count has reached its threshold. */
  lemma {:induction false} ReviewSignalsAddUp(sessionId: nat, plan: RawPlan, es: seq<Event>, c: Config)
    ensures Execute(InitialState(sessionId, plan, c), es, c).Stepped?
    ensures SignalsAddUp(Execute(InitialState(sessionId, plan, c), es, c).state, c)
    decreases |es|
  {
    if es != [] {
      ReviewSignalsAddUp(sessionId, plan, Front(es), c);
      ReachableInvariant(sessionId, plan, es, c);
      StepSignals(Execute(InitialState(sessionId, plan, c), Front(es), c).state, Last(es), c);
    }
  }
}
