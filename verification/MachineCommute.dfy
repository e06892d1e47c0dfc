/** When an assessor result lands does not matter, except to a later TECH answer for a
    node it scores: the result commutes with every other event that leaves the session
    alive, in the state reached and in the commands emitted. */
module MachineCommute {
  import opened Common
  import opened StateMachine
  import opened MachineInvariant

  predicate IsAssessorEvent(e: Event)
  {
    e.AssessmentCompleted? || e.AssessmentFailed?
  }

  // ---------- coverage is updated locally ----------

  function NodesOf(items: seq<AssessmentItem>): set<string>
  {
    set k | 0 <= k < |items| :: items[k].node
  }

  /** The nodes whose cells an assessor event may change. */
  function Touched(ev: Evidence, a: Event): set<string>
    requires IsAssessorEvent(a)
  {
    match a
    case AssessmentCompleted(_, output, _) => NodesOf(output.assessments) + {output.focus}
    case AssessmentFailed(turn, _, _) => if turn in ev.focus then {ev.focus[turn]} else {}
  }

  ghost predicate AgreeOn(x: Coverage, y: Coverage, nodes: set<string>)
  {
    forall n :: n in nodes ==> Lookup(x, n) == Lookup(y, n)
  }

  ghost predicate AgreeOff(x: Coverage, y: Coverage, nodes: set<string>)
  {
    forall n :: n !in nodes ==> Lookup(x, n) == Lookup(y, n)
  }

  lemma {:induction false} ItemsAreLocal(x: Coverage, y: Coverage, items: seq<AssessmentItem>)
    ensures AgreeOff(x, RecordItems(x, items), NodesOf(items))
    ensures AgreeOn(x, y, NodesOf(items)) ==> AgreeOn(RecordItems(x, items), RecordItems(y, items), NodesOf(items))
    decreases |items|
  {
    if items != [] {
      ItemsAreLocal(x, y, Front(items));
      var item := Last(items);
      assert NodesOf(items) == NodesOf(Front(items)) + {item.node} by {
        assert items == Front(items) + [item];
      }
      if AgreeOn(x, y, NodesOf(items)) {
        ItemsAreLocal(y, x, Front(items));
        var rx, ry := RecordItems(x, Front(items)), RecordItems(y, Front(items));
        assert Lookup(rx, item.node) == Lookup(ry, item.node) by {
          if item.node !in NodesOf(Front(items)) {
            assert Lookup(rx, item.node) == Lookup(x, item.node);
            assert Lookup(ry, item.node) == Lookup(y, item.node);
          }
        }
        assert CellAt(rx, item.node) == CellAt(ry, item.node);
      }
    }
  }

  /** The coverage an accepted assessor event leaves. */
  function Updated(coverage: Coverage, ev: Evidence, a: Event): Coverage
    requires IsAssessorEvent(a)
  {
    match a
    case AssessmentCompleted(_, output, _) => CoverageAfter(coverage, output)
    case AssessmentFailed(turn, _, _) => if turn in ev.focus then FailureMarked(coverage, ev.focus[turn]) else coverage
  }

  lemma UpdateIsLocal(x: Coverage, y: Coverage, ev: Evidence, a: Event)
    requires IsAssessorEvent(a)
    ensures AgreeOff(x, Updated(x, ev, a), Touched(ev, a))
    ensures AgreeOn(x, y, Touched(ev, a)) ==> AgreeOn(Updated(x, ev, a), Updated(y, ev, a), Touched(ev, a))
  {
    if a.AssessmentCompleted? {
      ItemsAreLocal(x, y, a.output.assessments);
      ItemsAreLocal(y, x, a.output.assessments);
      if AgreeOn(x, y, Touched(ev, a)) {
        assert AgreeOn(x, y, NodesOf(a.output.assessments));
        var lx, ly := LevelsRecorded(x, a.output), LevelsRecorded(y, a.output);
        assert Lookup(x, a.output.focus) == Lookup(y, a.output.focus);
        assert Lookup(lx, a.output.focus) == Lookup(ly, a.output.focus);
        assert CellAt(lx, a.output.focus) == CellAt(ly, a.output.focus);
      }
    }
  }

  lemma SameLookupsSameCoverage(x: Coverage, y: Coverage)
    requires forall n :: Lookup(x, n) == Lookup(y, n)
    ensures x == y
  {
    forall n
      ensures n in x <==> n in y
    {
      assert Lookup(x, n) == Lookup(y, n);
    }
    forall n | n in x
      ensures x[n] == y[n]
    {
      assert Lookup(x, n) == Lookup(y, n);
    }
  }

  lemma UpdatesCommute(x: Coverage, ev: Evidence, a: Event, b: Event)
    requires IsAssessorEvent(a) && IsAssessorEvent(b)
    requires Touched(ev, a) !! Touched(ev, b)
    ensures Updated(Updated(x, ev, a), ev, b) == Updated(Updated(x, ev, b), ev, a)
  {
    var xa, xb := Updated(x, ev, a), Updated(x, ev, b);
    UpdateIsLocal(x, xa, ev, b);
    UpdateIsLocal(xa, xb, ev, b);
    UpdateIsLocal(x, xb, ev, a);
    UpdateIsLocal(xb, xa, ev, a);
    var xab, xba := Updated(xa, ev, b), Updated(xb, ev, a);
    forall n
      ensures Lookup(xab, n) == Lookup(xba, n)
    {
      if n in Touched(ev, a) {
        assert Lookup(xab, n) == Lookup(xa, n) == Lookup(xba, n);
      } else if n in Touched(ev, b) {
        assert Lookup(xba, n) == Lookup(xb, n) == Lookup(xab, n);
      }
    }
    SameLookupsSameCoverage(xab, xba);
  }

  lemma {:induction false} WithoutCommutes(pending: seq<TurnId>, t: TurnId, u: TurnId)
    ensures Without(Without(pending, t), u) == Without(Without(pending, u), t)
  {
    if pending != [] {
      WithoutCommutes(Front(pending), t, u);
      var p, w, v := Front(pending), Without(Front(pending), t), Without(Front(pending), u);
      var last := Last(pending);
      assert Without(pending, t) == w + (if last != t then [last] else []);
      assert Without(pending, u) == v + (if last != u then [last] else []);
      assert Front(w + [last]) == w && Front(v + [last]) == v;
      assert w + [] == w && v + [] == v;
    }
  }

  // ---------- what an assessor event does to the session ----------

  /** The session after an assessor event, spelt out. */
  function Landed(s: SessionState, a: Event, c: Config): SessionState
    requires IsAssessorEvent(a)
  {
    if a.forTurn !in s.evidence.pending then s
    else
      s.(evidence := DropPending(s.evidence, a.forTurn).(coverage := Updated(s.evidence.coverage, s.evidence, a)),
         review := if a.AssessmentCompleted? then SignalsNoted(s.review, a.output, c) else s.review)
  }

  function LandedCommands(s: SessionState, a: Event): seq<Command>
    requires IsAssessorEvent(a)
  {
    if a.forTurn in s.evidence.pending then [PersistState] else []
  }

  lemma AssessorStep(s: SessionState, a: Event, c: Config)
    requires IsAssessorEvent(a) && !Terminal(s.phase)
    ensures Transition(s, a, c) == Stepped(Landed(s, a, c), LandedCommands(s, a))
  {
  }

  predicate AcceptedTechTurn(s: SessionState, e: Event)
  {
    s.phase == Tech && e.CandidateTurnReceived? && s.turn.awaiting == Some(Candidate)
  }

  /** The result `a` does not bear on how `e` is handled in `s`. */
  ghost predicate Independent(s: SessionState, a: Event, e: Event)
    requires IsAssessorEvent(a)
  {
    if IsAssessorEvent(e) then a.forTurn != e.forTurn && Touched(s.evidence, a) !! Touched(s.evidence, e)
    else if AcceptedTechTurn(s, e) then
      a.forTurn != e.turnId && CurrentCompetency(s).Some?
      && CurrentCompetency(s).value.nodeId !in Touched(s.evidence, a)
    else true
  }

  /** The two orders, compared. */
  ghost predicate Commutes(s: SessionState, a: Event, e: Event, c: Config)
    requires IsAssessorEvent(a)
  {
    SameAfter(s, a, Transition(s, e, c), Transition(Landed(s, a, c), e, c), c)
  }

  ghost predicate SameAfter(s: SessionState, a: Event, ea: Step, ae: Step, c: Config)
    requires IsAssessorEvent(a)
  {
    && ea.Stepped?
    && ae == Stepped(Landed(ea.state, a, c), ea.commands)
    && LandedCommands(ea.state, a) == LandedCommands(s, a)
  }

  lemma AssessorEventsCommute(s: SessionState, a: Event, e: Event, c: Config)
    requires IsAssessorEvent(a) && IsAssessorEvent(e) && !Terminal(s.phase)
    requires Independent(s, a, e)
    ensures Commutes(s, a, e, c)
  {
    AssessorStep(s, e, c);
    AssessorStep(Landed(s, a, c), e, c);
    WithoutMember(s.evidence.pending, a.forTurn);
    WithoutMember(s.evidence.pending, e.forTurn);
    if a.forTurn in s.evidence.pending && e.forTurn in s.evidence.pending {
      BothLanded(s, a, e, c);
    }
  }

  function LandedEvidence(ev: Evidence, a: Event): Evidence
    requires IsAssessorEvent(a)
  {
    DropPending(ev, a.forTurn).(coverage := Updated(ev.coverage, ev, a))
  }

  /** The result `a` leaves the remembered focus of `e` in place. */
  lemma FocusSurvives(ev: Evidence, a: Event, e: Event)
    requires IsAssessorEvent(a) && IsAssessorEvent(e) && a.forTurn != e.forTurn
    ensures forall x :: Updated(x, LandedEvidence(ev, a), e) == Updated(x, ev, e)
  {
  }

  lemma BothEvidence(ev: Evidence, a: Event, e: Event)
    requires IsAssessorEvent(a) && IsAssessorEvent(e) && a.forTurn != e.forTurn
    requires Touched(ev, a) !! Touched(ev, e)
    ensures LandedEvidence(LandedEvidence(ev, a), e) == LandedEvidence(LandedEvidence(ev, e), a)
  {
    WithoutCommutes(ev.pending, a.forTurn, e.forTurn);
    UpdatesCommute(ev.coverage, ev, a, e);
    assert ev.focus - {a.forTurn} - {e.forTurn} == ev.focus - {e.forTurn} - {a.forTurn};
    FocusSurvives(ev, a, e);
    FocusSurvives(ev, e, a);
  }

  /** Two accepted results, in either order. */
  lemma BothLanded(s: SessionState, a: Event, e: Event, c: Config)
    requires IsAssessorEvent(a) && IsAssessorEvent(e) && a.forTurn != e.forTurn
    requires a.forTurn in s.evidence.pending && e.forTurn in s.evidence.pending
    requires Touched(s.evidence, a) !! Touched(s.evidence, e)
    ensures Landed(Landed(s, a, c), e, c) == Landed(Landed(s, e, c), a, c)
  {
    WithoutMember(s.evidence.pending, a.forTurn);
    WithoutMember(s.evidence.pending, e.forTurn);
    var sa, se := Landed(s, a, c), Landed(s, e, c);
    assert sa.evidence == LandedEvidence(s.evidence, a) && se.evidence == LandedEvidence(s.evidence, e);
    assert Landed(sa, e, c).evidence == LandedEvidence(sa.evidence, e);
    assert Landed(se, a, c).evidence == LandedEvidence(se.evidence, a);
    BothEvidence(s.evidence, a, e);
  }

  function TechEvidence(ev: Evidence, turn: TurnId, node: string, gap: Option<GapMarker>): Evidence
  {
    Scheduled(ev, turn, node).(coverage := GapMarked(ev.coverage, node, gap))
  }

  /** The mark on `node` and a result that does not touch it, in either order. */
  lemma MarkCommutes(coverage: Coverage, ev: Evidence, a: Event, node: string, gap: Option<GapMarker>)
    requires IsAssessorEvent(a) && node !in Touched(ev, a)
    ensures Updated(GapMarked(coverage, node, gap), ev, a) == GapMarked(Updated(coverage, ev, a), node, gap)
  {
    var marked := GapMarked(coverage, node, gap);
    UpdateIsLocal(coverage, marked, ev, a);
    UpdateIsLocal(marked, coverage, ev, a);
    var x, y := Updated(marked, ev, a), GapMarked(Updated(coverage, ev, a), node, gap);
    assert Lookup(Updated(coverage, ev, a), node) == Lookup(coverage, node);
    forall n
      ensures Lookup(x, n) == Lookup(y, n)
    {
      if n !in Touched(ev, a) {
        assert Lookup(x, n) == Lookup(marked, n);
      }
    }
    SameLookupsSameCoverage(x, y);
  }

  lemma TechEvidenceCommutes(s: SessionState, a: Event, turn: TurnId, node: string, gap: Option<GapMarker>, c: Config)
    requires IsAssessorEvent(a) && a.forTurn != turn && node !in Touched(s.evidence, a)
    ensures
      var staged := s.(evidence := TechEvidence(s.evidence, turn, node, gap));
      && Landed(staged, a, c)
         == Landed(s, a, c).(evidence := TechEvidence(Landed(s, a, c).evidence, turn, node, gap))
      && LandedCommands(staged, a) == LandedCommands(s, a)
  {
    var ev := s.evidence;
    var staged := TechEvidence(ev, turn, node, gap);
    if a.forTurn in ev.pending {
      assert Front(ev.pending + [turn]) == ev.pending;
      assert Without(ev.pending + [turn], a.forTurn) == Without(ev.pending, a.forTurn) + [turn];
      assert staged.focus - {a.forTurn} == (ev.focus - {a.forTurn})[turn := node];
      assert Touched(staged, a) == Touched(ev, a);
      assert Updated(staged.coverage, staged, a) == Updated(staged.coverage, ev, a);
      MarkCommutes(ev.coverage, ev, a, node, gap);
    }
  }

  /** A TECH answer carries the evidence and review parts through, given the reaction. */
  lemma TechTurnCarries(s: SessionState, ev: Evidence, review: Review, turn: TurnId, now: Time, c: Config)
    requires OnTechTurn(s, turn, now, c).Stepped?
    requires ReactionTo(s.(evidence := ev, review := review), now, c) == ReactionTo(s, now, c)
    ensures
      var node, gap := CurrentCompetency(s).value.nodeId, ReactionTo(s, now, c).value.gap;
      var step := OnTechTurn(s, turn, now, c);
      && step.state.evidence == TechEvidence(s.evidence, turn, node, gap)
      && step.state.review == s.review
      && OnTechTurn(s.(evidence := ev, review := review), turn, now, c)
         == Stepped(step.state.(evidence := TechEvidence(ev, turn, node, gap), review := review), step.commands)
  {
  }

  /** A result elsewhere does not change how the machine answers. */
  lemma ReactionIgnores(s: SessionState, a: Event, now: Time, c: Config)
    requires IsAssessorEvent(a) && CurrentCompetency(s).Some?
    requires CurrentCompetency(s).value.nodeId !in Touched(s.evidence, a)
    ensures ReactionTo(Landed(s, a, c), now, c) == ReactionTo(s, now, c)
  {
    var ev, landed, node := s.evidence, Landed(s, a, c), CurrentCompetency(s).value.nodeId;
    UpdateIsLocal(ev.coverage, ev.coverage, ev, a);
    assert Lookup(landed.evidence.coverage, node) == Lookup(ev.coverage, node);
  }

  lemma TechHandlerCommutes(s: SessionState, a: Event, turn: TurnId, now: Time, c: Config)
    requires IsAssessorEvent(a) && CurrentCompetency(s).Some? && a.forTurn != turn
    requires CurrentCompetency(s).value.nodeId !in Touched(s.evidence, a)
    requires OnTechTurn(s, turn, now, c).Stepped?
    ensures SameAfter(s, a, OnTechTurn(s, turn, now, c), OnTechTurn(Landed(s, a, c), turn, now, c), c)
  {
    var ev, landed, node := s.evidence, Landed(s, a, c), CurrentCompetency(s).value.nodeId;
    var gap := ReactionTo(s, now, c).value.gap;
    ReactionIgnores(s, a, now, c);
    assert landed == s.(evidence := landed.evidence, review := landed.review);
    TechTurnCarries(s, landed.evidence, landed.review, turn, now, c);
    TechEvidenceCommutes(s, a, turn, node, gap, c);
    LandingReadsEvidenceAndReview(s.(evidence := TechEvidence(ev, turn, node, gap)),
                                  OnTechTurn(s, turn, now, c).state, a, c);
  }

  lemma TechTurnCommutes(s: SessionState, a: Event, e: Event, c: Config)
    requires IsAssessorEvent(a) && AcceptedTechTurn(s, e) && Independent(s, a, e)
    requires OnTechTurn(s, e.turnId, e.now, c).Stepped?
    ensures Commutes(s, a, e, c)
  {
    hide OnTechTurn, LandedCommands, SameAfter, Touched, CurrentCompetency;
    TechHandlerCommutes(s, a, e.turnId, e.now, c);
  }

  lemma LandingReadsEvidenceAndReview(s: SessionState, t: SessionState, a: Event, c: Config)
    requires IsAssessorEvent(a) && s.evidence == t.evidence && s.review == t.review
    ensures Landed(t, a, c) == t.(evidence := Landed(s, a, c).evidence, review := Landed(s, a, c).review)
    ensures LandedCommands(t, a) == LandedCommands(s, a)
  {
  }

  /** The review part after an event that is no assessor result: only a delivered reply
      changes it. */
  function ReviewEffect(s: SessionState, review: Review, e: Event, c: Config): Review
  {
    if e.InterviewerReplyReady? && AnswersPending(s, e.turnId) && InConversation(s)
    then DriftNoted(review, s.turn.lastMove, e.reply.moveExecuted, c)
    else review
  }

  /** Every event but an assessor result and an accepted TECH answer leaves the evidence
      alone, and reads nothing of it. */
  ghost predicate Carries(s: SessionState, ev: Evidence, review: Review, e: Event, c: Config)
  {
    var step, carried := Transition(s, e, c), Transition(s.(evidence := ev, review := review), e, c);
    if step.Raised? then carried.Raised?
    else
      && step.state.evidence == s.evidence
      && step.state.review == ReviewEffect(s, s.review, e, c)
      && carried == Stepped(step.state.(evidence := ev, review := ReviewEffect(s, review, e, c)), step.commands)
  }

  lemma CandidateTurnCarries(s: SessionState, ev: Evidence, review: Review, e: Event, c: Config)
    requires e.CandidateTurnReceived? && !AcceptedTechTurn(s, e)
    ensures Carries(s, ev, review, e, c)
  {
  }

  lemma AgentEventCarries(s: SessionState, ev: Evidence, review: Review, e: Event, c: Config)
    requires e.InterviewerReplyReady? || e.InterviewerFailed?
    ensures Carries(s, ev, review, e, c)
  {
  }

  lemma TickCarries(s: SessionState, ev: Evidence, review: Review, e: Event, c: Config)
    requires e.TimerTick?
    ensures Carries(s, ev, review, e, c)
  {
  }

  lemma OtherEventCarries(s: SessionState, ev: Evidence, review: Review, e: Event, c: Config)
    requires !IsAssessorEvent(e) && !AcceptedTechTurn(s, e)
    ensures Carries(s, ev, review, e, c)
  {
    match e
    case CandidateTurnReceived(_, _, _) => CandidateTurnCarries(s, ev, review, e, c);
    case InterviewerReplyReady(_, _, _) => AgentEventCarries(s, ev, review, e, c);
    case InterviewerFailed(_, _, _) => AgentEventCarries(s, ev, review, e, c);
    case TimerTick(_) => TickCarries(s, ev, review, e, c);
    case _ =>
  }

  /** Drift and assessor signals are counted apart, and a flag once raised stays. */
  lemma ReviewEffectsCommute(s: SessionState, r: Review, e: Event, output: AssessorOutput, c: Config)
    ensures ReviewEffect(s, SignalsNoted(r, output, c), e, c) == SignalsNoted(ReviewEffect(s, r, e, c), output, c)
  {
  }

  lemma OtherEventsCommute(s: SessionState, a: Event, e: Event, c: Config)
    requires IsAssessorEvent(a) && !IsAssessorEvent(e) && !AcceptedTechTurn(s, e)
    requires Transition(s, e, c).Stepped?
    ensures Commutes(s, a, e, c)
  {
    var landed := Landed(s, a, c);
    assert landed == s.(evidence := landed.evidence, review := landed.review);
    OtherEventCarries(s, landed.evidence, landed.review, e, c);
    if a.AssessmentCompleted? {
      ReviewEffectsCommute(s, s.review, e, a.output, c);
    }
    LandingReadsEvidenceAndReview(s.(review := ReviewEffect(s, s.review, e, c)), Transition(s, e, c).state, a, c);
  }

  lemma EitherOrder(s: SessionState, a: Event, e: Event, c: Config)
    requires IsAssessorEvent(a) && !Terminal(s.phase)
    requires Independent(s, a, e)
    requires Transition(s, e, c).Stepped?
    ensures Commutes(s, a, e, c)
  {
    if IsAssessorEvent(e) {
      AssessorEventsCommute(s, a, e, c);
    } else if AcceptedTechTurn(s, e) {
      TechTurnCommutes(s, a, e, c);
    } else {
      OtherEventsCommute(s, a, e, c);
    }
  }

  /** One result and one event that is independent of it and does not end the session:
      either order reaches the same state and emits the same commands for each. */
  lemma ResultCommutes(s: SessionState, a: Event, e: Event, c: Config)
    requires IsAssessorEvent(a) && !Terminal(s.phase)
    requires Independent(s, a, e)
    requires Transition(s, e, c).Stepped? && !Terminal(Transition(s, e, c).state.phase)
    ensures
      var ra, re := Transition(s, a, c), Transition(s, e, c);
      && ra.Stepped?
      && var rae, rea := Transition(ra.state, e, c), Transition(re.state, a, c);
         rae.Stepped? && rea.Stepped?
         && rae.state == rea.state && rae.commands == re.commands && rea.commands == ra.commands
  {
    EitherOrder(s, a, e, c);
    AssessorStep(s, a, c);
    AssessorStep(Transition(s, e, c).state, a, c);
  }

  // ---------- whole runs ----------

  /** Nothing in `es` depends on `a`, and nothing in it ends the session. */
  ghost predicate Undisturbed(s: SessionState, a: Event, es: seq<Event>, c: Config)
    requires IsAssessorEvent(a)
    decreases |es|
  {
    es != [] ==>
      && Undisturbed(s, a, Front(es), c)
      && var t := Execute(s, Front(es), c);
         && t.Stepped? && !Terminal(t.state.phase)
         && Independent(t.state, a, Last(es))
         && Transition(t.state, Last(es), c).Stepped?
         && !Terminal(Transition(t.state, Last(es), c).state.phase)
  }

  /** The run that took the result first, compared with the one that has not seen it. */
  ghost predicate AheadBy(early: Step, run: Step, a: Event, ca: seq<Command>, c: Config)
    requires IsAssessorEvent(a)
  {
    && run.Stepped? && !Terminal(run.state.phase)
    && early == Stepped(Landed(run.state, a, c), ca + run.commands)
    && LandedCommands(run.state, a) == ca
  }

  /** A run with the commands of one more step. */
  function Joined(run: Step, step: Step): Step
    requires run.Stepped? && step.Stepped?
  {
    Stepped(step.state, run.commands + step.commands)
  }

  lemma AheadJoined(early: Step, run: Step, a: Event, ca: seq<Command>, ea: Step, ae: Step, c: Config)
    requires IsAssessorEvent(a) && AheadBy(early, run, a, ca, c)
    requires SameAfter(run.state, a, ea, ae, c) && !Terminal(ea.state.phase)
    ensures AheadBy(Joined(early, ae), Joined(run, ea), a, ca, c)
  {
    assert (ca + run.commands) + ea.commands == ca + (run.commands + ea.commands);
  }

  lemma AheadStep(early: Step, run: Step, a: Event, ca: seq<Command>, e: Event, c: Config)
    requires IsAssessorEvent(a) && AheadBy(early, run, a, ca, c)
    requires Independent(run.state, a, e)
    requires Transition(run.state, e, c).Stepped? && !Terminal(Transition(run.state, e, c).state.phase)
    ensures AheadBy(Then(early, e, c), Then(run, e, c), a, ca, c)
  {
    EitherOrder(run.state, a, e, c);
    AheadJoined(early, run, a, ca, Transition(run.state, e, c), Transition(early.state, e, c), c);
  }

  lemma {:induction false} EarlyResult(s: SessionState, a: Event, es: seq<Event>, c: Config)
    requires IsAssessorEvent(a) && !Terminal(s.phase)
    requires Undisturbed(s, a, es, c)
    ensures AheadBy(Execute(s, [a] + es, c), Execute(s, es, c), a, LandedCommands(s, a), c)
    decreases |es|
  {
    if es == [] {
      AssessorStep(s, a, c);
      assert [a] + es == [a] && Front([a]) == [];
    } else {
      EarlyResult(s, a, Front(es), c);
      assert Front([a] + es) == [a] + Front(es) && Last([a] + es) == Last(es);
      AheadStep(Execute(s, [a] + Front(es), c), Execute(s, Front(es), c), a, LandedCommands(s, a), Last(es), c);
    }
  }

  /** A result may land before or after any block of events that do not depend on it:
      the state is the same, and the commands differ only in where the advisory
      PersistState of the result stands. */
  lemma LateResultsAreHarmless(s: SessionState, a: Event, es: seq<Event>, c: Config)
    requires IsAssessorEvent(a) && !Terminal(s.phase)
    requires Undisturbed(s, a, es, c)
    ensures
      var early, late := Execute(s, [a] + es, c), Execute(s, es + [a], c);
      && early.Stepped? && late.Stepped? && Execute(s, es, c).Stepped?
      && early.state == late.state
      && early.commands == LandedCommands(s, a) + Execute(s, es, c).commands
      && late.commands == Execute(s, es, c).commands + LandedCommands(s, a)
  {
    EarlyResult(s, a, es, c);
    assert Front(es + [a]) == es;
    AssessorStep(Execute(s, es, c).state, a, c);
  }
}
