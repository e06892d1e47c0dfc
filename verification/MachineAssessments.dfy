/** Scheduled assessments: in every run each one is pending, resolved, or lost to a result
    that resolved another call of the same turn id; when exactly none is lost. */
module MachineAssessments {
  import opened Common
  import opened InterviewPlan
  import opened StateMachine
  import opened MachineInvariant
  import opened MachineCommute

  datatype Call = Call(turn: TurnId, focus: string)

  /** The assessor calls of a command stream, in order. */
  function Calls(cs: seq<Command>): seq<Call>
  {
    if cs == [] then []
    else Calls(Front(cs)) + (if Last(cs).RunAssessor? then [Call(Last(cs).turnId, Last(cs).focus)] else [])
  }

  /** The turns whose result the machine has folded in, in order of arrival. */
  function Resolved(s: SessionState, es: seq<Event>, c: Config): seq<TurnId>
    decreases |es|
  {
    if es == [] then []
    else
      var earlier, before := Resolved(s, Front(es), c), Execute(s, Front(es), c);
      if before.Stepped? && Resolves(before.state, Last(es)) then earlier + [Last(es).forTurn] else earlier
  }

  predicate Resolves(s: SessionState, e: Event)
  {
    !Terminal(s.phase) && IsAssessorEvent(e) && e.forTurn in s.evidence.pending
  }

  predicate NoDuplicates(ts: seq<TurnId>)
  {
    forall i, j :: 0 <= i < j < |ts| ==> ts[i] != ts[j]
  }

  function TurnsOf(calls: seq<Call>): seq<TurnId>
  {
    seq(|calls|, k requires 0 <= k < |calls| => calls[k].turn)
  }

  /** The ids of the TECH answers the machine accepted, in order. */
  function AcceptedTurns(s: SessionState, es: seq<Event>, c: Config): seq<TurnId>
    decreases |es|
  {
    if es == [] then []
    else
      var earlier, before := AcceptedTurns(s, Front(es), c), Execute(s, Front(es), c);
      if before.Stepped? && AcceptedTechTurn(before.state, Last(es)) then earlier + [Last(es).turnId] else earlier
  }

  /** What a result takes from the pending beyond the one assessment it resolves. */
  function Extra(pending: seq<TurnId>, turn: TurnId): multiset<TurnId>
    requires turn in pending
  {
    multiset{}[turn := multiset(pending)[turn] - 1]
  }

  /** The assessments that the results of a run have dropped unresolved. */
  function Lost(s: SessionState, es: seq<Event>, c: Config): multiset<TurnId>
    decreases |es|
  {
    if es == [] then multiset{}
    else
      var earlier, before := Lost(s, Front(es), c), Execute(s, Front(es), c);
      if before.Stepped? && Resolves(before.state, Last(es))
      then earlier + Extra(before.state.evidence.pending, Last(es).forTurn) else earlier
  }

  /** The competency that the last call of a turn was about. */
  function LastFocus(calls: seq<Call>, turn: TurnId): Option<string>
  {
    if calls == [] then None
    else if Last(calls).turn == turn then Some(Last(calls).focus)
    else LastFocus(Front(calls), turn)
  }

  /** Exactly the pending turns have a focus remembered: that of their last call. */
  ghost predicate FocusIsLast(ev: Evidence, calls: seq<Call>)
  {
    && FocusMatchesPending(ev)
    && (forall t :: t in ev.pending ==> LastFocus(calls, t) == Some(ev.focus[t]))
  }

  /** Every scheduled assessment is pending, resolved or lost, and only turns that have been
      resolved lose any. */
  ghost predicate Accounted(ev: Evidence, calls: seq<Call>, resolved: seq<TurnId>, lost: multiset<TurnId>)
  {
    && multiset(TurnsOf(calls)) == multiset(ev.pending) + multiset(resolved) + lost
    && FocusIsLast(ev, calls)
    && (forall t :: t in lost ==> t in resolved)
  }

  // ---------- single changes ----------

  lemma {:induction false} CallsAppend(a: seq<Command>, b: seq<Command>)
    ensures Calls(a + b) == Calls(a) + Calls(b)
  {
    if b == [] {
      assert a + b == a;
    } else {
      assert Front(a + b) == a + Front(b);
      CallsAppend(a, Front(b));
    }
  }

  lemma {:induction false} NoCalls(cs: seq<Command>)
    requires forall k :: 0 <= k < |cs| ==> !cs[k].RunAssessor?
    ensures Calls(cs) == []
  {
    if cs != [] {
      NoCalls(Front(cs));
    }
  }

  lemma {:induction false} FirstCallOnly(cs: seq<Command>)
    requires cs != [] && cs[0].RunAssessor?
    requires forall k :: 0 < k < |cs| ==> !cs[k].RunAssessor?
    ensures Calls(cs) == [Call(cs[0].turnId, cs[0].focus)]
  {
    if |cs| > 1 {
      FirstCallOnly(Front(cs));
    } else {
      assert Front(cs) == [];
    }
  }

  lemma TurnsOfSnoc(calls: seq<Call>, call: Call)
    ensures TurnsOf(calls + [call]) == TurnsOf(calls) + [call.turn]
  {
  }

  lemma AccountSchedules(
    ev: Evidence, calls: seq<Call>, resolved: seq<TurnId>, lost: multiset<TurnId>, turn: TurnId, node: string)
    requires Accounted(ev, calls, resolved, lost)
    ensures Accounted(Scheduled(ev, turn, node), calls + [Call(turn, node)], resolved, lost)
  {
    TurnsOfSnoc(calls, Call(turn, node));
    assert Front(calls + [Call(turn, node)]) == calls;
  }

  lemma {:induction false} WithoutCounts(pending: seq<TurnId>, turn: TurnId)
    ensures multiset(Without(pending, turn)) == multiset(pending)[turn := 0]
  {
    if pending != [] {
      WithoutCounts(Front(pending), turn);
      assert pending == Front(pending) + [Last(pending)];
    }
  }

  lemma AccountResolves(ev: Evidence, calls: seq<Call>, resolved: seq<TurnId>, lost: multiset<TurnId>, turn: TurnId,
                        coverage: Coverage)
    requires Accounted(ev, calls, resolved, lost) && turn in ev.pending
    ensures Accounted(DropPending(ev, turn).(coverage := coverage), calls, resolved + [turn],
                      lost + Extra(ev.pending, turn))
  {
    WithoutMember(ev.pending, turn);
    WithoutCounts(ev.pending, turn);
  }

  // ---------- runs ----------

  /** What a step does to the bookkeeping. */
  ghost predicate SchedulesInStep(s: SessionState, e: Event, step: Step)
  {
    && step.Stepped?
    && if Resolves(s, e) then
         Calls(step.commands) == []
         && exists coverage :: step.state.evidence == DropPending(s.evidence, e.forTurn).(coverage := coverage)
       else if AcceptedTechTurn(s, e) then
         CurrentCompetency(s).Some?
         && var node := CurrentCompetency(s).value.nodeId;
            Calls(step.commands) == [Call(e.turnId, node)]
            && exists coverage :: step.state.evidence == Scheduled(s.evidence, e.turnId, node).(coverage := coverage)
       else Calls(step.commands) == [] && step.state.evidence == s.evidence
  }

  /** The event-by-event shape of the assessor calls: only an accepted TECH answer, first. */
  ghost predicate CallsShape(s: SessionState, e: Event, step: Step)
  {
    && step.Stepped?
    && |step.commands| <= 4
    && (AcceptedTechTurn(s, e) ==>
          CurrentCompetency(s).Some? && step.commands != []
          && step.commands[0] == RunAssessor(e.turnId, CurrentCompetency(s).value.nodeId))
    && (!AcceptedTechTurn(s, e) && |step.commands| > 0 ==> !step.commands[0].RunAssessor?)
    && (|step.commands| > 1 ==> !step.commands[1].RunAssessor?)
    && (|step.commands| > 2 ==> !step.commands[2].RunAssessor?)
    && (|step.commands| > 3 ==> !step.commands[3].RunAssessor?)
  }

  lemma CandidateTurnCalls(s: SessionState, e: Event, c: Config)
    requires Invariant(s, c) && e.CandidateTurnReceived? && !Terminal(s.phase)
    ensures CallsShape(s, e, Transition(s, e, c))
  {
    CandidateTurnKeeps(s, e.turnId, e.now, c);
  }

  lemma StepCalls(s: SessionState, e: Event, c: Config)
    requires Invariant(s, c) && !Terminal(s.phase)
    ensures CallsShape(s, e, Transition(s, e, c))
  {
    if e.CandidateTurnReceived? {
      CandidateTurnCalls(s, e, c);
    }
  }

  lemma TechTurnSchedules(s: SessionState, e: Event, c: Config)
    requires Invariant(s, c) && AcceptedTechTurn(s, e)
    ensures SchedulesInStep(s, e, OnTechTurn(s, e.turnId, e.now, c))
  {
    TechTurnKeeps(s, e.turnId, e.now, c);
    FirstCallOnly(OnTechTurn(s, e.turnId, e.now, c).commands);
    TechTurnCarries(s, s.evidence, s.review, e.turnId, e.now, c);
  }

  lemma ResultSchedules(s: SessionState, e: Event, c: Config)
    requires !Terminal(s.phase) && IsAssessorEvent(e)
    ensures SchedulesInStep(s, e, Transition(s, e, c))
  {
    AssessorStep(s, e, c);
    NoCalls(LandedCommands(s, e));
  }

  lemma OtherSchedules(s: SessionState, e: Event, c: Config)
    requires Invariant(s, c) && !Terminal(s.phase) && !IsAssessorEvent(e) && !AcceptedTechTurn(s, e)
    ensures SchedulesInStep(s, e, Transition(s, e, c))
  {
    StepCalls(s, e, c);
    NoCalls(Transition(s, e, c).commands);
    OtherEventCarries(s, s.evidence, s.review, e, c);
  }

  lemma StepSchedules(s: SessionState, e: Event, c: Config)
    requires Invariant(s, c)
    ensures SchedulesInStep(s, e, Transition(s, e, c))
  {
    if Terminal(s.phase) {
      NoCalls([]);
    } else if IsAssessorEvent(e) {
      ResultSchedules(s, e, c);
    } else if AcceptedTechTurn(s, e) {
      TechTurnSchedules(s, e, c);
    } else {
      OtherSchedules(s, e, c);
    }
  }

  /** The books after one event. */
  ghost predicate AccountedAfter(s: SessionState, e: Event, after: Evidence, calls: seq<Call>, resolved: seq<TurnId>,
                                 lost: multiset<TurnId>)
  {
    if Resolves(s, e)
    then Accounted(after, calls, resolved + [e.forTurn], lost + Extra(s.evidence.pending, e.forTurn))
    else Accounted(after, calls, resolved, lost)
  }

  lemma AccountStep(
    s: SessionState, calls: seq<Call>, resolved: seq<TurnId>, lost: multiset<TurnId>, e: Event, step: Step)
    requires Accounted(s.evidence, calls, resolved, lost) && SchedulesInStep(s, e, step)
    ensures AccountedAfter(s, e, step.state.evidence, calls + Calls(step.commands), resolved, lost)
  {
    assert calls + [] == calls;
    if Resolves(s, e) {
      AccountResolves(s.evidence, calls, resolved, lost, e.forTurn, step.state.evidence.coverage);
    } else if AcceptedTechTurn(s, e) {
      AccountSchedules(s.evidence, calls, resolved, lost, e.turnId, CurrentCompetency(s).value.nodeId);
    }
  }

  lemma AccountThen(before: Step, resolved: seq<TurnId>, lost: multiset<TurnId>, e: Event, c: Config)
    requires before.Stepped? && Invariant(before.state, c)
    requires Accounted(before.state.evidence, Calls(before.commands), resolved, lost)
    ensures
      var after := Then(before, e, c);
      && after.Stepped?
      && AccountedAfter(before.state, e, after.state.evidence, Calls(after.commands), resolved, lost)
  {
    hide Transition, Invariant, Accounted, AccountedAfter, SchedulesInStep, Calls;
    StepSchedules(before.state, e, c);
    var step := Transition(before.state, e, c);
    CallsAppend(before.commands, step.commands);
    AccountStep(before.state, Calls(before.commands), resolved, lost, e, step);
  }

  /** Every accepted answer is scheduled, once and in order, and nothing else is. */
  lemma {:induction false} CallsAreAccepted(sessionId: nat, plan: RawPlan, es: seq<Event>, c: Config)
    ensures
      var s := InitialState(sessionId, plan, c);
      Execute(s, es, c).Stepped? && TurnsOf(Calls(Execute(s, es, c).commands)) == AcceptedTurns(s, es, c)
    decreases |es|
  {
    var s := InitialState(sessionId, plan, c);
    ReachableInvariant(sessionId, plan, es, c);
    if es != [] {
      CallsAreAccepted(sessionId, plan, Front(es), c);
      ReachableInvariant(sessionId, plan, Front(es), c);
      CallsOfStep(Execute(s, Front(es), c), Last(es), c);
    }
  }

  lemma CallsOfStep(before: Step, e: Event, c: Config)
    requires before.Stepped? && Invariant(before.state, c)
    ensures
      var after, turns := Then(before, e, c), TurnsOf(Calls(before.commands));
      && after.Stepped?
      && TurnsOf(Calls(after.commands)) == if AcceptedTechTurn(before.state, e) then turns + [e.turnId] else turns
  {
    var step, calls := Transition(before.state, e, c), Calls(before.commands);
    StepSchedules(before.state, e, c);
    CallsAppend(before.commands, step.commands);
    if AcceptedTechTurn(before.state, e) {
      TurnsOfSnoc(calls, Call(e.turnId, CurrentCompetency(before.state).value.nodeId));
    } else {
      assert calls + [] == calls;
    }
  }

  /** In every run, whatever ids the answers come with: each accepted answer has scheduled one
      assessment, and each of those is pending, resolved, or lost when a result resolved its
      turn; a pending turn is remembered with the competency of its last call. */
  lemma {:induction false} AssessmentsAreAccounted(sessionId: nat, plan: RawPlan, es: seq<Event>, c: Config)
    ensures
      var s := InitialState(sessionId, plan, c);
      var run := Execute(s, es, c);
      && run.Stepped?
      && TurnsOf(Calls(run.commands)) == AcceptedTurns(s, es, c)
      && Accounted(run.state.evidence, Calls(run.commands), Resolved(s, es, c), Lost(s, es, c))
    decreases |es|
  {
    var s := InitialState(sessionId, plan, c);
    CallsAreAccepted(sessionId, plan, es, c);
    if es != [] {
      AssessmentsAreAccounted(sessionId, plan, Front(es), c);
      ReachableInvariant(sessionId, plan, Front(es), c);
      AccountThen(Execute(s, Front(es), c), Resolved(s, Front(es), c), Lost(s, Front(es), c), Last(es), c);
    }
  }

  // ---------- when nothing is lost ----------

  /** The scheduled split exactly into the pending and the resolved. */
  ghost predicate Splits(run: Step, resolved: seq<TurnId>)
  {
    run.Stepped? && multiset(TurnsOf(Calls(run.commands))) == multiset(run.state.evidence.pending) + multiset(resolved)
  }

  /** If the event resolves a turn, that turn is pending exactly once. */
  predicate ResolvesOne(before: Step, e: Event)
  {
    before.Stepped? && Resolves(before.state, e) ==> multiset(before.state.evidence.pending)[e.forTurn] == 1
  }

  predicate EachResolvesOne(s: SessionState, es: seq<Event>, c: Config)
  {
    forall k :: 0 <= k < |es| ==> ResolvesOne(Execute(s, es[..k], c), es[k])
  }

  lemma OneMoreResolvesOne(s: SessionState, es: seq<Event>, c: Config)
    requires es != []
    ensures EachResolvesOne(s, es, c) <==>
            EachResolvesOne(s, Front(es), c) && ResolvesOne(Execute(s, Front(es), c), Last(es))
  {
    var front := Front(es);
    assert forall k :: 0 <= k < |front| ==> front[..k] == es[..k] && front[k] == es[k];
    assert es[..|front|] == front;
  }

  /** Nothing is missing from a sum when the rest is empty. */
  lemma NothingMissing(all: multiset<TurnId>, some: multiset<TurnId>, rest: multiset<TurnId>)
    requires all == some + rest
    ensures all == some <==> rest == multiset{}
  {
    if all == some {
      assert forall t :: rest[t] == all[t] - some[t];
    }
  }

  lemma {:induction false} NothingLostIff(s: SessionState, es: seq<Event>, c: Config)
    ensures Lost(s, es, c) == multiset{} <==> EachResolvesOne(s, es, c)
    decreases |es|
  {
    if es != [] {
      NothingLostIff(s, Front(es), c);
      OneMoreResolvesOne(s, es, c);
      var before := Execute(s, Front(es), c);
      if before.Stepped? && Resolves(before.state, Last(es)) {
        NoExtraIff(Lost(s, Front(es), c), before.state.evidence.pending, Last(es).forTurn);
      }
    }
  }

  lemma NoExtraIff(earlier: multiset<TurnId>, pending: seq<TurnId>, turn: TurnId)
    requires turn in pending
    ensures earlier + Extra(pending, turn) == multiset{} <==> earlier == multiset{} && multiset(pending)[turn] == 1
  {
    var extra := Extra(pending, turn);
    if earlier + extra == multiset{} {
      forall t
        ensures earlier[t] == 0 && extra[t] == 0
      {
        assert (earlier + extra)[t] == earlier[t] + extra[t];
      }
      assert extra[turn] == 0;
    }
  }

  /** In every run the scheduled assessments split exactly into the pending and the resolved if
      and only if each result that was taken found its turn pending exactly once. */
  lemma AssessmentsSplit(sessionId: nat, plan: RawPlan, es: seq<Event>, c: Config)
    ensures
      var s := InitialState(sessionId, plan, c);
      Splits(Execute(s, es, c), Resolved(s, es, c)) <==> EachResolvesOne(s, es, c)
  {
    var s := InitialState(sessionId, plan, c);
    var run := Execute(s, es, c);
    AssessmentsAreAccounted(sessionId, plan, es, c);
    NothingLostIff(s, es, c);
    NothingMissing(multiset(TurnsOf(Calls(run.commands))),
                   multiset(run.state.evidence.pending) + multiset(Resolved(s, es, c)), Lost(s, es, c));
  }

  lemma {:induction false} DistinctMeansAtMostOne(ts: seq<TurnId>, t: TurnId)
    ensures NoDuplicates(ts) ==> multiset(ts)[t] <= 1
  {
    if ts != [] {
      DistinctMeansAtMostOne(Front(ts), t);
      assert ts == Front(ts) + [Last(ts)];
      if NoDuplicates(ts) {
        assert forall i :: 0 <= i < |ts| - 1 ==> Front(ts)[i] == ts[i];
      }
    }
  }

  predicate AtMostOnce(all: multiset<TurnId>)
  {
    forall t :: t in all ==> all[t] <= 1
  }

  lemma {:induction false} AtMostOneMeansDistinct(ts: seq<TurnId>)
    requires AtMostOnce(multiset(ts))
    ensures NoDuplicates(ts)
  {
    if ts != [] {
      var front := Front(ts);
      assert ts == front + [Last(ts)];
      assert multiset(ts) == multiset(front) + multiset{Last(ts)};
      forall t | t in multiset(front)
        ensures multiset(front)[t] <= 1 && t != Last(ts)
      {
        assert t in multiset(ts);
      }
      AtMostOneMeansDistinct(front);
      forall i | 0 <= i < |ts| - 1
        ensures ts[i] != Last(ts)
      {
        assert front[i] == ts[i] && ts[i] in multiset(front);
      }
    }
  }

  lemma PartsOfDistinct(ts: seq<TurnId>, pending: seq<TurnId>, resolved: seq<TurnId>, lost: multiset<TurnId>)
    requires NoDuplicates(ts) && multiset(ts) == multiset(pending) + multiset(resolved) + lost
    requires forall t :: t in lost ==> t in resolved
    ensures lost == multiset{} && NoDuplicates(pending) && NoDuplicates(resolved)
    ensures forall t :: !(t in pending && t in resolved)
  {
    forall t
      ensures multiset(pending)[t] + multiset(resolved)[t] + lost[t] <= 1
    {
      DistinctMeansAtMostOne(ts, t);
    }
    AtMostOneMeansDistinct(pending);
    AtMostOneMeansDistinct(resolved);
    forall t | t in resolved
      ensures t !in pending && t !in lost
    {
      assert multiset(resolved)[t] >= 1;
      assert multiset(pending)[t] == 0 && lost[t] == 0;
    }
  }

  /** When all the accepted answers carry different ids, nothing is lost, nothing is pending or
      resolved twice, and nothing is both. */
  lemma DistinctIdsSplit(sessionId: nat, plan: RawPlan, es: seq<Event>, c: Config)
    requires NoDuplicates(AcceptedTurns(InitialState(sessionId, plan, c), es, c))
    ensures
      var s := InitialState(sessionId, plan, c);
      var run, resolved := Execute(s, es, c), Resolved(s, es, c);
      && Splits(run, resolved)
      && NoDuplicates(run.state.evidence.pending) && NoDuplicates(resolved)
      && (forall t :: !(t in run.state.evidence.pending && t in resolved))
  {
    AssessmentsAreAccounted(sessionId, plan, es, c);
    var s := InitialState(sessionId, plan, c);
    PartsOfDistinct(AcceptedTurns(s, es, c), Execute(s, es, c).state.evidence.pending, Resolved(s, es, c),
                    Lost(s, es, c));
  }

  // ---------- what a caller has to keep ----------

  /** An answer is accepted under an id whose assessment is still pending. */
  predicate ReusesPending(before: Step, e: Event)
  {
    before.Stepped? && AcceptedTechTurn(before.state, e) && e.turnId in before.state.evidence.pending
  }

  predicate NoPendingReused(s: SessionState, es: seq<Event>, c: Config)
  {
    forall k :: 0 <= k < |es| ==> !ReusesPending(Execute(s, es[..k], c), es[k])
  }

  predicate AllResults(rs: seq<Event>)
  {
    forall k :: 0 <= k < |rs| ==> IsAssessorEvent(rs[k])
  }

  /** Wherever the run is cut off, no series of results that comes in then loses anything. */
  ghost predicate NoOrderLoses(s: SessionState, es: seq<Event>, c: Config)
  {
    forall k: nat, rs: seq<Event> :: k <= |es| && AllResults(rs) ==> Lost(s, es[..k] + rs, c) == multiset{}
  }

  lemma PendingStaysDistinct(s: SessionState, e: Event, step: Step)
    requires SchedulesInStep(s, e, step) && NoDuplicates(s.evidence.pending)
    requires AcceptedTechTurn(s, e) ==> e.turnId !in s.evidence.pending
    ensures NoDuplicates(step.state.evidence.pending)
  {
    if Resolves(s, e) {
      WithoutCounts(s.evidence.pending, e.forTurn);
      forall t | t in multiset(Without(s.evidence.pending, e.forTurn))
        ensures multiset(Without(s.evidence.pending, e.forTurn))[t] <= 1
      {
        DistinctMeansAtMostOne(s.evidence.pending, t);
      }
      AtMostOneMeansDistinct(Without(s.evidence.pending, e.forTurn));
    }
  }

  lemma FrontReusesNone(s: SessionState, es: seq<Event>, c: Config)
    requires es != [] && NoPendingReused(s, es, c)
    ensures NoPendingReused(s, Front(es), c) && !ReusesPending(Execute(s, Front(es), c), Last(es))
  {
    var front := Front(es);
    assert forall k :: 0 <= k < |front| ==> front[..k] == es[..k] && front[k] == es[k];
    assert es[..|front|] == front;
  }

  lemma {:induction false} NoReuseLosesNothing(sessionId: nat, plan: RawPlan, es: seq<Event>, c: Config)
    requires NoPendingReused(InitialState(sessionId, plan, c), es, c)
    ensures
      var s := InitialState(sessionId, plan, c);
      && Execute(s, es, c).Stepped? && NoDuplicates(Execute(s, es, c).state.evidence.pending)
      && Lost(s, es, c) == multiset{}
    decreases |es|
  {
    var s := InitialState(sessionId, plan, c);
    if es != [] {
      FrontReusesNone(s, es, c);
      NoReuseLosesNothing(sessionId, plan, Front(es), c);
      ReachableInvariant(sessionId, plan, Front(es), c);
      var before := Execute(s, Front(es), c);
      StepSchedules(before.state, Last(es), c);
      PendingStaysDistinct(before.state, Last(es), Transition(before.state, Last(es), c));
      if Resolves(before.state, Last(es)) {
        DistinctMeansAtMostOne(before.state.evidence.pending, Last(es).forTurn);
      }
    }
  }

  lemma {:induction false} ResultsReuseNone(s: SessionState, es: seq<Event>, k: nat, rs: seq<Event>, c: Config)
    requires NoPendingReused(s, es, c) && k <= |es| && AllResults(rs)
    ensures NoPendingReused(s, es[..k] + rs, c)
  {
    var all := es[..k] + rs;
    forall j | 0 <= j < |all|
      ensures !ReusesPending(Execute(s, all[..j], c), all[j])
    {
      if j < k {
        assert all[..j] == es[..j] && all[j] == es[j];
      }
    }
  }

  /** Reuse a pending id, and the very next result for it loses an assessment. */
  lemma ReuseLoses(sessionId: nat, plan: RawPlan, es: seq<Event>, k: nat, result: Event, c: Config)
    requires k < |es| && ReusesPending(Execute(InitialState(sessionId, plan, c), es[..k], c), es[k])
    requires IsAssessorEvent(result) && result.forTurn == es[k].turnId
    ensures result.forTurn in Lost(InitialState(sessionId, plan, c), es[..k + 1] + [result], c)
  {
    var s, e := InitialState(sessionId, plan, c), es[k];
    var before := Execute(s, es[..k], c);
    ReachableInvariant(sessionId, plan, es[..k], c);
    StepSchedules(before.state, e, c);
    AcceptedTurnGoesOn(before.state, e, c);
    var cut := es[..k + 1];
    assert Front(cut) == es[..k] && Last(cut) == e;
    assert Front(cut + [result]) == cut && Last(cut + [result]) == result;
    var pending := before.state.evidence.pending;
    assert multiset(pending + [e.turnId])[e.turnId] >= 2;
    var after := Execute(s, cut, c);
    assert after.state.evidence.pending == pending + [e.turnId];
    assert Resolves(after.state, result);
    assert Extra(after.state.evidence.pending, result.forTurn)[result.forTurn] >= 1;
  }

  lemma AcceptedTurnGoesOn(s: SessionState, e: Event, c: Config)
    requires Invariant(s, c) && AcceptedTechTurn(s, e)
    ensures Transition(s, e, c).Stepped? && !Terminal(Transition(s, e, c).state.phase)
  {
    ReactionKeeps(s, e.now, c);
  }

  /** No order in which results may come in loses an assessment if and only if no answer of the
      run is accepted under an id that is still pending. */
  lemma NoOrderLosesIff(sessionId: nat, plan: RawPlan, es: seq<Event>, c: Config)
    ensures
      var s := InitialState(sessionId, plan, c);
      NoOrderLoses(s, es, c) <==> NoPendingReused(s, es, c)
  {
    var s := InitialState(sessionId, plan, c);
    if NoPendingReused(s, es, c) {
      forall k: nat, rs: seq<Event> | k <= |es| && AllResults(rs)
        ensures Lost(s, es[..k] + rs, c) == multiset{}
      {
        ResultsReuseNone(s, es, k, rs, c);
        NoReuseLosesNothing(sessionId, plan, es[..k] + rs, c);
      }
    } else {
      var k: nat :| k < |es| && ReusesPending(Execute(s, es[..k], c), es[k]);
      var result := AssessmentFailed(es[k].turnId, "", 0);
      ReuseLoses(sessionId, plan, es, k, result, c);
      assert AllResults([result]);
      assert Lost(s, es[..k + 1] + [result], c) != multiset{};
    }
  }

  lemma {:induction false} DistinctIdsReuseNone(sessionId: nat, plan: RawPlan, es: seq<Event>, c: Config)
    requires NoDuplicates(AcceptedTurns(InitialState(sessionId, plan, c), es, c))
    ensures NoPendingReused(InitialState(sessionId, plan, c), es, c)
    decreases |es|
  {
    if es != [] {
      var s, front := InitialState(sessionId, plan, c), Front(es);
      var earlier, all, before := AcceptedTurns(s, front, c), AcceptedTurns(s, es, c), Execute(s, front, c);
      assert forall k :: 0 <= k < |earlier| ==> earlier[k] == all[k];
      DistinctIdsReuseNone(sessionId, plan, front, c);
      AssessmentsAreAccounted(sessionId, plan, front, c);
      PendingWasAccepted(before.state.evidence.pending, earlier, Resolved(s, front, c), Lost(s, front, c));
      forall k | 0 <= k < |es|
        ensures !ReusesPending(Execute(s, es[..k], c), es[k])
      {
        if k < |front| {
          assert es[..k] == front[..k] && es[k] == front[k];
        } else {
          assert es[..k] == front;
          LastIsNew(s, es, c);
        }
      }
    }
  }

  /** An answer that is accepted comes with an id not accepted before. */
  lemma LastIsNew(s: SessionState, es: seq<Event>, c: Config)
    requires es != [] && NoDuplicates(AcceptedTurns(s, es, c))
    ensures
      var before := Execute(s, Front(es), c);
      before.Stepped? && AcceptedTechTurn(before.state, Last(es)) ==> Last(es).turnId !in AcceptedTurns(s, Front(es), c)
  {
    var earlier, all := AcceptedTurns(s, Front(es), c), AcceptedTurns(s, es, c);
    assert forall k :: 0 <= k < |earlier| ==> earlier[k] == all[k];
    assert |all| > |earlier| ==> forall k :: 0 <= k < |earlier| ==> all[k] != all[|earlier|];
  }

  lemma PendingWasAccepted(pending: seq<TurnId>, accepted: seq<TurnId>, resolved: seq<TurnId>, lost: multiset<TurnId>)
    requires multiset(accepted) == multiset(pending) + multiset(resolved) + lost
    ensures forall t :: t in pending ==> t in accepted
  {
    forall t | t in pending
      ensures t in accepted
    {
      assert t in multiset(pending) && t in multiset(accepted);
    }
  }

  // ---------- what the calls are about ----------

  /** A competency of the plan. */
  ghost predicate Named(plan: RawPlan, node: string)
  {
    && ValidatePlan(plan).Some?
    && exists k :: 0 <= k < |plan.plan.competencies| && plan.plan.competencies[k].nodeId == node
  }

  lemma CurrentIsNamed(s: SessionState, c: Config)
    requires Invariant(s, c) && s.phase == Tech && CurrentCompetency(s).Some?
    ensures Named(s.info.planInput, CurrentCompetency(s).value.nodeId)
  {
    assert s.info.planInput.plan.competencies[s.loop.competency] == CurrentCompetency(s).value;
  }

  ghost predicate AllNamed(plan: RawPlan, calls: seq<Call>)
  {
    forall k :: 0 <= k < |calls| ==> Named(plan, calls[k].focus)
  }

  /** Every assessor call is about a competency of the plan the session was created with. */
  lemma {:induction false} CallsAreAboutThePlan(sessionId: nat, plan: RawPlan, es: seq<Event>, c: Config)
    ensures
      var run := Execute(InitialState(sessionId, plan, c), es, c);
      run.Stepped? && run.state.info.planInput == plan && AllNamed(plan, Calls(run.commands))
    decreases |es|
  {
    if es != [] {
      CallsAreAboutThePlan(sessionId, plan, Front(es), c);
      ReachableInvariant(sessionId, plan, Front(es), c);
      NamedThen(plan, Execute(InitialState(sessionId, plan, c), Front(es), c), Last(es), c);
    }
  }

  lemma NamedThen(plan: RawPlan, before: Step, e: Event, c: Config)
    requires before.Stepped? && Invariant(before.state, c)
    requires before.state.info.planInput == plan && AllNamed(plan, Calls(before.commands))
    ensures
      var after := Then(before, e, c);
      after.Stepped? && after.state.info.planInput == plan && AllNamed(plan, Calls(after.commands))
  {
    hide Transition, Invariant, Named, Calls;
    StepSchedules(before.state, e, c);
    CallsAppend(before.commands, Transition(before.state, e, c).commands);
    InfoStays(before.state, e, c);
    if AcceptedTechTurn(before.state, e) {
      CurrentIsNamed(before.state, c);
    }
  }

  lemma InfoStays(s: SessionState, e: Event, c: Config)
    requires Transition(s, e, c).Stepped?
    ensures Transition(s, e, c).state.info == s.info
  {
  }
}
