/** Concurrent calls of the wrapper over one shared record: a call cut where it awaits (the read
    of the total, each backend attempt, the charge, the trace write), its stretches interleaved
    at will with those of other calls. */
module SharedBudget {
  import opened Common
  import opened StateMachine
  import opened ModelCall
  import opened SessionBudget

  /** What the calls of a process share: the environment, the ledger and the budget. */
  datatype Process = Process(env: Env, ledger: LedgerKind, budget: real)

  /** Where a call is suspended: not begun or returned; before a backend attempt; before the
      charge; or before the trace write, after which `result` is returned if it is kept. */
  datatype Stage =
    | Resting(result: Option<CallResult>)
    | Trying(price: Pricing, turn: TurnId, attempt: nat)
    | Billed(trace: Trace, body: Body)
    | Noting(trace: Trace, outcome: CallResult)

  predicate InRetries(g: Stage)
  {
    g.Trying? ==> 1 <= g.attempt <= MAX_ATTEMPTS
  }

  // ---------- the stretches of one call ----------

  /** Up to the first await after the budget check. */
  function Asked(w: Wire, s: Settings, turn: TurnId): (g: Stage)
    ensures InRetries(g)
  {
    if !s.agentKnown || s.pricing.None? then Noting(Trace(turn, Misconfigured, 1, 0.0), Error(ConfigError))
    else if SessionTotal(w, s.ledger) >= s.budget
    then Noting(Trace(turn, OverBudget, 1, 0.0), Error(BudgetExceeded))
    else Trying(s.pricing.value, turn, 1)
  }

  /** How the end of the retry loop is taken. */
  function Judged(price: Pricing, turn: TurnId, result: RetryResult): Stage
  {
    match result
    case Expired => Noting(Trace(turn, TimedOutCall, 1, 0.0), Error(TimeoutError))
    case Escaped => Noting(Trace(turn, Unavailable, 1, 0.0), Error(UnavailableError))
    case GaveUp(error, attempts) => Noting(Trace(turn, OutcomeFor(error), attempts, 0.0), Error(error))
    case Got(raw, attempts) =>
      var cost := CostOf(price, raw);
      if raw.payload.OffSchema? then Noting(Trace(turn, SchemaMiss, attempts, cost), Error(SchemaError))
      else Billed(Trace(turn, Fine, attempts, cost), raw.payload.body)
  }

  function Tried(w: Wire, p: Process, g: Stage): (Wire, Stage)
    requires g.Trying? && InRetries(g)
  {
    var n, a := w.generates, p.env.attempts(w.generates);
    (w.(generates := n + 1),
     if !Retryable(a) || g.attempt == MAX_ATTEMPTS then Judged(g.price, g.turn, Settle(a, g.attempt))
     else if p.env.capInWait(n) then Judged(g.price, g.turn, Expired)
     else g.(attempt := g.attempt + 1))
  }

  /** From one await to the next. */
  function Resumed(w: Wire, p: Process, g: Stage): (Wire, Stage)
    requires InRetries(g)
  {
    match g
    case Resting(_) => (w, g)
    case Trying(_, _, _) => Tried(w, p, g)
    case Billed(trace, body) =>
      (ModelCall.Charge(w, p.ledger, trace.cost), Noting(trace, Returned(body, trace.attempts, trace.cost)))
    case Noting(trace, outcome) =>
      var (w', kept) := Persist(w, p.env, trace);
      (w', Resting(Some(if kept then outcome else Error(TraceWriteError))))
  }

  function Rank(g: Stage): nat
    requires InRetries(g)
  {
    match g
    case Resting(_) => 0
    case Noting(_, _) => 1
    case Billed(_, _) => 2
    case Trying(_, _, attempt) => 3 + (MAX_ATTEMPTS - attempt)
  }

  lemma StretchesEnd(w: Wire, p: Process, g: Stage)
    requires InRetries(g)
    ensures InRetries(Resumed(w, p, g).1)
    ensures !g.Resting? ==> Rank(Resumed(w, p, g).1) < Rank(g)
  {
  }

  /** The call resumed over and over, undisturbed. */
  function Undisturbed(w: Wire, p: Process, g: Stage): (Wire, Option<CallResult>)
    requires InRetries(g)
    decreases Rank(g)
  {
    if g.Resting? then (w, g.result)
    else
      StretchesEnd(w, p, g);
      Undisturbed(Resumed(w, p, g).0, p, Resumed(w, p, g).1)
  }

  lemma {:induction false} AttemptsUndisturbed(w: Wire, p: Process, price: Pricing, turn: TurnId, attempt: nat)
    requires 1 <= attempt <= MAX_ATTEMPTS
    ensures
      var (n, result) := Retry(p.env, w.generates, attempt);
      Undisturbed(w, p, Trying(price, turn, attempt))
      == Undisturbed(w.(generates := n), p, Judged(price, turn, result))
    decreases MAX_ATTEMPTS - attempt
  {
    var a := p.env.attempts(w.generates);
    if Retryable(a) && attempt < MAX_ATTEMPTS && !p.env.capInWait(w.generates) {
      AttemptsUndisturbed(w.(generates := w.generates + 1), p, price, turn, attempt + 1);
    }
  }

  lemma NotedUndisturbed(w: Wire, p: Process, trace: Trace, outcome: CallResult)
    ensures
      var (w', kept) := Persist(w, p.env, trace);
      Undisturbed(w, p, Noting(trace, outcome)) == (w', Some(if kept then outcome else Error(TraceWriteError)))
  {
  }

  lemma BilledUndisturbed(w: Wire, p: Process, trace: Trace, body: Body)
    ensures
      Undisturbed(w, p, Billed(trace, body))
      == Undisturbed(ModelCall.Charge(w, p.ledger, trace.cost), p,
                     Noting(trace, Returned(body, trace.attempts, trace.cost)))
  {
  }

  /** A call's end, from the end of its retry loop. */
  lemma JudgedUndisturbed(w: Wire, p: Process, g: Stage)
    requires g.Noting? || g.Billed?
    ensures
      var charged := if g.Billed? then ModelCall.Charge(w, p.ledger, g.trace.cost) else w;
      var outcome := if g.Billed? then Returned(g.body, g.trace.attempts, g.trace.cost) else g.outcome;
      var (w', kept) := Persist(charged, p.env, g.trace);
      Undisturbed(w, p, g) == (w', Some(if kept then outcome else Error(TraceWriteError)))
  {
    if g.Billed? {
      BilledUndisturbed(w, p, g.trace, g.body);
      NotedUndisturbed(ModelCall.Charge(w, p.ledger, g.trace.cost), p, g.trace,
                       Returned(g.body, g.trace.attempts, g.trace.cost));
    } else {
      NotedUndisturbed(w, p, g.trace, g.outcome);
    }
  }

  /** The stretches, one after the other, are the call. */
  lemma CallIsItsStretches(w: Wire, env: Env, s: Settings, turn: TurnId)
    ensures
      var (w', r) := Undisturbed(w, Process(env, s.ledger, s.budget), Asked(w, s, turn));
      r.Some? && (w', r.value) == CallModel(w, env, s, turn)
  {
    var p, g := Process(env, s.ledger, s.budget), Asked(w, s, turn);
    if g.Trying? {
      var (n, result) := Retry(env, w.generates, 1);
      AttemptsUndisturbed(w, p, s.pricing.value, turn, 1);
      JudgedUndisturbed(w.(generates := n), p, Judged(s.pricing.value, turn, result));
    } else {
      JudgedUndisturbed(w, p, g);
    }
  }

  // ---------- many calls ----------

  datatype Shared = Shared(wire: Wire, stages: seq<Stage>)

  /** Caller i begins a call, as far as its first await; or goes on to its next. */
  datatype Stretch = Ask(caller: nat, turn: TurnId, known: bool, pricing: Option<Pricing>) | Resume(caller: nat)

  /** A caller that is not in the position to take the stretch does nothing. */
  function Run(x: Shared, p: Process, st: Stretch): Shared
    requires AllInRetries(x.stages)
  {
    if st.caller >= |x.stages| then x
    else
      match st
      case Ask(i, turn, known, pricing) =>
        if !x.stages[i].Resting? then x
        else x.(stages := x.stages[i := Asked(x.wire, Settings(p.ledger, p.budget, known, pricing), turn)])
      case Resume(i) =>
        var (w, g) := Resumed(x.wire, p, x.stages[i]);
        Shared(w, x.stages[i := g])
  }

  predicate AllInRetries(stages: seq<Stage>)
  {
    forall i :: 0 <= i < |stages| ==> InRetries(stages[i])
  }

  lemma RunStaysInRetries(x: Shared, p: Process, st: Stretch)
    requires AllInRetries(x.stages)
    ensures AllInRetries(Run(x, p, st).stages)
  {
    if st.Resume? && st.caller < |x.stages| {
      StretchesEnd(x.wire, p, x.stages[st.caller]);
    }
  }

  function Runs(x: Shared, p: Process, sts: seq<Stretch>): (y: Shared)
    requires AllInRetries(x.stages)
    ensures AllInRetries(y.stages)
    decreases |sts|
  {
    if sts == [] then x
    else
      var before := Runs(x, p, Front(sts));
      RunStaysInRetries(before, p, Last(sts));
      Run(before, p, Last(sts))
  }

  // ---------- as the abstract ledger sees it ----------

  /** Admitted, and what it costs not yet in the total: that comes with the charge, or, when
      the total is that of the trace rows, with the row. */
  predicate Flying(g: Stage, kind: LedgerKind)
  {
    g.Trying? || g.Billed? || (g.Noting? && kind == FromTraces && g.trace.cost > 0.0)
  }

  function Flags(stages: seq<Stage>, kind: LedgerKind): seq<bool>
  {
    seq(|stages|, i requires 0 <= i < |stages| => Flying(stages[i], kind))
  }

  function Seen(x: Shared, p: Process): Ledger
  {
    Ledger(SessionTotal(x.wire, p.ledger), Flags(x.stages, p.ledger))
  }

  /** The stretch, as an action of that ledger, if it is one. */
  function ActionOf(x: Shared, p: Process, st: Stretch): seq<Action>
    requires AllInRetries(x.stages)
  {
    if st.caller >= |x.stages| then []
    else
      var y, i := Run(x, p, st), st.caller;
      if !Flying(x.stages[i], p.ledger) && Flying(y.stages[i], p.ledger) then [Check(i)]
      else if Flying(x.stages[i], p.ledger) && !Flying(y.stages[i], p.ledger)
      then [Charge(i, SessionTotal(y.wire, p.ledger) - SessionTotal(x.wire, p.ledger))]
      else []
  }

  /** No reply costs more than `most` at the prices asked with. */
  ghost predicate Costing(p: Process, price: Pricing, most: real)
  {
    forall n :: p.env.attempts(n).Reply? ==> CostOf(price, p.env.attempts(n).raw) <= most
  }

  ghost predicate StageCosts(p: Process, g: Stage, most: real)
  {
    match g
    case Resting(_) => true
    case Trying(price, _, _) => Costing(p, price, most)
    case Billed(trace, _) => 0.0 <= trace.cost <= most
    case Noting(trace, _) => 0.0 <= trace.cost <= most
  }

  lemma StretchCosts(w: Wire, p: Process, g: Stage, most: real)
    requires InRetries(g) && StageCosts(p, g, most) && 0.0 <= most
    ensures StageCosts(p, Resumed(w, p, g).1, most)
  {
    if g.Trying? {
      var a := p.env.attempts(w.generates);
      if a.Reply? {
        CostIsNotNegative(g.price, a.raw);
      }
    }
  }

  /** What one stretch does to the total the check reads. */
  lemma StretchCharges(w: Wire, p: Process, g: Stage, most: real)
    requires InRetries(g) && StageCosts(p, g, most) && 0.0 <= most
    ensures
      var (w', h) := Resumed(w, p, g);
      var paid := SessionTotal(w', p.ledger) - SessionTotal(w, p.ledger);
      && 0.0 <= paid <= most
      && (Flying(h, p.ledger) ==> Flying(g, p.ledger))
      && (Flying(g, p.ledger) == Flying(h, p.ledger) ==> paid == 0.0)
  {
    if g.Noting? {
      assert Front(w.log + [Write(g.trace, p.env.writes(|w.log|))]) == w.log;
    }
  }

  // ---------- refinement ----------

  ghost predicate AllCost(p: Process, stages: seq<Stage>, most: real)
  {
    forall i :: 0 <= i < |stages| ==> StageCosts(p, stages[i], most)
  }

  ghost predicate Affordable(p: Process, st: Stretch, most: real)
  {
    st.Ask? && st.pricing.Some? ==> Costing(p, st.pricing.value, most)
  }

  /** One stretch is one legal action of the ledger, or none. */
  lemma RunRefines(x: Shared, p: Process, st: Stretch, most: real)
    requires AllInRetries(x.stages) && AllCost(p, x.stages, most) && 0.0 <= most && Affordable(p, st, most)
    ensures AllCost(p, Run(x, p, st).stages, most)
    ensures
      var l, done := Limits(p.budget, most), ActionOf(x, p, st);
      && |done| <= 1
      && Seen(Run(x, p, st), p) == (if done == [] then Seen(x, p) else Act(Seen(x, p), done[0], l))
      && (done != [] ==> Legal(done[0], l))
  {
    if st.caller < |x.stages| {
      var i, y := st.caller, Run(x, p, st);
      if st.Resume? {
        StretchCosts(x.wire, p, x.stages[i], most);
        StretchCharges(x.wire, p, x.stages[i], most);
      }
      assert Flags(y.stages, p.ledger) == Flags(x.stages, p.ledger)[i := Flying(y.stages[i], p.ledger)];
      if Flying(y.stages[i], p.ledger) == Flying(x.stages[i], p.ledger) {
        assert Flags(y.stages, p.ledger) == Flags(x.stages, p.ledger);
      }
    }
  }

  /** The actions that stretches come to. */
  function ActionsOf(x: Shared, p: Process, sts: seq<Stretch>): seq<Action>
    requires AllInRetries(x.stages)
    decreases |sts|
  {
    if sts == [] then []
    else ActionsOf(x, p, Front(sts)) + ActionOf(Runs(x, p, Front(sts)), p, Last(sts))
  }

  ghost predicate AllAffordable(p: Process, sts: seq<Stretch>, most: real)
  {
    forall n :: 0 <= n < |sts| ==> Affordable(p, sts[n], most)
  }

  ghost predicate AllLegal(actions: seq<Action>, l: Limits)
  {
    forall n :: 0 <= n < |actions| ==> Legal(actions[n], l)
  }

  lemma ActionsJoin(start: Ledger, earlier: seq<Action>, more: seq<Action>, l: Limits)
    requires |more| <= 1 && AllLegal(earlier, l) && (more != [] ==> Legal(more[0], l))
    ensures AllLegal(earlier + more, l)
    ensures
      var s := Acts(start, earlier, l);
      Acts(start, earlier + more, l) == if more == [] then s else Act(s, more[0], l)
  {
    hide Act, Legal;
    if more == [] {
      assert earlier + more == earlier;
    } else {
      assert Front(earlier + more) == earlier && Last(earlier + more) == more[0];
    }
  }

  /** Every interleaving of the stretches of any calls, over one shared record, is a series of
      legal actions of the abstract ledger. */
  lemma {:induction false} RunsRefine(x: Shared, p: Process, sts: seq<Stretch>, most: real)
    requires AllInRetries(x.stages) && AllCost(p, x.stages, most) && 0.0 <= most && AllAffordable(p, sts, most)
    ensures
      var l, done := Limits(p.budget, most), ActionsOf(x, p, sts);
      && AllCost(p, Runs(x, p, sts).stages, most)
      && Seen(Runs(x, p, sts), p) == Acts(Seen(x, p), done, l) && AllLegal(done, l)
    decreases |sts|
  {
    hide Run, Act, ActionOf, Affordable, Legal, AllCost, InRetries, Seen;
    if sts != [] {
      var l, front := Limits(p.budget, most), Front(sts);
      assert forall n :: 0 <= n < |front| ==> front[n] == sts[n];
      RunsRefine(x, p, front, most);
      var before := Runs(x, p, front);
      assert Affordable(p, sts[|sts| - 1], most);
      RunRefines(before, p, Last(sts), most);
      ActionsJoin(Seen(x, p), ActionsOf(x, p, front), ActionOf(before, p, Last(sts)), l);
    }
  }

  function AllResting(k: nat): seq<Stage>
  {
    seq(k, _ => Resting(None))
  }

  /** Up to k calls at a time, any number of them in all, interleaved at every await: with no
      reply dearer than `most`, the total that the budget check reads stays below the budget plus
      k calls, for the in-memory ledger and for the sum over trace rows alike. */
  lemma ConcurrentCallsAreBounded(k: nat, p: Process, sts: seq<Stretch>, most: real)
    requires 0.0 <= most && AllAffordable(p, sts, most)
    ensures
      var total := SessionTotal(Runs(Shared(Wire(0, [], 0.0), AllResting(k)), p, sts).wire, p.ledger);
      total == 0.0 || total < p.budget + (k as real) * most
  {
    hide Runs, ActionsOf, Acts;
    var x := Shared(Wire(0, [], 0.0), AllResting(k));
    RunsRefine(x, p, sts, most);
    assert Flags(x.stages, p.ledger) == Idle(k);
    OvershootIsBounded(k, ActionsOf(x, p, sts), Limits(p.budget, most));
  }
}
