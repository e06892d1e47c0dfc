/** The per-session budget under concurrent callers: `call_model` reads the running total,
    and only charges it after the backend has answered (vertex.py:391-408, 518-520), so
    callers admitted meanwhile can overshoot, by at most one call each. */
module SessionBudget {
  import opened Common
  import opened StateMachine
  import opened ModelCall
  import opened ModelCallProperties

  /** The running total, and which of the k callers have been admitted but not charged. */
  datatype Ledger = Ledger(total: real, inFlight: seq<bool>)

  /** Caller i reads the total and is admitted or refused; or its call ends, having cost
      something between nothing (it failed, or its row was lost) and one call's maximum. */
  datatype Action = Check(caller: nat) | Charge(caller: nat, cost: real)

  datatype Limits = Limits(budget: real, perCall: real)

  predicate Legal(a: Action, l: Limits)
  {
    a.Charge? ==> 0.0 <= a.cost <= l.perCall
  }

  /** An action of a caller that is not in the position to take it does nothing. */
  function Act(s: Ledger, a: Action, l: Limits): Ledger
  {
    if a.caller >= |s.inFlight| then s
    else
      match a
      case Check(i) =>
        if !s.inFlight[i] && s.total < l.budget then s.(inFlight := s.inFlight[i := true]) else s
      case Charge(i, cost) =>
        if s.inFlight[i] then Ledger(s.total + cost, s.inFlight[i := false]) else s
  }

  function Acts(s: Ledger, actions: seq<Action>, l: Limits): Ledger
    decreases |actions|
  {
    if actions == [] then s else Act(Acts(s, Front(actions), l), Last(actions), l)
  }

  function InFlight(flags: seq<bool>): nat
  {
    if flags == [] then 0 else InFlight(Front(flags)) + (if Last(flags) then 1 else 0)
  }

  lemma {:induction false} InFlightUpdate(flags: seq<bool>, i: nat, b: bool)
    requires i < |flags|
    ensures InFlight(flags[i := b]) + (if flags[i] then 1 else 0) == InFlight(flags) + (if b then 1 else 0)
    ensures InFlight(flags) <= |flags|
  {
    if i == |flags| - 1 {
      assert Front(flags[i := b]) == Front(flags);
      InFlightBound(flags);
    } else {
      assert Front(flags[i := b]) == Front(flags)[i := b];
      InFlightUpdate(Front(flags), i, b);
    }
  }

  lemma {:induction false} InFlightBound(flags: seq<bool>)
    ensures InFlight(flags) <= |flags|
  {
    if flags != [] {
      InFlightBound(Front(flags));
    }
  }

  /** What n calls at the maximum cost. */
  function Worth(n: nat, each: real): real
  {
    if n == 0 then 0.0 else Worth(n - 1, each) + each
  }

  lemma {:induction false} WorthIsProduct(n: nat, each: real)
    ensures Worth(n, each) == (n as real) * each
  {
    if n > 0 {
      WorthIsProduct(n - 1, each);
      var x := (n - 1) as real;
      assert (x + 1.0) * each == x * each + each;
      assert n as real == x + 1.0;
    }
  }

  function Idle(k: nat): seq<bool>
  {
    seq(k, _ => false)
  }

  /** What every interleaving keeps: the total, plus a full call for every caller in
      flight, stays below the budget plus one call per caller. */
  ghost predicate Solvent(s: Ledger, l: Limits)
  {
    if s.total == 0.0 && InFlight(s.inFlight) == 0 then true
    else
      && 0.0 <= s.total
      && s.total + Worth(InFlight(s.inFlight), l.perCall) < l.budget + Worth(|s.inFlight|, l.perCall)
  }

  lemma {:induction false} WorthGrows(a: nat, b: nat, each: real)
    requires a <= b && 0.0 <= each
    ensures 0.0 <= Worth(a, each) <= Worth(b, each)
    decreases b
  {
    if a < b {
      WorthGrows(a, b - 1, each);
    } else if a > 0 {
      WorthGrows(a - 1, b - 1, each);
    }
  }

  lemma ActIsSolvent(s: Ledger, a: Action, l: Limits)
    requires Solvent(s, l) && Legal(a, l) && 0.0 <= l.perCall && 0.0 <= s.total
    ensures Solvent(Act(s, a, l), l)
    ensures 0.0 <= Act(s, a, l).total && |Act(s, a, l).inFlight| == |s.inFlight|
  {
    var t := Act(s, a, l);
    if t != s {
      InFlightUpdate(s.inFlight, a.caller, a.Check?);
      InFlightBound(t.inFlight);
      WorthGrows(InFlight(t.inFlight), |t.inFlight|, l.perCall);
    }
  }

  lemma {:induction false} ActsAreSolvent(s: Ledger, actions: seq<Action>, l: Limits)
    requires Solvent(s, l) && 0.0 <= s.total && 0.0 <= l.perCall
    requires forall n :: 0 <= n < |actions| ==> Legal(actions[n], l)
    ensures Solvent(Acts(s, actions, l), l) && 0.0 <= Acts(s, actions, l).total
    ensures |Acts(s, actions, l).inFlight| == |s.inFlight|
    decreases |actions|
  {
    if actions != [] {
      ActsAreSolvent(s, Front(actions), l);
      assert Legal(actions[|actions| - 1], l);
      ActIsSolvent(Acts(s, Front(actions), l), Last(actions), l);
    }
  }

  /** Every interleaving of k callers of one session, each call costing at most `perCall`,
      keeps the session total below the budget plus k calls. */
  lemma OvershootIsBounded(k: nat, actions: seq<Action>, l: Limits)
    requires 0.0 <= l.perCall && forall n :: 0 <= n < |actions| ==> Legal(actions[n], l)
    ensures
      var total := Acts(Ledger(0.0, Idle(k)), actions, l).total;
      total == 0.0 || total < l.budget + (k as real) * l.perCall
  {
    WorthIsProduct(k, l.perCall);
    var start := Ledger(0.0, Idle(k));
    NobodyInFlight(start.inFlight);
    ActsAreSolvent(start, actions, l);
    WorthGrows(0, InFlight(Acts(start, actions, l).inFlight), l.perCall);
  }

  lemma {:induction false} NobodyInFlight(flags: seq<bool>)
    requires forall i :: 0 <= i < |flags| ==> !flags[i]
    ensures InFlight(flags) == 0
  {
    if flags != [] {
      NobodyInFlight(Front(flags));
    }
  }

  // ---------- the bound is reached ----------

  /** Callers 0..n check, one after the other. */
  function Checks(n: nat): seq<Action>
  {
    if n == 0 then [] else Checks(n - 1) + [Check(n - 1)]
  }

  function Charges(n: nat, cost: real): seq<Action>
  {
    if n == 0 then [] else Charges(n - 1, cost) + [Charge(n - 1, cost)]
  }

  /** The callers before n are in flight. */
  function Before(k: nat, n: nat): seq<bool>
  {
    seq(k, i => i < n)
  }

  /** The callers from n on are in flight. */
  function From(k: nat, n: nat): seq<bool>
  {
    seq(k, i => i >= n)
  }

  lemma {:induction false} AllAdmitted(total: real, k: nat, n: nat, l: Limits)
    requires n <= k && total < l.budget
    ensures Acts(Ledger(total, Idle(k)), Checks(n), l) == Ledger(total, Before(k, n))
  {
    if n == 0 {
      assert Idle(k) == Before(k, 0);
    } else {
      AllAdmitted(total, k, n - 1, l);
      assert Front(Checks(n)) == Checks(n - 1);
      assert Before(k, n - 1)[n - 1 := true] == Before(k, n);
    }
  }

  lemma {:induction false} AllCharged(total: real, k: nat, n: nat, l: Limits)
    requires n <= k
    ensures Acts(Ledger(total, From(k, 0)), Charges(n, l.perCall), l)
         == Ledger(total + Worth(n, l.perCall), From(k, n))
  {
    if n > 0 {
      AllCharged(total, k, n - 1, l);
      assert Front(Charges(n, l.perCall)) == Charges(n - 1, l.perCall);
      assert From(k, n - 1)[n - 1 := false] == From(k, n);
    }
  }

  lemma {:induction false} ActsAppend(s: Ledger, a: seq<Action>, b: seq<Action>, l: Limits)
    ensures Acts(s, a + b, l) == Acts(Acts(s, a, l), b, l)
    decreases |b|
  {
    if b == [] {
      assert a + b == a;
    } else {
      assert Front(a + b) == a + Front(b);
      ActsAppend(s, a, Front(b), l);
    }
  }

  /** The overshoot is real: from any total under budget, k callers that check before any
      of them is charged add k full calls. */
  lemma OvershootIsReached(total: real, k: nat, l: Limits)
    requires total < l.budget
    ensures Acts(Ledger(total, Idle(k)), Checks(k) + Charges(k, l.perCall), l).total
         == total + (k as real) * l.perCall
  {
    WorthIsProduct(k, l.perCall);
    AllAdmitted(total, k, k, l);
    assert Before(k, k) == From(k, 0);
    AllCharged(total, k, k, l);
    ActsAppend(Ledger(total, Idle(k)), Checks(k), Charges(k, l.perCall), l);
  }

  // ---------- the wrapper is such a caller ----------

  /** What one call of the wrapper adds to the total its budget check reads. */
  function Charged(w: Wire, env: Env, s: Settings, turn: TurnId): real
  {
    SessionTotal(CallModel(w, env, s, turn).0, s.ledger) - SessionTotal(w, s.ledger)
  }

  /** One call by itself is a check and then a charge of this ledger, whichever total the
      wrapper reads: nothing is charged unless the total was under budget. */
  lemma CallIsCheckThenCharge(w: Wire, env: Env, s: Settings, turn: TurnId)
    ensures
      var cost := Charged(w, env, s, turn);
      && 0.0 <= cost
      && (0.0 < cost ==> SessionTotal(w, s.ledger) < s.budget)
      && Acts(Ledger(SessionTotal(w, s.ledger), Idle(1)), [Check(0), Charge(0, cost)], Limits(s.budget, cost)).total
         == SessionTotal(CallModel(w, env, s, turn).0, s.ledger)
  {
    var w', cost := CallModel(w, env, s, turn).0, Charged(w, env, s, turn);
    EveryCallIsTracedOnce(w, env, s, turn);
    var result := Retry(env, w.generates, 1).1;
    if s.pricing.Some? && result.Got? {
      CostIsNotNegative(s.pricing.value, result.raw);
    }
    var start, l := Ledger(SessionTotal(w, s.ledger), Idle(1)), Limits(s.budget, cost);
    assert Front([Check(0), Charge(0, cost)]) == [Check(0)] && Front([Check(0)]) == [];
    assert Acts(start, [Check(0)], l) == Act(start, Check(0), l);
  }
}
