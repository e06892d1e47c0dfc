/** What every model call and every agent turn guarantees, whatever the backend does. */
module ModelCallProperties {
  import opened Common
  import opened RequestPayload
  import opened StateMachine
  import opened ModelCall

  // ---------- the retry loop ----------

  /** A fault that may pass: the two kinds worth another attempt. */
  predicate MayPass(a: Attempt)
  {
    a.Transient? || a.ConnectionLost?
  }

  /** What the loop makes of the last answer, after so many calls. */
  function VerdictOn(last: Attempt, calls: nat): RetryResult
  {
    match last
    case Reply(raw) => Got(raw, calls)
    case DeadlineExceeded => GaveUp(TimeoutError, calls)
    case CallerError => GaveUp(ConfigError, calls)
    case UpstreamError => GaveUp(UnavailableError, calls)
    case UnknownError => Escaped
    case WallClock => Expired
    case Transient => if calls == 3 then GaveUp(UnavailableError, 3) else Expired
    case ConnectionLost => if calls == 3 then GaveUp(UnavailableError, 3) else Expired
  }

  /** The backend is called again after a fault that may pass, and after nothing else, up to three
      times, unless the cap fires in the wait; the last answer is reported by its kind, with the
      number of calls. Three faults that may pass end in UnavailableError. */
  lemma {:induction false} RetryStopsAtFirstVerdict(env: Env, n: nat, attempt: nat)
    requires 1 <= attempt <= 3
    ensures
      var (m, result) := Retry(env, n, attempt);
      && n < m && attempt + (m - n) - 1 <= 3
      && (forall k :: n <= k < m - 1 ==> MayPass(env.attempts(k)) && !env.capInWait(k))
      && (MayPass(env.attempts(m - 1)) && attempt + (m - n) - 1 < 3 ==> env.capInWait(m - 1))
      && result == VerdictOn(env.attempts(m - 1), attempt + (m - n) - 1)
    decreases 3 - attempt
  {
    if MayPass(env.attempts(n)) && attempt < 3 && !env.capInWait(n) {
      RetryStopsAtFirstVerdict(env, n + 1, attempt + 1);
    }
  }

  // ---------- one call ----------

  /** The write a call attempts. */
  function LastWrite(w: Wire): Write
    requires w.log != []
  {
    Last(w.log)
  }

  /** What a row costs: nothing unless the backend replied; otherwise, per thousand tokens, the
      price of those that went in and of those that came out. */
  ghost predicate CostsItsTokens(t: Trace, s: Settings, answered: bool, last: Attempt)
  {
    if answered && last.Reply? then
      s.pricing.Some?
      && 1000.0 * t.cost == s.pricing.value.inputPer1k * (last.raw.inputTokens as real)
                            + s.pricing.value.outputPer1k * (last.raw.outputTokens as real)
    else t.cost == 0.0
  }

  /** Exactly one trace write is attempted on every outcome; the backend is called at most
      three times, and not at all on a refused call; what the caller sees is what the row
      says, and a lost row is always an error. */
  ghost predicate OneTracedCall(w: Wire, w': Wire, result: CallResult, env: Env, turn: TurnId)
  {
    && |w'.log| == |w.log| + 1 && Front(w'.log) == w.log
    && w.generates <= w'.generates <= w.generates + 3
    && var write := LastWrite(w');
       && write.trace.turn == turn
       && write.kept == env.writes(|w.log|)
       && 1 <= write.trace.attempts <= 3
       && (result.Returned? ==> result.cost == write.trace.cost && result.attempts == write.trace.attempts)
       && (result == Error(TraceWriteError) <==> !write.kept)
       && (write.kept ==> ToldAsWritten(write.trace.outcome, result))
       && (if w'.generates == w.generates
           then write.trace.outcome.OverBudget? || write.trace.outcome.Misconfigured?
           else WrittenAsAnswered(write.trace.outcome, env.attempts(w'.generates - 1), w'.generates - w.generates))
  }

  /** The caller's result and the row name the same outcome. */
  predicate ToldAsWritten(o: Outcome, result: CallResult)
  {
    && (o.Fine? <==> result.Returned?)
    && (o.SchemaMiss? <==> result == Error(SchemaError))
    && (o.TimedOutCall? <==> result == Error(TimeoutError))
    && (o.Misconfigured? <==> result == Error(ConfigError))
    && (o.OverBudget? <==> result == Error(BudgetExceeded))
    && (o.Unavailable? <==> result == Error(UnavailableError))
  }

  /** The row is decided by the last answer of the backend. */
  predicate WrittenAsAnswered(o: Outcome, last: Attempt, calls: nat)
  {
    && (o.Fine? <==> last.Reply? && last.raw.payload.OnSchema?)
    && (o.SchemaMiss? <==> last.Reply? && last.raw.payload.OffSchema?)
    && (o.TimedOutCall? <==> last.WallClock? || last.DeadlineExceeded? || (MayPass(last) && calls < 3))
    && (o.Misconfigured? <==> last.CallerError?)
    && !o.OverBudget?
  }

  lemma CallIsToldAsWritten(w: Wire, env: Env, s: Settings, turn: TurnId)
    ensures
      var (w', result) := CallModel(w, env, s, turn);
      && |w'.log| == |w.log| + 1 && (result == Error(TraceWriteError) <==> !LastWrite(w').kept)
      && (LastWrite(w').kept ==> ToldAsWritten(LastWrite(w').trace.outcome, result))
  {
    RetryStopsAtFirstVerdict(env, w.generates, 1);
  }

  lemma CallIsWrittenAsAnswered(w: Wire, env: Env, s: Settings, turn: TurnId)
    ensures
      var w' := CallModel(w, env, s, turn).0;
      && |w'.log| == |w.log| + 1 && w.generates <= w'.generates <= w.generates + 3
      && (if w'.generates == w.generates
          then LastWrite(w').trace.outcome.OverBudget? || LastWrite(w').trace.outcome.Misconfigured?
          else WrittenAsAnswered(LastWrite(w').trace.outcome, env.attempts(w'.generates - 1),
                                 w'.generates - w.generates))
  {
    RetryStopsAtFirstVerdict(env, w.generates, 1);
  }

  lemma CallCostsItsTokens(w: Wire, env: Env, s: Settings, turn: TurnId)
    ensures
      var w' := CallModel(w, env, s, turn).0;
      && |w'.log| == |w.log| + 1 && w.generates <= w'.generates
      && CostsItsTokens(LastWrite(w').trace, s, w.generates < w'.generates,
                        if w.generates < w'.generates then env.attempts(w'.generates - 1) else UnknownError)
  {
    RetryStopsAtFirstVerdict(env, w.generates, 1);
  }

  lemma EveryCallIsTracedOnce(w: Wire, env: Env, s: Settings, turn: TurnId)
    ensures OneTracedCall(w, CallModel(w, env, s, turn).0, CallModel(w, env, s, turn).1, env, turn)
    ensures LastWrite(CallModel(w, env, s, turn).0).trace.outcome.OverBudget?
       <==> s.agentKnown && s.pricing.Some? && SessionTotal(w, s.ledger) >= s.budget
    ensures
      var w' := CallModel(w, env, s, turn).0;
      CostsItsTokens(LastWrite(w').trace, s, w.generates < w'.generates,
                     if w.generates < w'.generates then env.attempts(w'.generates - 1) else UnknownError)
  {
    RetryStopsAtFirstVerdict(env, w.generates, 1);
    CallIsToldAsWritten(w, env, s, turn);
    CallIsWrittenAsAnswered(w, env, s, turn);
    CallCostsItsTokens(w, env, s, turn);
  }

  /** The wall clock, or an exception nobody classifies, cut the loop short. */
  predicate CutShort(last: Attempt, calls: nat)
  {
    last.WallClock? || last.UnknownError? || (MayPass(last) && calls < 3)
  }

  /** The recorded attempts are the backend calls made, unless the loop was cut short: then
      the row says 1. */
  lemma AttemptsAreCounted(w: Wire, env: Env, s: Settings, turn: TurnId)
    ensures
      var w' := CallModel(w, env, s, turn).0;
      w.generates < w'.generates ==>
        var last := env.attempts(w'.generates - 1);
        LastWrite(w').trace.attempts
        == if CutShort(last, w'.generates - w.generates) then 1 else w'.generates - w.generates
  {
    RetryStopsAtFirstVerdict(env, w.generates, 1);
    EveryCallIsTracedOnce(w, env, s, turn);
  }

  // ---------- accounting ----------

  predicate IsFine(t: Trace) { t.outcome.Fine? }

  predicate IsSchemaMiss(t: Trace) { t.outcome.SchemaMiss? }

  /** The cost of the attempted writes of one kind, kept or lost. */
  function Spent(log: seq<Write>, kind: Trace -> bool, kept: bool): real
  {
    if log == [] then 0.0
    else
      Spent(Front(log), kind, kept)
      + (if Last(log).kept == kept && kind(Last(log).trace) then Last(log).trace.cost else 0.0)
  }

  /** Only answered calls cost anything. */
  ghost predicate Billed(log: seq<Write>)
  {
    forall k :: 0 <= k < |log| ==>
      0.0 <= log[k].trace.cost && (log[k].trace.cost > 0.0 ==> IsFine(log[k].trace) || IsSchemaMiss(log[k].trace))
  }

  /** The in-memory total is what "ok" calls cost, kept or lost. */
  ghost predicate Accounted(w: Wire)
  {
    Billed(w.log) && w.memory == Spent(w.log, IsFine, true) + Spent(w.log, IsFine, false)
  }

  lemma CallKeepsAccounts(w: Wire, env: Env, s: Settings, turn: TurnId)
    requires Accounted(w) && s.ledger == InMemory
    ensures Accounted(CallModel(w, env, s, turn).0)
  {
    var w' := CallModel(w, env, s, turn).0;
    EveryCallIsTracedOnce(w, env, s, turn);
    assert w'.log == w.log + [LastWrite(w')];
    var result := Retry(env, w.generates, 1).1;
    if s.pricing.Some? && result.Got? {
      CostIsNotNegative(s.pricing.value, result.raw);
    }
  }

  lemma {:induction false} TraceTotalSplits(log: seq<Write>)
    requires Billed(log)
    ensures TraceTotal(log) == Spent(log, IsFine, true) + Spent(log, IsSchemaMiss, true)
    ensures 0.0 <= Spent(log, IsFine, false) && 0.0 <= Spent(log, IsSchemaMiss, true)
  {
    if log != [] {
      assert log[|log| - 1] == Last(log);
      assert forall k :: 0 <= k < |Front(log)| ==> Front(log)[k] == log[k];
      TraceTotalSplits(Front(log));
    }
  }

  /** One call, under the settings and prices of its moment. */
  datatype Paid = Paid(settings: Settings, turn: TurnId)

  /** The calls of a session one after the other. */
  function Calls(w: Wire, env: Env, calls: seq<Paid>): Wire
    decreases |calls|
  {
    if calls == [] then w
    else CallModel(Calls(w, env, Front(calls)), env, Last(calls).settings, Last(calls).turn).0
  }

  predicate KeptInMemory(calls: seq<Paid>)
  {
    forall k :: 0 <= k < |calls| ==> calls[k].settings.ledger == InMemory
  }

  const NO_CALLS := Wire(0, [], 0.0)

  /** Over any series of calls, at any prices: the trace-derived total plus what lost "ok"
      rows cost is the in-memory total plus what schema misses cost. So with no write lost
      the two ledgers differ by exactly the schema misses. */
  lemma {:induction false} LedgersReconcile(env: Env, calls: seq<Paid>)
    requires KeptInMemory(calls)
    ensures
      var w := Calls(NO_CALLS, env, calls);
      && Accounted(w)
      && |w.log| == |calls|
      && TraceTotal(w.log) + Spent(w.log, IsFine, false) == w.memory + Spent(w.log, IsSchemaMiss, true)
      && (w.memory == Spent(w.log, IsFine, true) <==> Spent(w.log, IsFine, false) == 0.0)
    decreases |calls|
  {
    if calls != [] {
      assert Last(calls) == calls[|calls| - 1];
      assert forall k :: 0 <= k < |Front(calls)| ==> Front(calls)[k] == calls[k];
      LedgersReconcile(env, Front(calls));
      var before := Calls(NO_CALLS, env, Front(calls));
      CallKeepsAccounts(before, env, Last(calls).settings, Last(calls).turn);
      EveryCallIsTracedOnce(before, env, Last(calls).settings, Last(calls).turn);
    }
    TraceTotalSplits(Calls(NO_CALLS, env, calls).log);
  }

  predicate AllKept(log: seq<Write>)
  {
    forall k :: 0 <= k < |log| ==> log[k].kept
  }

  lemma {:induction false} NothingLost(log: seq<Write>)
    requires AllKept(log)
    ensures Spent(log, IsFine, false) == 0.0
  {
    if log != [] {
      assert forall k :: 0 <= k < |Front(log)| ==> Front(log)[k] == log[k];
      NothingLost(Front(log));
    }
  }

  lemma KeptOnce(w: Wire, env: Env, s: Settings, turn: TurnId)
    requires AllKept(w.log) && forall n :: env.writes(n)
    ensures AllKept(CallModel(w, env, s, turn).0.log)
  {
    EveryCallIsTracedOnce(w, env, s, turn);
    var log := CallModel(w, env, s, turn).0.log;
    assert log == w.log + [Last(log)];
  }

  lemma {:induction false} EveryWriteKept(env: Env, calls: seq<Paid>)
    requires forall n :: env.writes(n)
    ensures AllKept(Calls(NO_CALLS, env, calls).log)
    decreases |calls|
  {
    if calls != [] {
      EveryWriteKept(env, Front(calls));
      KeptOnce(Calls(NO_CALLS, env, Front(calls)), env, Last(calls).settings, Last(calls).turn);
    }
  }

  /** With a sink that never fails, the in-memory total is the cost of the "ok" rows, and
      the trace-derived total exceeds it by the cost of the schema misses. */
  lemma KeptRowsMatchTheLedger(env: Env, calls: seq<Paid>)
    requires KeptInMemory(calls) && forall n :: env.writes(n)
    ensures
      var w := Calls(NO_CALLS, env, calls);
      && w.memory == Spent(w.log, IsFine, true)
      && TraceTotal(w.log) - w.memory == Spent(w.log, IsSchemaMiss, true)
  {
    LedgersReconcile(env, calls);
    EveryWriteKept(env, calls);
    NothingLost(Calls(NO_CALLS, env, calls).log);
  }

  // ---------- agent turns ----------

  /** The trace rows and backend calls of one agent turn. */
  ghost predicate AgentSpan(w: Wire, w': Wire, turn: TurnId)
  {
    && |w.log| + 1 <= |w'.log| <= |w.log| + 2
    && w'.log[..|w.log|] == w.log
    && w.generates <= w'.generates <= w.generates + 2 * 3
    && (forall k :: |w.log| <= k < |w'.log| ==> w'.log[k].trace.turn == turn)
  }

  /** An agent turn makes one or two calls, the second only after a schema-class miss,
      and produces an output only from a call that was traced and paid for. */
  lemma AgentTurnSpan<T>(w: Wire, env: Env, s: Settings, turn: TurnId, accept: Body -> Option<T>)
    ensures
      var (w', result) := AgentTurn(w, env, s, turn, accept);
      && AgentSpan(w, w', turn)
      && (result.Produced? ==> LastWrite(w').kept && LastWrite(w').trace.outcome.Fine?)
      && (result.OutputInvalid? ==> |w'.log| == |w.log| + 2)
      && result != Wrapped(SchemaError) && !result.Oversized?
  {
    var (w1, first) := CallModel(w, env, s, turn);
    EveryCallIsTracedOnce(w, env, s, turn);
    if Missed(first, accept) {
      EveryCallIsTracedOnce(w1, env, s, turn);
      var w2 := CallModel(w1, env, s, turn).0;
      assert w2.log[..|w1.log|] == w1.log && w1.log[..|w.log|] == w.log;
      assert w2.log[..|w.log|] == w1.log[..|w.log|];
    }
  }

  /** A request that cannot be built touches nothing; any other makes an agent turn. */
  ghost predicate AgentTaken(w: Wire, w': Wire, turn: TurnId, payload: Json, oversized: bool)
  {
    && (oversized <==> !Fits(payload))
    && (if oversized then w' == w else AgentSpan(w, w', turn))
  }

  /** The last answer of the backend to a call is a reply with this body. */
  predicate LastReplyIs(w: Wire, w': Wire, env: Env, body: Body)
  {
    w.generates < w'.generates
    && env.attempts(w'.generates - 1).Reply? && env.attempts(w'.generates - 1).raw.payload == OnSchema(body)
  }

  /** The row of a call is kept and fine, and its reply has this body. */
  predicate Returns(w: Wire, w': Wire, env: Env, body: Body)
  {
    w'.log != [] && LastWrite(w').kept && LastWrite(w').trace.outcome.Fine? && LastReplyIs(w, w', env, body)
  }

  lemma ReturnedBody(w: Wire, env: Env, s: Settings, turn: TurnId)
    ensures
      var (w', result) := CallModel(w, env, s, turn);
      && w.generates <= w'.generates && w'.log != []
      && (result.Returned? <==> LastWrite(w').kept && LastWrite(w').trace.outcome.Fine?)
      && (result.Returned? ==> Returns(w, w', env, result.body))
      && (forall body :: Returns(w, w', env, body) ==> result.Returned? && result.body == body)
  {
    RetryStopsAtFirstVerdict(env, w.generates, 1);
    EveryCallIsTracedOnce(w, env, s, turn);
  }

  /** What an agent turn comes to, by its rows: a second call is made exactly after a kept row
      that is a schema miss or has a body that is not accepted; an output is produced exactly
      from an accepted body; and any other error is passed on. */
  ghost predicate AgentTurnIs<T(!new)>(
    w: Wire, w1: Wire, w': Wire, env: Env, accept: Body -> Option<T>, result: AgentResult<T>)
  {
    && (w' != w1 <==> RowMisses(w, w1, env, accept))
    && (result.OutputInvalid? <==> w' != w1 && RowMisses(w1, w', env, accept))
    && (forall o :: result == Produced(o) <==>
                      exists body :: accept(body) == Some(o) && Returns(if w' == w1 then w else w1, w', env, body))
    && (result.Wrapped? ==> w'.log != [] && result.error == if LastWrite(w').kept
                                                             then ErrorNamed(LastWrite(w').trace.outcome)
                                                             else TraceWriteError)
  }

  ghost predicate RowMisses<T>(w: Wire, w': Wire, env: Env, accept: Body -> Option<T>)
  {
    && w'.log != [] && LastWrite(w').kept
    && (LastWrite(w').trace.outcome.SchemaMiss? || exists body :: Returns(w, w', env, body) && accept(body).None?)
  }

  /** The error that a failed row stands for. */
  function ErrorNamed(o: Outcome): WrapperError
  {
    match o
    case TimedOutCall => TimeoutError
    case Unavailable => UnavailableError
    case Misconfigured => ConfigError
    case OverBudget => BudgetExceeded
    case _ => SchemaError
  }

  lemma CallMisses<T(!new)>(w: Wire, env: Env, s: Settings, turn: TurnId, accept: Body -> Option<T>)
    ensures
      var (w', result) := CallModel(w, env, s, turn);
      && (Missed(result, accept) <==> RowMisses(w, w', env, accept))
      && (result.Returned? ==> forall o :: accept(result.body) == Some(o) <==>
                                         exists body :: accept(body) == Some(o) && Returns(w, w', env, body))
      && (!result.Returned? ==> forall body :: !Returns(w, w', env, body))
      && (result.Error? && !Missed(result, accept) ==>
            w'.log != [] && result.error == if LastWrite(w').kept
                                             then ErrorNamed(LastWrite(w').trace.outcome) else TraceWriteError)
  {
    ReturnedBody(w, env, s, turn);
    EveryCallIsTracedOnce(w, env, s, turn);
  }

  lemma AgentTurnFollowsItsRows<T(!new)>(w: Wire, env: Env, s: Settings, turn: TurnId, accept: Body -> Option<T>)
    ensures
      var w1 := CallModel(w, env, s, turn).0;
      var (w', result) := AgentTurn(w, env, s, turn, accept);
      AgentTurnIs(w, w1, w', env, accept, result)
  {
    hide CallModel, RowMisses, Returns;
    var (w1, first) := CallModel(w, env, s, turn);
    CallMisses(w, env, s, turn, accept);
    EveryCallIsTracedOnce(w, env, s, turn);
    if Missed(first, accept) {
      CallMisses(w1, env, s, turn, accept);
      EveryCallIsTracedOnce(w1, env, s, turn);
    }
  }

  /** Counted from the start of the agent turn: an output is produced exactly from an accepted
      body of its last row. */
  lemma AgentTurnProduces<T(!new)>(w: Wire, env: Env, s: Settings, turn: TurnId, accept: Body -> Option<T>)
    ensures
      var (w', result) := AgentTurn(w, env, s, turn, accept);
      forall o :: result == Produced(o) <==> exists body :: accept(body) == Some(o) && Returns(w, w', env, body)
  {
    hide CallModel;
    var (w1, first) := CallModel(w, env, s, turn);
    AgentTurnFollowsItsRows(w, env, s, turn, accept);
    EveryCallIsTracedOnce(w, env, s, turn);
    if Missed(first, accept) {
      EveryCallIsTracedOnce(w1, env, s, turn);
      var w2 := CallModel(w1, env, s, turn).0;
      assert forall body :: Returns(w, w2, env, body) <==> Returns(w1, w2, env, body);
    }
  }

  /** An interviewer turn says what a backend reply said, to the letter: an output is produced
      exactly when the last row is kept and fine and its reply carries that utterance, of 1 to
      1200 characters, and that move. */
  lemma InterviewerTurnSpan(w: Wire, env: Env, s: Settings, turn: TurnId, payload: Json)
    ensures
      var (w', result) := InterviewerTurn(w, env, s, turn, payload);
      && AgentTaken(w, w', turn, payload, result.Oversized?)
      && (forall o :: result == Produced(o) <==>
            && Fits(payload) && 1 <= |o.utterance| <= 1200
            && Returns(w, w', env, InterviewerBody(o.utterance, o.moveExecuted)))
  {
    hide AgentTurn, Returns;
    AgentTurnSpan(w, env, s, turn, AcceptInterviewer);
    AgentTurnProduces(w, env, s, turn, AcceptInterviewer);
    if Fits(payload) {
      var w' := InterviewerTurn(w, env, s, turn, payload).0;
      forall o: InterviewerOutput
        ensures (exists body :: AcceptInterviewer(body) == Some(o) && Returns(w, w', env, body)) <==>
                1 <= |o.utterance| <= 1200 && Returns(w, w', env, InterviewerBody(o.utterance, o.moveExecuted))
      {
        var body := InterviewerBody(o.utterance, o.moveExecuted);
        assert 1 <= |o.utterance| <= 1200 ==> AcceptInterviewer(body) == Some(o);
      }
    }
  }

  /** An assessor output as the contract bounds it. */
  predicate InBounds(o: AssessorOutput)
  {
    forall k :: 0 <= k < |o.assessments| ==> o.assessments[k].level <= 5 && 0.0 <= o.assessments[k].confidence <= 0.99
  }

  /** Integrity of the audit trail: an assessor output is passed on exactly when the last row is
      kept and fine and its reply carries that output, in bounds, with the turn, session and
      focus that were asked about. */
  lemma AssessorEchoesItsRequest(
    w: Wire, env: Env, s: Settings, turn: TurnId, sessionId: nat, focus: string, payload: Json)
    ensures
      var (w', result) := AssessorTurn(w, env, s, turn, sessionId, focus, payload);
      && AgentTaken(w, w', turn, payload, result.Oversized?)
      && (forall o :: result == Produced(o) <==>
            && Fits(payload) && o.focus == focus && InBounds(o)
            && Returns(w, w', env, AssessorBody(turn, sessionId, o)))
  {
    hide AgentTurn, Returns;
    var accept := AssessorAccepts(turn, sessionId, focus);
    AgentTurnSpan(w, env, s, turn, accept);
    AgentTurnProduces(w, env, s, turn, accept);
    if Fits(payload) {
      var w' := AssessorTurn(w, env, s, turn, sessionId, focus, payload).0;
      forall o: AssessorOutput
        ensures (exists body :: accept(body) == Some(o) && Returns(w, w', env, body)) <==>
                o.focus == focus && InBounds(o) && Returns(w, w', env, AssessorBody(turn, sessionId, o))
      {
        if o.focus == focus && InBounds(o) {
          assert forall k :: 0 <= k < |o.assessments| ==> ItemInBounds(o.assessments[k]);
          assert accept(AssessorBody(turn, sessionId, o)) == Some(o);
        }
      }
    }
  }
}
