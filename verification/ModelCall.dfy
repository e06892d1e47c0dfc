/** The model-call wrapper (app/backend/llm/vertex.py) with its two cost ledgers, and the
    agent wrappers that retry it once. What the backend answers, and whether a trace
    write succeeds, is chosen by an arbitrary environment. */
module ModelCall {
  import opened Common
  import opened RequestPayload
  import opened StateMachine

  // ---------- the environment ----------

  /** A reply parsed against the output schema, before the agents' own validation. */
  datatype Body =
    | InterviewerBody(utterance: string, move: Move)
    | AssessorBody(turnId: TurnId, sessionId: nat, output: AssessorOutput)
    | OtherBody

  datatype Payload = OffSchema | OnSchema(body: Body)

  datatype RawResult = RawResult(inputTokens: nat, outputTokens: nat, payload: Payload)

  /** How one `generate` call ends. WallClock: the 30-second cap fires before it does. */
  datatype Attempt =
    | Reply(raw: RawResult)
    | Transient
    | ConnectionLost
    | DeadlineExceeded
    | CallerError
    | UpstreamError
    | UnknownError
    | WallClock

  /** The n-th backend call of the process, whether the 30-second cap fires in the wait that
      would follow it, and the n-th trace write. */
  datatype Env = Env(attempts: nat -> Attempt, capInWait: nat -> bool, writes: nat -> bool)

  // ---------- settings ----------

  /** The price table admits positive prices only (pricing.py:35-40). */
  datatype Price = Price(inputPer1k: real, outputPer1k: real)
  {
    predicate Valid() { 0.0 < inputPer1k && 0.0 < outputPer1k }
  }

  type Pricing = p: Price | p.Valid() witness Price(1.0, 1.0)

  function CostOf(p: Pricing, raw: RawResult): real
  {
    p.inputPer1k * (raw.inputTokens as real) / 1000.0 + p.outputPer1k * (raw.outputTokens as real) / 1000.0
  }

  lemma CostIsNotNegative(p: Pricing, raw: RawResult)
    ensures 0.0 <= CostOf(p, raw)
  {
    assert 0.0 <= p.inputPer1k * (raw.inputTokens as real);
    assert 0.0 <= p.outputPer1k * (raw.outputTokens as real);
  }

  /** Which total the budget check reads: the process's own, or the sum over trace rows. */
  datatype LedgerKind = InMemory | FromTraces

  datatype Settings = Settings(ledger: LedgerKind, budget: real, agentKnown: bool, pricing: Option<Pricing>)

  // ---------- the record of what was done ----------

  datatype Outcome = Fine | SchemaMiss | TimedOutCall | Unavailable | Misconfigured | OverBudget

  datatype Trace = Trace(turn: TurnId, outcome: Outcome, attempts: nat, cost: real)

  /** One attempted trace write. */
  datatype Write = Write(trace: Trace, kept: bool)

  /** Backend calls made, trace writes attempted, and the in-memory running total. */
  datatype Wire = Wire(generates: nat, log: seq<Write>, memory: real)

  datatype WrapperError = ConfigError | TimeoutError | UnavailableError | SchemaError | BudgetExceeded | TraceWriteError

  datatype CallResult = Returned(body: Body, attempts: nat, cost: real) | Error(error: WrapperError)

  /** The rows a reader of the trace table sees, added up. */
  function TraceTotal(log: seq<Write>): real
  {
    if log == [] then 0.0
    else TraceTotal(Front(log)) + (if Last(log).kept then Last(log).trace.cost else 0.0)
  }

  function SessionTotal(w: Wire, kind: LedgerKind): real
  {
    match kind
    case InMemory => w.memory
    case FromTraces => TraceTotal(w.log)
  }

  // ---------- the retry loop ----------

  datatype RetryResult =
    | Got(raw: RawResult, attempts: nat)
    | GaveUp(error: WrapperError, attempts: nat)
    | Expired
    | Escaped

  const MAX_ATTEMPTS: nat := 3

  predicate Retryable(a: Attempt)
  {
    a.Transient? || a.ConnectionLost?
  }

  /** The classification of an attempt that ends the loop. */
  function Settle(a: Attempt, attempt: nat): RetryResult
  {
    match a
    case Reply(raw) => Got(raw, attempt)
    case DeadlineExceeded => GaveUp(TimeoutError, attempt)
    case CallerError => GaveUp(ConfigError, attempt)
    case UnknownError => Escaped
    case WallClock => Expired
    case _ => GaveUp(UnavailableError, attempt)
  }

  /** The attempts from number `attempt` on, the backend having been called n times. */
  function Retry(env: Env, n: nat, attempt: nat): (nat, RetryResult)
    requires 1 <= attempt <= MAX_ATTEMPTS
    decreases MAX_ATTEMPTS - attempt
  {
    var a := env.attempts(n);
    if !Retryable(a) || attempt == MAX_ATTEMPTS then (n + 1, Settle(a, attempt))
    else if env.capInWait(n) then (n + 1, Expired)
    else Retry(env, n + 1, attempt + 1)
  }

  // ---------- one call ----------

  function Persist(w: Wire, env: Env, t: Trace): (Wire, bool)
  {
    var kept := env.writes(|w.log|);
    (w.(log := w.log + [Write(t, kept)]), kept)
  }

  /** A failed call: its trace is written, and a failed write replaces its error. */
  function FailCall(w: Wire, env: Env, t: Trace, error: WrapperError): (Wire, CallResult)
  {
    var (w', kept) := Persist(w, env, t);
    (w', Error(if kept then error else TraceWriteError))
  }

  function OutcomeFor(error: WrapperError): Outcome
  {
    match error
    case TimeoutError => TimedOutCall
    case ConfigError => Misconfigured
    case _ => Unavailable
  }

  function Charge(w: Wire, kind: LedgerKind, cost: real): Wire
  {
    match kind
    case InMemory => w.(memory := w.memory + cost)
    case FromTraces => w
  }

  function CallModel(w: Wire, env: Env, s: Settings, turn: TurnId): (Wire, CallResult)
  {
    if !s.agentKnown || s.pricing.None? then FailCall(w, env, Trace(turn, Misconfigured, 1, 0.0), ConfigError)
    else if SessionTotal(w, s.ledger) >= s.budget then FailCall(w, env, Trace(turn, OverBudget, 1, 0.0), BudgetExceeded)
    else
      var (n, result) := Retry(env, w.generates, 1);
      var called := w.(generates := n);
      match result
      case Expired => FailCall(called, env, Trace(turn, TimedOutCall, 1, 0.0), TimeoutError)
      case Escaped => FailCall(called, env, Trace(turn, Unavailable, 1, 0.0), UnavailableError)
      case GaveUp(error, attempts) => FailCall(called, env, Trace(turn, OutcomeFor(error), attempts, 0.0), error)
      case Got(raw, attempts) =>
        var cost := CostOf(s.pricing.value, raw);
        if raw.payload.OffSchema? then FailCall(called, env, Trace(turn, SchemaMiss, attempts, cost), SchemaError)
        else
          var (w', kept) := Persist(Charge(called, s.ledger, cost), env, Trace(turn, Fine, attempts, cost));
          (w', if kept then Returned(raw.payload.body, attempts, cost) else Error(TraceWriteError))
  }

  // ---------- the wrapper as the program runs it ----------

  class ModelClient {
    var generates: nat
    var log: seq<Write>
    var memory: real

    function View(): Wire
      reads this
    {
      Wire(generates, log, memory)
    }

    constructor ()
      ensures View() == Wire(0, [], 0.0)
    {
      generates, log, memory := 0, [], 0.0;
    }

    method CallWithRetries(env: Env) returns (result: RetryResult)
      modifies this`generates
      ensures (generates, result) == Retry(env, old(generates), 1)
    {
      var attempt: nat := 1;
      while true
        invariant 1 <= attempt <= MAX_ATTEMPTS
        invariant Retry(env, generates, attempt) == Retry(env, old(generates), 1)
        decreases MAX_ATTEMPTS - attempt
      {
        var number := generates;
        var a := env.attempts(number);
        generates := generates + 1;
        if !Retryable(a) || attempt == MAX_ATTEMPTS {
          return Settle(a, attempt);
        }
        if env.capInWait(number) {
          return Expired;
        }
        attempt := attempt + 1;
      }
    }

    method PersistTrace(env: Env, t: Trace) returns (kept: bool)
      modifies this`log
      ensures (View(), kept) == Persist(old(View()), env, t)
    {
      kept := env.writes(|log|);
      log := log + [Write(t, kept)];
    }

    method EmitFailureTrace(env: Env, t: Trace, error: WrapperError) returns (result: CallResult)
      modifies this`log
      ensures (View(), result) == FailCall(old(View()), env, t, error)
      ensures log == old(log) + [Write(t, env.writes(|old(log)|))]
      ensures TraceTotal(log) == TraceTotal(old(log)) + (if env.writes(|old(log)|) then t.cost else 0.0)
      ensures result.Error? && (result.error == error || !env.writes(|old(log)|))
    {
      var kept := PersistTrace(env, t);
      result := Error(if kept then error else TraceWriteError);
    }

    method Add(kind: LedgerKind, cost: real)
      modifies this`memory
      ensures View() == Charge(old(View()), kind, cost)
      ensures SessionTotal(View(), kind) == SessionTotal(old(View()), kind) + (if kind == InMemory then cost else 0.0)
      ensures forall other :: other != kind ==> SessionTotal(View(), other) == SessionTotal(old(View()), other)
    {
      if kind == InMemory {
        memory := memory + cost;
      }
    }

    method Call(env: Env, s: Settings, turn: TurnId) returns (result: CallResult)
      modifies this
      ensures (View(), result) == CallModel(old(View()), env, s, turn)
    {
      if !s.agentKnown || s.pricing.None? {
        result := EmitFailureTrace(env, Trace(turn, Misconfigured, 1, 0.0), ConfigError);
        return;
      }
      if SessionTotal(View(), s.ledger) >= s.budget {
        result := EmitFailureTrace(env, Trace(turn, OverBudget, 1, 0.0), BudgetExceeded);
        return;
      }
      var retried := CallWithRetries(env);
      match retried {
        case Expired =>
          result := EmitFailureTrace(env, Trace(turn, TimedOutCall, 1, 0.0), TimeoutError);
        case Escaped =>
          result := EmitFailureTrace(env, Trace(turn, Unavailable, 1, 0.0), UnavailableError);
        case GaveUp(error, attempts) =>
          result := EmitFailureTrace(env, Trace(turn, OutcomeFor(error), attempts, 0.0), error);
        case Got(raw, attempts) =>
          var cost := CostOf(s.pricing.value, raw);
          if raw.payload.OffSchema? {
            result := EmitFailureTrace(env, Trace(turn, SchemaMiss, attempts, cost), SchemaError);
          } else {
            Add(s.ledger, cost);
            var kept := PersistTrace(env, Trace(turn, Fine, attempts, cost));
            result := if kept then Returned(raw.payload.body, attempts, cost) else Error(TraceWriteError);
          }
      }
    }

    method RunInterviewerTurn(env: Env, s: Settings, turn: TurnId, payload: Json)
      returns (result: AgentResult<InterviewerOutput>)
      modifies this
      ensures (View(), result) == InterviewerTurn(old(View()), env, s, turn, payload)
    {
      if !Fits(payload) {
        return Oversized;
      }
      var first := Call(env, s, turn);
      if !Missed(first, AcceptInterviewer) {
        return Conclude(first, AcceptInterviewer);
      }
      var second := Call(env, s, turn);
      result := Conclude(second, AcceptInterviewer);
    }

    method RunAssessorTurn(env: Env, s: Settings, turn: TurnId, sessionId: nat, focus: string, payload: Json)
      returns (result: AgentResult<AssessorOutput>)
      modifies this
      ensures (View(), result) == AssessorTurn(old(View()), env, s, turn, sessionId, focus, payload)
    {
      if !Fits(payload) {
        return Oversized;
      }
      var accept := AssessorAccepts(turn, sessionId, focus);
      var first := Call(env, s, turn);
      if !Missed(first, accept) {
        return Conclude(first, accept);
      }
      var second := Call(env, s, turn);
      result := Conclude(second, accept);
    }
  }

  // ---------- the agents ----------

  /** Oversized: the request could not be built, and the ValidationError of that escapes the
      agent, which catches no error until the request exists. */
  datatype AgentResult<T> = Produced(output: T) | OutputInvalid | Wrapped(error: WrapperError) | Oversized

  /** InterviewerOutput.model_validate. */
  function AcceptInterviewer(body: Body): Option<InterviewerOutput>
  {
    if body.InterviewerBody? && 1 <= |body.utterance| <= 1200
    then Some(InterviewerOutput(body.utterance, body.move)) else None
  }

  predicate ItemInBounds(item: AssessmentItem)
  {
    item.level <= 5 && 0.0 <= item.confidence <= 0.99
  }

  /** AssessorOutput.model_validate and the three echo checks. */
  function AcceptAssessor(body: Body, turn: TurnId, sessionId: nat, focus: string): Option<AssessorOutput>
  {
    if body.AssessorBody?
       && (forall k :: 0 <= k < |body.output.assessments| ==> ItemInBounds(body.output.assessments[k]))
       && body.turnId == turn && body.sessionId == sessionId && body.output.focus == focus
    then Some(body.output) else None
  }

  function AssessorAccepts(turn: TurnId, sessionId: nat, focus: string): Body -> Option<AssessorOutput>
  {
    body => AcceptAssessor(body, turn, sessionId, focus)
  }

  /** Whether the agent layer retries: a schema-class miss only. */
  predicate Missed<T>(result: CallResult, accept: Body -> Option<T>)
  {
    if result.Returned? then accept(result.body).None? else result.error == SchemaError
  }

  function Conclude<T>(result: CallResult, accept: Body -> Option<T>): AgentResult<T>
  {
    if Missed(result, accept) then OutputInvalid
    else if result.Returned? then Produced(accept(result.body).value)
    else Wrapped(result.error)
  }

  /** One agent turn: a call, and exactly one fresh call after a miss. */
  function AgentTurn<T>(w: Wire, env: Env, s: Settings, turn: TurnId, accept: Body -> Option<T>)
    : (Wire, AgentResult<T>)
  {
    var (w1, first) := CallModel(w, env, s, turn);
    if !Missed(first, accept) then (w1, Conclude(first, accept))
    else
      var (w2, second) := CallModel(w1, env, s, turn);
      (w2, Conclude(second, accept))
  }

  function InterviewerTurn(w: Wire, env: Env, s: Settings, turn: TurnId, payload: Json)
    : (Wire, AgentResult<InterviewerOutput>)
  {
    if Fits(payload) then AgentTurn(w, env, s, turn, AcceptInterviewer) else (w, Oversized)
  }

  function AssessorTurn(
    w: Wire, env: Env, s: Settings, turn: TurnId, sessionId: nat, focus: string, payload: Json)
    : (Wire, AgentResult<AssessorOutput>)
  {
    if Fits(payload) then AgentTurn(w, env, s, turn, AssessorAccepts(turn, sessionId, focus)) else (w, Oversized)
  }
}
