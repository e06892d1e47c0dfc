/** The feature-flag cache (app/backend/services/feature_flags.py): a 60-second cache in
    front of a table, with notifications that drop entries. Each stretch between two
    awaits of a call is one step; other calls, writers and the listener run in between. */
module FeatureFlags {
  import opened Common

  type Time = int

  /** Microseconds of the monotonic clock. */
  const CACHE_TTL: Time := 60_000_000

  /** The declared flags and their defaults. */
  type Registry = map<string, bool>

  datatype CacheEntry = CacheEntry(value: bool, expiry: Time)

  type Cache = map<string, CacheEntry>

  // ---------- the stretches of a call ----------

  datatype Started = Unknown | Hit(value: bool) | Miss

  /** is_enabled up to the database read. */
  function Lookup(registry: Registry, cache: Cache, name: string, now: Time): Started
  {
    if name !in registry then Unknown
    else if name in cache && cache[name].expiry > now then Hit(cache[name].value)
    else Miss
  }

  /** The row of the flag, or its default when there is none. */
  function Effective(registry: Registry, table: map<string, bool>, name: string): bool
    requires name in registry
  {
    if name in table then table[name] else registry[name]
  }

  function Stored(cache: Cache, name: string, value: bool, now: Time): Cache
  {
    cache[name := CacheEntry(value, now + CACHE_TTL)]
  }

  /** The notification callback; an empty payload names no flag. */
  function Notified(cache: Cache, payload: string): Cache
  {
    if payload == "" then cache else cache - {payload}
  }

  class FeatureFlagService {
    const registry: Registry
    var cache: Cache

    constructor (registry: Registry)
      ensures this.registry == registry && cache == map[]
    {
      this.registry := registry;
      cache := map[];
    }

    /** The part of is_enabled before its first await. */
    method Begin(name: string, now: Time) returns (started: Started)
      ensures started == Lookup(registry, cache, name, now)
    {
      if name !in registry {
        return Unknown;
      }
      if name in cache {
        var cached := cache[name];
        if cached.expiry > now {
          return Hit(cached.value);
        }
      }
      started := Miss;
    }

    /** What _read_from_db makes of the row it fetched. */
    method ValueOf(name: string, row: Option<bool>) returns (value: bool)
      requires name in registry
      ensures forall table: map<string, bool> ::
                row == (if name in table then Some(table[name]) else None) ==> value == Effective(registry, table, name)
      ensures row.Some? ==> value == row.value
      ensures row.None? ==> value == registry[name]
    {
      value := if row.None? then registry[name] else row.value;
    }

    /** The part of is_enabled after its read, under the cache lock. */
    method Finish(name: string, value: bool, now: Time)
      modifies this
      ensures cache == Stored(old(cache), name, value, now)
      ensures forall at: Time :: name in registry ==>
                Lookup(registry, cache, name, at) == if at < now + CACHE_TTL then Hit(value) else Miss
      ensures forall other, at: Time :: other != name ==>
                Lookup(registry, cache, other, at) == Lookup(registry, old(cache), other, at)
    {
      cache := cache[name := CacheEntry(value, now + CACHE_TTL)];
    }

    method Invalidate(name: string)
      modifies this
      ensures cache == old(cache) - {name}
    {
      cache := cache - {name};
    }

    method OnNotify(payload: string)
      modifies this
      ensures cache == Notified(old(cache), payload)
      ensures forall at: Time :: payload in registry && payload != "" ==> Lookup(registry, cache, payload, at) == Miss
      ensures forall other, at: Time :: other != payload || payload == "" ==>
                Lookup(registry, cache, other, at) == Lookup(registry, old(cache), other, at)
    {
      if payload != "" {
        Invalidate(payload);
      }
    }
  }

  // ---------- the whole system ----------

  /** A call past its cache lookup: its clock reading, and the value once read. */
  datatype Call = Call(name: string, began: Time, read: Option<bool>)

  /** The process, the table, and the notifications on their way to the listener. */
  datatype System = System(
    registry: Registry,
    table: map<string, bool>,
    clock: Time,
    cache: Cache,
    calls: map<nat, Call>,
    listening: bool,
    notices: seq<string>)

  datatype Move =
    | Begin(call: nat, name: string)
    | Read(call: nat)
    | Finish(call: nat)
    | Write(name: string, row: Option<bool>)
    | Deliver
    | Disconnect
    | Connect
    | Tick(elapsed: nat)

  datatype Outcome = Silent | UnknownFlag | Answer(name: string, value: bool, began: Time)

  function Written(table: map<string, bool>, name: string, row: Option<bool>): map<string, bool>
  {
    if row.Some? then table[name := row.value] else table - {name}
  }

  /** One step; a move that is not possible changes nothing. */
  function Step(s: System, m: Move): (System, Outcome)
  {
    match m
    case Begin(call, name) =>
      if call in s.calls then (s, Silent)
      else
        (match Lookup(s.registry, s.cache, name, s.clock)
         case Unknown => (s, UnknownFlag)
         case Hit(value) => (s, Answer(name, value, s.clock))
         case Miss => (s.(calls := s.calls[call := Call(name, s.clock, None)]), Silent))
    case Read(call) =>
      if call !in s.calls || s.calls[call].read.Some? || s.calls[call].name !in s.registry then (s, Silent)
      else
        var c := s.calls[call];
        (s.(calls := s.calls[call := c.(read := Some(Effective(s.registry, s.table, c.name)))]), Silent)
    case Finish(call) =>
      if call !in s.calls || s.calls[call].read.None? then (s, Silent)
      else
        var c := s.calls[call];
        (s.(cache := Stored(s.cache, c.name, c.read.value, c.began), calls := s.calls - {call}),
         Answer(c.name, c.read.value, c.began))
    case Write(name, row) =>
      (s.(table := Written(s.table, name, row), notices := if s.listening then s.notices + [name] else s.notices),
       Silent)
    case Deliver =>
      if s.notices == [] then (s, Silent)
      else (s.(cache := Notified(s.cache, s.notices[0]), notices := s.notices[1..]), Silent)
    case Disconnect => (s.(listening := false, notices := []), Silent)
    case Connect => (s.(listening := true), Silent)
    case Tick(elapsed) => (s.(clock := s.clock + elapsed), Silent)
  }

  function Start(registry: Registry, table: map<string, bool>, clock: Time): System
  {
    System(registry, table, clock, map[], map[], false, [])
  }

  /** The states of a run. */
  ghost predicate IsRun(states: seq<System>, moves: seq<Move>)
  {
    && |states| == |moves| + 1
    && states[0] == Start(states[0].registry, states[0].table, states[0].clock)
    && (forall k :: 0 <= k < |moves| ==> states[k + 1] == Step(states[k], moves[k]).0)
  }

  // ---------- bounded staleness ----------

  predicate Held(s: System, name: string, value: bool, since: Time)
  {
    name in s.registry && Effective(s.registry, s.table, name) == value && since <= s.clock
  }

  /** Some state up to the n-th held the value at clock `since` or later. */
  ghost predicate Witnessed(states: seq<System>, n: nat, name: string, value: bool, since: Time)
    requires n < |states|
  {
    exists k :: 0 <= k <= n && Held(states[k], name, value, since)
  }

  /** Where the values in the n-th state come from. */
  ghost predicate Explained(states: seq<System>, n: nat)
    requires n < |states|
  {
    var s := states[n];
    && (forall name :: name in s.cache ==>
                         Witnessed(states, n, name, s.cache[name].value, s.cache[name].expiry - CACHE_TTL))
    && (forall c :: c in s.calls ==> s.calls[c].name in s.registry && s.calls[c].began <= s.clock)
    && (forall c :: c in s.calls && s.calls[c].read.Some? ==>
          Witnessed(states, n, s.calls[c].name, s.calls[c].read.value, s.calls[c].began))
  }

  lemma StillWitnessed(states: seq<System>, n: nat, name: string, value: bool, since: Time)
    requires n + 1 < |states| && Witnessed(states, n, name, value, since)
    ensures Witnessed(states, n + 1, name, value, since)
  {
  }

  lemma ReadIsWitnessed(states: seq<System>, n: nat, c: nat)
    requires n + 1 < |states| && Explained(states, n)
    requires c in states[n].calls
    ensures
      var call := states[n].calls[c];
      Witnessed(states, n + 1, call.name, Effective(states[n].registry, states[n].table, call.name), call.began)
  {
    assert Held(states[n], states[n].calls[c].name,
                Effective(states[n].registry, states[n].table, states[n].calls[c].name), states[n].calls[c].began);
  }

  lemma CacheStaysExplained(states: seq<System>, m: Move, n: nat, name: string)
    requires n + 1 < |states| && states[n + 1] == Step(states[n], m).0
    requires Explained(states, n) && name in states[n + 1].cache
    ensures
      var e := states[n + 1].cache[name];
      Witnessed(states, n + 1, name, e.value, e.expiry - CACHE_TTL)
  {
    var s, t := states[n], states[n + 1];
    if name in s.cache && t.cache[name] == s.cache[name] {
      StillWitnessed(states, n, name, s.cache[name].value, s.cache[name].expiry - CACHE_TTL);
    } else {
      var c := s.calls[m.call];
      StillWitnessed(states, n, c.name, c.read.value, c.began);
    }
  }

  lemma CallStaysExplained(states: seq<System>, m: Move, n: nat, c: nat)
    requires n + 1 < |states| && states[n + 1] == Step(states[n], m).0
    requires Explained(states, n) && c in states[n + 1].calls
    ensures
      var call := states[n + 1].calls[c];
      && call.name in states[n + 1].registry && call.began <= states[n + 1].clock
      && (call.read.Some? ==> Witnessed(states, n + 1, call.name, call.read.value, call.began))
  {
    hide Witnessed;
    var s, call := states[n], states[n + 1].calls[c];
    if call.read.Some? {
      if c in s.calls && s.calls[c] == call {
        StillWitnessed(states, n, call.name, call.read.value, call.began);
      } else {
        ReadIsWitnessed(states, n, c);
      }
    }
  }

  lemma StepExplains(states: seq<System>, moves: seq<Move>, n: nat)
    requires IsRun(states, moves) && n < |moves| && Explained(states, n)
    ensures Explained(states, n + 1)
  {
    var m, t := moves[n], states[n + 1];
    assert t == Step(states[n], m).0;
    forall name | name in t.cache
      ensures Witnessed(states, n + 1, name, t.cache[name].value, t.cache[name].expiry - CACHE_TTL)
    {
      CacheStaysExplained(states, m, n, name);
    }
    forall c | c in t.calls
      ensures t.calls[c].name in t.registry && t.calls[c].began <= t.clock
      ensures t.calls[c].read.Some? ==>
                Witnessed(states, n + 1, t.calls[c].name, t.calls[c].read.value, t.calls[c].began)
    {
      CallStaysExplained(states, m, n, c);
    }
  }

  lemma {:induction false} RunExplains(states: seq<System>, moves: seq<Move>, n: nat)
    requires IsRun(states, moves) && n <= |moves|
    ensures Explained(states, n)
  {
    if n > 0 {
      RunExplains(states, moves, n - 1);
      StepExplains(states, moves, n - 1);
    }
  }

  /** Under every interleaving of calls, writes, notifications and listener loss: what a
      call answers is a value the table held either while the call ran or less than 60
      seconds before the clock reading it began with. */
  lemma AnswersAreRecent(states: seq<System>, moves: seq<Move>, j: nat)
    requires IsRun(states, moves) && j < |moves|
    ensures
      var outcome := Step(states[j], moves[j]).1;
      outcome.Answer? ==> Witnessed(states, j, outcome.name, outcome.value, outcome.began - CACHE_TTL + 1)
  {
    RunExplains(states, moves, j);
    var s, outcome := states[j], Step(states[j], moves[j]).1;
    if outcome.Answer? {
      var since := if moves[j].Begin? then s.cache[outcome.name].expiry - CACHE_TTL else outcome.began;
      assert Witnessed(states, j, outcome.name, outcome.value, since);
      var k :| 0 <= k <= j && Held(states[k], outcome.name, outcome.value, since);
      assert Held(states[k], outcome.name, outcome.value, outcome.began - CACHE_TTL + 1);
    }
  }

  // ---------- after a flip ----------

  function Run(s: System, moves: seq<Move>): System
    decreases |moves|
  {
    if moves == [] then s else Step(Run(s, Front(moves)), Last(moves)).0
  }

  predicate Leaves(moves: seq<Move>, name: string)
  {
    forall k :: 0 <= k < |moves| ==> !(moves[k].Write? && moves[k].name == name)
  }

  /** No continuation that leaves the flag alone ever answers anything but its value. */
  ghost predicate NeverStale(s: System, name: string)
    requires name in s.registry
  {
    forall moves: seq<Move>, m: Move :: Leaves(moves, name) ==>
      var outcome := Step(Run(s, moves), m).1;
      outcome.Answer? && outcome.name == name ==> outcome.value == Effective(s.registry, s.table, name)
  }

  /** Nothing left in the process can still say otherwise: neither a cache entry that has
      not expired, nor a call that has already read. */
  ghost predicate Settled(s: System, name: string)
    requires name in s.registry
  {
    var value := Effective(s.registry, s.table, name);
    && (name in s.cache && s.cache[name].expiry > s.clock ==> s.cache[name].value == value)
    && (forall c :: c in s.calls && s.calls[c].name == name && s.calls[c].read.Some? ==> s.calls[c].read.value == value)
  }

  lemma StepStaysSettled(s: System, m: Move, name: string)
    requires name in s.registry && Settled(s, name)
    requires !(m.Write? && m.name == name)
    ensures
      var (t, outcome) := Step(s, m);
      && t.registry == s.registry && Effective(t.registry, t.table, name) == Effective(s.registry, s.table, name)
      && Settled(t, name)
  {
  }

  lemma {:induction false} RunStaysSettled(s: System, moves: seq<Move>, name: string)
    requires name in s.registry && Settled(s, name) && Leaves(moves, name)
    ensures
      var t := Run(s, moves);
      && t.registry == s.registry && Effective(t.registry, t.table, name) == Effective(s.registry, s.table, name)
      && Settled(t, name)
    decreases |moves|
  {
    if moves != [] {
      assert forall k :: 0 <= k < |Front(moves)| ==> Front(moves)[k] == moves[k];
      RunStaysSettled(s, Front(moves), name);
      assert Last(moves) == moves[|moves| - 1];
      StepStaysSettled(Run(s, Front(moves)), Last(moves), name);
    }
  }

  /** A call number not in use. */
  lemma {:induction false} UnusedCall(calls: set<nat>) returns (n: nat)
    ensures n !in calls
    ensures forall c :: c in calls ==> c < n
  {
    if calls == {} {
      n := 0;
    } else {
      var c :| c in calls;
      var m := UnusedCall(calls - {c});
      n := if m <= c then c + 1 else m;
      assert forall d :: d in calls ==> d == c || d in calls - {c};
    }
  }

  /** A state answers the new value for good exactly when neither an unexpired entry nor a
      call that has already read holds another one. */
  lemma NeverStaleIffSettled(s: System, name: string)
    requires name in s.registry
    ensures NeverStale(s, name) <==> Settled(s, name)
  {
    if Settled(s, name) {
      forall moves: seq<Move>, m: Move | Leaves(moves, name)
        ensures
          var outcome := Step(Run(s, moves), m).1;
          outcome.Answer? && outcome.name == name ==> outcome.value == Effective(s.registry, s.table, name)
      {
        RunStaysSettled(s, moves, name);
      }
    } else {
      assert Run(s, []) == s && Leaves([], name);
      if name in s.cache && s.cache[name].expiry > s.clock
         && s.cache[name].value != Effective(s.registry, s.table, name) {
        var call := UnusedCall(s.calls.Keys);
        assert Step(Run(s, []), Begin(call, name)).1 == Answer(name, s.cache[name].value, s.clock);
      } else {
        var c :| c in s.calls && s.calls[c].name == name && s.calls[c].read.Some?
                 && s.calls[c].read.value != Effective(s.registry, s.table, name);
        assert Step(Run(s, []), Finish(c)).1 == Answer(name, s.calls[c].read.value, s.calls[c].began);
      }
    }
  }

  /** Once the notification of a flip is handled, no later call gives the older value,
      exactly when no call in flight has already read it. */
  lemma NotificationSettles(s: System, name: string)
    requires name in s.registry && name != ""
    requires s.notices != [] && s.notices[0] == name
    ensures
      var t := Step(s, Deliver).0;
      && t.registry == s.registry
      && (NeverStale(t, name) <==>
            forall c :: c in s.calls && s.calls[c].name == name && s.calls[c].read.Some? ==>
              s.calls[c].read.value == Effective(s.registry, s.table, name))
  {
    NeverStaleIffSettled(Step(s, Deliver).0, name);
  }

  /** A call that read before the flip and finishes after the notification puts the older
      value back, and calls that begin later are answered with it. */
  lemma OlderValueReturns(s: System, c: nat, later: nat, name: string)
    requires name in s.registry && name != "" && s.notices != [] && s.notices[0] == name
    requires c in s.calls && s.calls[c].name == name && s.calls[c].read.Some?
    requires s.calls[c].read.value != Effective(s.registry, s.table, name)
    requires later !in s.calls && s.clock < s.calls[c].began + CACHE_TTL
    ensures
      var t := Run(s, [Deliver, Finish(c)]);
      Step(t, Begin(later, name)).1 == Answer(name, s.calls[c].read.value, s.clock)
  {
    var two := [Deliver, Finish(c)];
    assert Front(two) == [Deliver] && Front([Deliver]) == [];
    assert Run(s, [Deliver]) == Step(s, Deliver).0;
    assert Run(s, two) == Step(Run(s, [Deliver]), Finish(c)).0;
  }

  /** Without any notification the older value is gone once a full minute has passed since
      every stale entry was made and no stale call is in flight. */
  lemma TimeSettles(s: System, elapsed: nat, name: string)
    requires name in s.registry
    requires name in s.cache ==> s.cache[name].expiry <= s.clock + elapsed
    requires forall c :: c in s.calls && s.calls[c].name == name ==> s.calls[c].read.None?
    ensures NeverStale(Step(s, Tick(elapsed)).0, name)
  {
    NeverStaleIffSettled(Step(s, Tick(elapsed)).0, name);
  }

  // ---------- calls ----------

  /** Whatever happens, a call keeps its name, its clock reading and, once it has read, its value,
      until it ends; and no move but its own read gives it one. */
  lemma CallsReadOnce(s: System, m: Move, c: nat)
    requires c in s.calls
    ensures
      var t := Step(s, m).0;
      if m == Finish(c) && s.calls[c].read.Some? then c !in t.calls
      else
        && c in t.calls && t.calls[c].name == s.calls[c].name && t.calls[c].began == s.calls[c].began
        && (s.calls[c].read.Some? || m != Read(c) ==> t.calls[c].read == s.calls[c].read)
  {
  }

  /** In every run a flag is an error exactly when it was not declared at the start. */
  lemma UndeclaredIsAnError(s: System, moves: seq<Move>, name: string, call: nat)
    requires call !in Run(s, moves).calls
    ensures Step(Run(s, moves), Begin(call, name)).1 == UnknownFlag <==> name !in s.registry
  {
    hide Run;
    TableIsItsWrites(s, moves, name);
  }

  // ---------- notifications ----------

  function Delivers(n: nat): seq<Move>
  {
    if n == 0 then [] else Delivers(n - 1) + [Deliver]
  }

  /** Handling n notifications drops the flags they name, and keeps the rest on their way. */
  lemma {:induction false} DeliversDrop(s: System, n: nat)
    requires n <= |s.notices|
    ensures
      var t := Run(s, Delivers(n));
      && t.notices == s.notices[n..] && t.cache.Keys <= s.cache.Keys
      && forall k :: 0 <= k < n && s.notices[k] != "" ==> s.notices[k] !in t.cache
  {
    if n > 0 {
      DeliversDrop(s, n - 1);
      assert Front(Delivers(n)) == Delivers(n - 1);
    } else {
      assert s.notices[0..] == s.notices;
    }
  }

  /** A write made while the listener is connected reaches it behind the notifications on their way,
      and drops the flag from the cache. */
  lemma WritesAreNotified(s: System, name: string, row: Option<bool>)
    requires s.listening && name != ""
    ensures name !in Run(Step(s, Write(name, row)).0, Delivers(|s.notices| + 1)).cache
  {
    var t := Step(s, Write(name, row)).0;
    assert t.notices[|s.notices|] == name;
    DeliversDrop(t, |s.notices| + 1);
  }

  /** What was on its way when the connection was lost, or is written while it is, is never
      notified. */
  lemma LostWithTheListener(s: System, name: string, row: Option<bool>)
    ensures
      var t := Step(Step(Step(s, Disconnect).0, Write(name, row)).0, Connect).0;
      t.listening && Step(t, Deliver).0 == t && t.cache == s.cache
  {
  }

  // ---------- what a read finds ----------

  /** The row of a flag. */
  function RowOf(table: map<string, bool>, name: string): Option<bool>
  {
    if name in table then Some(table[name]) else None
  }

  /** The row of a flag after these moves: what the last write of it left, or the row before. */
  function LastWritten(table: map<string, bool>, moves: seq<Move>, name: string): Option<bool>
  {
    if moves == [] then RowOf(table, name)
    else if Last(moves).Write? && Last(moves).name == name then Last(moves).row
    else LastWritten(table, Front(moves), name)
  }

  lemma StepWrites(s: System, m: Move, name: string)
    ensures
      var t := Step(s, m).0;
      t.registry == s.registry
      && RowOf(t.table, name) == if m.Write? && m.name == name then m.row else RowOf(s.table, name)
  {
  }

  lemma {:induction false} TableIsItsWrites(s: System, moves: seq<Move>, name: string)
    ensures
      var t := Run(s, moves);
      t.registry == s.registry && RowOf(t.table, name) == LastWritten(s.table, moves, name)
    decreases |moves|
  {
    if moves != [] {
      hide Step, RowOf;
      TableIsItsWrites(s, Front(moves), name);
      StepWrites(Run(s, Front(moves)), Last(moves), name);
    }
  }

  /** A call that misses the cache, up to its read. */
  lemma MissReads(t: System, name: string, call: nat)
    requires name in t.registry && call !in t.calls && (name in t.cache ==> t.cache[name].expiry <= t.clock)
    ensures
      var row := RowOf(t.table, name);
      var value := if row.Some? then row.value else t.registry[name];
      Step(Step(t, Begin(call, name)).0, Read(call)).0
      == t.(calls := t.calls[call := Call(name, t.clock, Some(value))])
  {
    var begun := Step(t, Begin(call, name)).0;
    assert begun == t.(calls := t.calls[call := Call(name, t.clock, None)]);
    var value := Effective(t.registry, t.table, name);
    assert begun.calls[call := Call(name, t.clock, Some(value))] == t.calls[call := Call(name, t.clock, Some(value))];
  }

  /** ... and from its read to its answer, and to the next call. */
  lemma ReadAnswers(read: System, name: string, value: bool, call: nat, later: nat, elapsed: nat)
    requires name in read.registry && call in read.calls && later != call && later !in read.calls
    requires read.calls[call] == Call(name, read.clock, Some(value))
    ensures
      var (after, outcome) := Step(read, Finish(call));
      && outcome == Answer(name, value, read.clock)
      && (elapsed < 60_000_000 ==>
            Step(Step(after, Tick(elapsed)).0, Begin(later, name)).1 == Answer(name, value, read.clock + elapsed))
      && (elapsed >= 60_000_000 ==> Step(Step(after, Tick(elapsed)).0, Begin(later, name)).1 == Silent)
  {
    var after := Step(read, Finish(call)).0;
    assert name in after.cache && after.cache[name] == CacheEntry(value, read.clock + 60_000_000);
  }

  /** After any moves, a call that misses the cache and is not disturbed answers what was last
      written, or the declared default when the row is gone or was never there; and it is from
      the cache that the flag is answered from then on, for a minute. */
  lemma MissedCallsAnswerTheTable(s: System, moves: seq<Move>, name: string, call: nat, later: nat, elapsed: nat)
    requires name in s.registry && call != later
    requires call !in Run(s, moves).calls && later !in Run(s, moves).calls
    requires
      var t := Run(s, moves);
      name in t.cache ==> t.cache[name].expiry <= t.clock
    ensures
      var t, row := Run(s, moves), LastWritten(s.table, moves, name);
      var value := if row.Some? then row.value else s.registry[name];
      var read := Step(Step(t, Begin(call, name)).0, Read(call)).0;
      var (after, outcome) := Step(read, Finish(call));
      && outcome == Answer(name, value, t.clock)
      && (elapsed < 60_000_000 ==>
            Step(Step(after, Tick(elapsed)).0, Begin(later, name)).1 == Answer(name, value, t.clock + elapsed))
      && (elapsed >= 60_000_000 ==> Step(Step(after, Tick(elapsed)).0, Begin(later, name)).1 == Silent)
  {
    hide Step, Run, RowOf;
    var t, row := Run(s, moves), LastWritten(s.table, moves, name);
    TableIsItsWrites(s, moves, name);
    MissReads(t, name, call);
    ReadAnswers(Step(Step(t, Begin(call, name)).0, Read(call)).0, name,
                if row.Some? then row.value else s.registry[name], call, later, elapsed);
  }

  lemma RunSnoc(s: System, moves: seq<Move>, m: Move)
    ensures Run(s, moves + [m]) == Step(Run(s, moves), m).0
  {
    assert Front(moves + [m]) == moves;
  }

  lemma RunOfThree(s: System, a: Move, b: Move, x: Move)
    ensures Run(s, [a, b, x]) == Step(Step(Step(s, a).0, b).0, x).0
  {
    RunSnoc(s, [], a);
    RunSnoc(s, [a], b);
    RunSnoc(s, [a, b], x);
    assert [] + [a] == [a] && [a] + [b] == [a, b] && [a, b] + [x] == [a, b, x];
  }

  lemma {:induction false} RunAppend(s: System, a: seq<Move>, b: seq<Move>)
    ensures Run(s, a + b) == Run(Run(s, a), b)
    decreases |b|
  {
    if b == [] {
      assert a + b == a;
    } else {
      assert Front(a + b) == a + Front(b);
      RunAppend(s, a, Front(b));
    }
  }

  // A call reads the flag, the flag is flipped and the notification handled, the call ends.

  const LISTENING := System(map["f" := false], map["f" := false], 0, map[], map[], true, [])
  const READING := LISTENING.(calls := map[0 := Call("f", 0, None)])
  const HOLDING := LISTENING.(calls := map[0 := Call("f", 0, Some(false))])
  const FLIPPED := HOLDING.(table := map["f" := true], notices := ["f"])
  const NOTIFIED := HOLDING.(table := map["f" := true])
  const STALE := LISTENING.(table := map["f" := true], cache := map["f" := CacheEntry(false, CACHE_TTL)])

  const BEFORE: seq<Move> := [Connect, Begin(0, "f"), Read(0)]
  const AFTER: seq<Move> := [Write("f", Some(true)), Deliver, Finish(0)]

  lemma CallReads()
    ensures Run(Start(map["f" := false], map["f" := false], 0), BEFORE) == HOLDING
  {
    var s := Start(map["f" := false], map["f" := false], 0);
    RunOfThree(s, Connect, Begin(0, "f"), Read(0));
    assert Step(s, Connect).0 == LISTENING;
    assert Step(LISTENING, Begin(0, "f")).0 == READING;
    assert Step(READING, Read(0)).0.calls == HOLDING.calls;
  }

  lemma CallEnds()
    ensures Run(HOLDING, AFTER) == STALE
  {
    RunOfThree(HOLDING, Write("f", Some(true)), Deliver, Finish(0));
    assert Step(HOLDING, Write("f", Some(true))).0.table == FLIPPED.table;
    assert Step(FLIPPED, Deliver).0.cache == map[] && FLIPPED.notices[1..] == [];
    assert Step(NOTIFIED, Finish(0)).0.cache == STALE.cache && Step(NOTIFIED, Finish(0)).0.calls == map[];
  }

  lemma StaleAnswersFalse()
    ensures Step(STALE, Begin(1, "f")).1 == Answer("f", false, 0)
    ensures STALE.listening && STALE.notices == [] && STALE.table == map["f" := true]
  {
  }

  /** A run from the start, the listener connected throughout: after the flip to true has been
      notified and the notification handled, a new call is still answered false. */
  lemma OlderValueAfterNotification()
    ensures
      var s := Run(Start(map["f" := false], map["f" := false], 0), BEFORE + AFTER);
      && s.listening && s.notices == [] && s.table == map["f" := true]
      && Step(s, Begin(1, "f")).1 == Answer("f", false, 0)
  {
    RunAppend(Start(map["f" := false], map["f" := false], 0), BEFORE, AFTER);
    CallReads();
    CallEnds();
    StaleAnswersFalse();
  }
}
