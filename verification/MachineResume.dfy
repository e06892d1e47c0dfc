/** Resuming is idempotent: Reconnected events, however many and wherever they fall,
    change neither the state nor the commands, reissues and advisory persists aside. */
module MachineResume {
  import opened Common
  import opened StateMachine

  predicate IsNotReconnect(e: Event) { !e.Reconnected? }

  /** Neither a reissue nor the advisory PersistState marker. */
  predicate IsLasting(x: Command) { !x.Reissue? && !x.PersistState? }

  ghost predicate SameUpToReissues(p: Step, q: Step)
  {
    if p.Raised? then q.Raised?
    else q.Stepped? && q.state == p.state && Filter(q.commands, IsLasting) == Filter(p.commands, IsLasting)
  }

  lemma ReconnectLasting(s: SessionState, e: Event, c: Config)
    requires e.Reconnected?
    ensures Transition(s, e, c).Stepped? && Transition(s, e, c).state == s
    ensures Filter(Transition(s, e, c).commands, IsLasting) == []
  {
    assert Filter<Command>([], IsLasting) == [];
    assert Filter([PersistState], IsLasting) == [] by {
      assert Front([PersistState]) == [];
    }
    if s.turn.pending.Some? {
      var reissue := Reissue(s.turn.pending.value);
      assert Front([reissue, PersistState]) == [reissue] && Front([reissue]) == [];
    }
  }

  lemma ReconnectThen(p: Step, q: Step, e: Event, c: Config)
    requires SameUpToReissues(p, q) && e.Reconnected?
    ensures SameUpToReissues(Then(p, e, c), q)
  {
    if p.Stepped? {
      ReconnectLasting(p.state, e, c);
      FilterAppend(p.commands, Transition(p.state, e, c).commands, IsLasting);
    }
  }

  lemma SameThen(p: Step, q: Step, e: Event, c: Config)
    requires SameUpToReissues(p, q)
    ensures SameUpToReissues(Then(p, e, c), Then(q, e, c))
  {
    if p.Stepped? && Transition(p.state, e, c).Stepped? {
      FilterAppend(p.commands, Transition(p.state, e, c).commands, IsLasting);
      FilterAppend(q.commands, Transition(p.state, e, c).commands, IsLasting);
    }
  }

  lemma {:induction false} ReconnectsAreInvisible(s: SessionState, es: seq<Event>, c: Config)
    ensures SameUpToReissues(Execute(s, es, c), Execute(s, Filter(es, IsNotReconnect), c))
    decreases |es|
  {
    if es != [] {
      ReconnectsAreInvisible(s, Front(es), c);
      var kept := Filter(Front(es), IsNotReconnect);
      if Last(es).Reconnected? {
        assert Filter(es, IsNotReconnect) == kept;
        ReconnectThen(Execute(s, Front(es), c), Execute(s, kept, c), Last(es), c);
      } else {
        assert Front(Filter(es, IsNotReconnect)) == kept;
        SameThen(Execute(s, Front(es), c), Execute(s, kept, c), Last(es), c);
      }
    }
  }

  /** Two event sequences that agree once reconnects are dropped end in the same state
      with the same lasting commands in the same order. */
  lemma ResumesAreIdempotent(s: SessionState, es: seq<Event>, fs: seq<Event>, c: Config)
    requires Filter(es, IsNotReconnect) == Filter(fs, IsNotReconnect)
    ensures SameUpToReissues(Execute(s, es, c), Execute(s, fs, c))
  {
    ReconnectsAreInvisible(s, es, c);
    ReconnectsAreInvisible(s, fs, c);
  }
}
