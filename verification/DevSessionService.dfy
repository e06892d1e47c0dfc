/** The service object as the program runs it: mutable working state, a queue drained in a
    loop, persistence step by step. Each method is proved to do what DevSession says. */
module DevSessionService {
  import opened Common
  import opened InterviewPlan
  import opened StateMachine
  import opened ModelCall
  import opened DevSession

  datatype Ending = Done | ErrorEscaped | ValveTripped | MachineRaised

  /** The effect of the commands still to run, after events already produced. */
  function Resumed(events: seq<Event>, rest: Effect): Effect
  {
    if rest.escaped then rest else rest.(events := events + rest.events)
  }

  function EndingOf(d: Driven): Ending
    requires !d.Missing?
  {
    match d
    case Settled(_, _, _) => Done
    case Crashed(_) => ErrorEscaped
    case Runaway => ValveTripped
    case Refused => MachineRaised
  }

  class Service {
    const shell: Shell
    const client: ModelClient
    var state: SessionState
    var transcript: seq<Entry>
    var stored: Option<Row>
    var tasks: seq<Task>
    var decisions: seq<Decision>
    var ticks: nat

    function View(): World
      reads this, client
    {
      World(state, transcript, stored, tasks, decisions, client.View(), ticks)
    }

    constructor (shell: Shell, sessionId: nat, plan: RawPlan)
      ensures this.shell == shell && fresh(client)
      ensures View() == Fresh(shell, sessionId, plan)
    {
      this.shell := shell;
      client := new ModelClient();
      state := InitialState(sessionId, plan, shell.config);
      transcript, stored, tasks, decisions, ticks := [], None, [], [], 0;
    }

    method Persist()
      modifies this`stored
      ensures View() == Persisted(old(View()))
    {
      stored := Some(Row(state, transcript));
    }

    method Append(role: Role, text: string, turn: TurnId)
      modifies this`transcript
      ensures View() == Appended(old(View()), role, text, turn)
    {
      transcript := transcript + [Entry(role, text, turn)];
    }

    method ReadClock() returns (now: Time)
      modifies this`ticks
      ensures now == Now(shell, old(View())) && View() == Ticked(old(View()))
    {
      now := shell.clock(ticks);
      ticks := ticks + 1;
    }

    method RunInterviewerTurn(out: Outbound) returns (events: seq<Event>, escaped: bool)
      requires out.RunInterviewer?
      modifies this`ticks, client
      ensures Effect(View(), events, escaped) == RunInterviewerCommand(shell, old(View()), out)
    {
      var breached := TraceTotal(client.log) >= shell.ceiling && shell.enforced(ticks);
      var now := ReadClock();
      if breached {
        return [OperatorAbort(CostCeiling, now)], false;
      }
      var payload := InterviewerPayload(state.plan, transcript, out.move, out.node, out.context);
      var result := client.RunInterviewerTurn(shell.env, shell.settings, out.turnId, payload);
      if result.Oversized? {
        return [], true;
      }
      events, escaped := [InterviewerEvent(out.turnId, result, now)], false;
    }

    method EmitOutbound(out: Outbound) returns (events: seq<Event>, escaped: bool)
      modifies this`ticks, this`transcript, client
      ensures Effect(View(), events, escaped) == Emit(shell, old(View()), out)
    {
      events, escaped := [], false;
      match out {
        case EmitScriptedOpening(turn) =>
          Append(SystemRole, shell.opening(state.plan), turn);
        case EmitScriptedClosing(turn) =>
          Append(SystemRole, shell.closing(state.plan), turn);
          var now := ReadClock();
          events := [TimerTick(now)];
        case DeliverUtterance(turn, utterance) =>
          Append(InterviewerRole, utterance, turn);
        case RunInterviewer(_, _, _, _, _) =>
          events, escaped := RunInterviewerTurn(out);
      }
    }

    method ExecuteCommand(command: Command) returns (events: seq<Event>, escaped: bool)
      modifies this`ticks, this`transcript, this`tasks, this`decisions, client
      ensures Effect(View(), events, escaped) == ExecuteOne(shell, old(View()), command)
    {
      events, escaped := [], false;
      match command {
        case Send(out) => events, escaped := EmitOutbound(out);
        case Reissue(out) => events, escaped := EmitOutbound(out);
        case RunAssessor(turn, focus) =>
          tasks := tasks + [Task(turn, focus, InputsFrom(transcript), false)];
        case RecordDecision(reason) =>
          decisions := decisions + [Decision(reason, state.abortReason)];
        case _ =>
      }
    }

    method ExecuteCommands(commands: seq<Command>) returns (events: seq<Event>, escaped: bool)
      modifies this`ticks, this`transcript, this`tasks, this`decisions, client
      ensures Effect(View(), events, escaped) == ExecuteAll(shell, old(View()), commands)
    {
      events, escaped := [], false;
      assert commands[0..] == commands;
      assert forall rest: seq<Event> :: events + rest == rest;
      for k := 0 to |commands|
        invariant !escaped
        invariant Resumed(events, ExecuteAll(shell, View(), commands[k..])) == ExecuteAll(shell, old(View()), commands)
      {
        assert commands[k..][0] == commands[k] && commands[k..][1..] == commands[k + 1..];
        ghost var before := View();
        var more, failed := ExecuteCommand(commands[k]);
        if failed {
          return [], true;
        }
        ghost var rest := ExecuteAll(shell, View(), commands[k + 1..]).events;
        assert events + (more + rest) == events + more + rest;
        events := events + more;
      }
      assert events + [] == events;
    }

    /** One turn of the loop: transition, persist, execute, persist what was said. */
    method HandleEvent(event: Event) returns (raised: bool, events: seq<Event>, escaped: bool)
      modifies this, client
      ensures raised == Transition(old(state), event, shell.config).Raised?
      ensures raised ==> View() == old(View())
      ensures
        var step := Transition(old(state), event, shell.config);
        !raised ==> Effect(View(), events, escaped) == Handled(shell, old(View()), step.state, step.commands)
    {
      var result := Transition(state, event, shell.config);
      if result.Raised? {
        return true, [], false;
      }
      raised, state := false, result.state;
      Persist();
      var mark := transcript;
      events, escaped := ExecuteCommands(result.commands);
      if !escaped && transcript != mark {
        Persist();
      }
    }

    /** The worklist loop; `ending` reports how it ended. */
    method DriveEvents(event: Event) returns (ghost driven: Driven, ending: Ending)
      modifies this, client
      ensures driven == Drive(shell, old(View()), [event], 0, 1)
      ensures !driven.Missing? && ending == EndingOf(driven)
      ensures driven.Settled? || driven.Crashed? ==> View() == driven.world
    {
      driven := Drive(shell, View(), [event], 0, 1);
      ending := Drain(event, 0, 1);
    }

    method Drain(event: Event, start: nat, ghost wide: nat) returns (ending: Ending)
      requires start <= MAX_DRIVE_STEPS
      modifies this, client
      ensures
        var driven := Drive(shell, old(View()), [event], start, wide);
        && !driven.Missing? && ending == EndingOf(driven)
        && (driven.Settled? || driven.Crashed? ==> View() == driven.world)
    {
      var queue, steps := [event], start;
      ghost var widest, goal := wide, Drive(shell, View(), queue, steps, wide);
      while queue != []
        invariant steps <= MAX_DRIVE_STEPS
        invariant goal == Drive(shell, View(), queue, steps, widest)
        decreases MAX_DRIVE_STEPS - steps
      {
        if steps + 1 > MAX_DRIVE_STEPS {
          return ValveTripped;
        }
        steps := steps + 1;
        var current := queue[0];
        var raised, followUps, escaped := HandleEvent(current);
        if raised {
          return MachineRaised;
        }
        if escaped {
          return ErrorEscaped;
        }
        queue := queue[1..] + followUps;
        widest := Wider(widest, |queue|);
      }
      ending := Done;
    }

    /** create_session on a fresh service; `refused` stands for DevSessionPlanInvalid. */
    method Start() returns (ghost driven: Driven, ending: Ending, refused: bool)
      requires exists id, plan :: View() == Fresh(shell, id, plan)
      modifies this, client
      ensures forall id, plan :: old(View()) == Fresh(shell, id, plan) ==> driven == Create(shell, id, plan)
      ensures !driven.Missing? && ending == EndingOf(driven)
      ensures driven.Settled? || driven.Crashed? ==> View() == driven.world
      ensures refused == (driven.Settled? && PlanRefused(driven.world))
    {
      Persist();
      var now := ReadClock();
      driven, ending := DriveEvents(SessionStarted(now));
      refused := ending == Done && state.phase == Aborted && state.plan.None?;
    }

    method Load() returns (found: bool)
      modifies this`state, this`transcript
      ensures found == old(stored).Some?
      ensures View() == if found then Loaded(old(View())) else old(View())
    {
      found := stored.Some?;
      if found {
        state, transcript := stored.value.state, stored.value.transcript;
      }
    }

    method Post(text: string) returns (accepted: bool, utterance: Option<string>, ghost posted: Posted)
      modifies this, client
      ensures posted == PostTurn(shell, old(View()), text)
      ensures accepted == posted.Replied?
      ensures posted.NotAwaiting? ==> View() == posted.world
      ensures posted.Replied? ==> View() == posted.world && utterance == posted.utterance
      ensures posted.Broken? && posted.driven.Crashed? ==> View() == posted.driven.world
    {
      posted := PostTurn(shell, View(), text);
      var found := Load();
      if !found || !AwaitsCandidate(state) {
        return false, None, posted;
      }
      var turn := CandidateTurn(state.info.id, CandidateEntries(transcript));
      Append(CandidateRole, text, turn);
      var before := |transcript|;
      var now := ReadClock();
      ghost var driven;
      var ending;
      driven, ending := DriveEvents(CandidateTurnReceived(turn, text, now));
      if ending != Done {
        return false, None, posted;
      }
      accepted, utterance := true, HeardSince(transcript, before);
    }

    method RunAssessor(task: Task) returns (events: seq<Event>, escaped: bool)
      modifies this`ticks, client
      ensures Effect(View(), events, escaped) == RunAssessorCall(shell, old(View()), task)
    {
      var breached := TraceTotal(client.log) >= shell.ceiling && shell.enforced(ticks);
      var now := ReadClock();
      if breached {
        return [OperatorAbort(CostCeiling, now)], false;
      }
      var payload := AssessorPayload(task.focus, task.inputs);
      var result :=
        client.RunAssessorTurn(shell.env, shell.settings, task.turnId, state.info.id, task.focus, payload);
      if result.Oversized? {
        return [], true;
      }
      events, escaped := [AssessorEvent(task.turnId, result, now)], false;
    }

    /** The k-th scheduled task, when the scheduler gets to it. */
    method RunScheduled(k: nat) returns (ghost driven: Driven)
      requires k < |tasks|
      modifies this, client
      ensures driven == RunTask(shell, old(View()), k)
      ensures driven.Settled? || driven.Crashed? ==> View() == driven.world
    {
      var task := tasks[k];
      if task.done {
        return RunTask(shell, View(), k);
      }
      driven := RunTask(shell, View(), k);
      tasks := tasks[k := task.(done := true)];
      var events, escaped := RunAssessor(task);
      if escaped {
        return;
      }
      var found := Load();
      if !found {
        return;
      }
      var ending;
      driven, ending := DriveEvents(events[0]);
    }
  }
}
