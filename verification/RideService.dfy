/** The lifecycle service: one command's reads, decisions and write in program order, with
    arbitrary steps of other commands between them. */
module RideService {

  import opened Common
  import opened RidePolicy
  import opened RideLifecycle
  import opened RideCommands

  predicate Leaves(event: Event, id: CommandId) {
    match event
    case Begin(other, _, _) => other != id
    case Load(other) => other != id
    case Think(other, _) => other != id
    case Commit(other) => other != id
    case _ => true
  }

  lemma StepLeavesThread(s: State, event: Event, id: CommandId)
    requires Leaves(event, id) && id in s.threads
    ensures id in Step(s, event).threads && Step(s, event).threads[id] == s.threads[id]
  {
  }

  lemma LoadMoves(s: State, id: CommandId)
    requires id in s.threads && (s.threads[id].pc.Started? || s.threads[id].pc.Validated?)
    ensures var after := LoadStep(s, id);
      && id in after.threads && after.threads[id] == s.threads[id].(pc := after.threads[id].pc)
      && var pc := after.threads[id].pc;
        pc == Finished(Err(NotFound)) || if s.threads[id].pc.Started? then pc.Loaded? else pc.Reloaded?
  {
  }

  lemma ThinkMoves(s: State, id: CommandId, located: bool)
    requires id in s.threads && (s.threads[id].pc.Loaded? || s.threads[id].pc.Reloaded?)
    ensures var after := ThinkStep(s, id, located);
      && id in after.threads && after.threads[id] == s.threads[id].(pc := after.threads[id].pc)
      && var pc := after.threads[id].pc;
        pc.Finished? || pc.Ready? || (pc.Validated? && s.threads[id].pc.Loaded?)
  {
  }

  lemma {:induction false} RunThenStep(s: State, events: seq<Event>, event: Event)
    ensures Run(s, events + [event]) == Step(Run(s, events), event)
    decreases |events|
  {
    if events == [] {
      assert [event][1..] == [];
    } else {
      assert (events + [event])[1..] == events[1..] + [event];
      RunThenStep(Step(s, events[0]), events[1..], event);
    }
  }

  /** A command begins, then reads and decides once or twice; a missing ride ends it at the reading. */
  predicate Decided(before: seq<Event>, steps: seq<Event>, id: CommandId, ride: RideId, command: Command, located: bool) {
    var found := before + [Begin(id, ride, command)] + [Load(id), Think(id, located)];
    steps in {before + [Begin(id, ride, command)] + [Load(id)], found, found + [Load(id)], found + [Load(id), Think(id, located)]}
  }

  /** No other command takes a step in between. */
  ghost predicate Undisturbed(others: nat -> seq<Event>) {
    forall i :: others(i) == []
  }

  /** The service's state and the steps taken on it so far. */
  class LifecycleService {
    var state: State
    ghost const initial: State
    ghost var history: seq<Event>

    ghost predicate Valid()
      reads this
    {
      initial == Empty(initial.now, initial.wait) && state == Run(initial, history)
    }

    constructor (now: Instant, wait: nat)
      ensures Valid() && state == Empty(now, wait)
    {
      state := Empty(now, wait);
      initial := Empty(now, wait);
      history := [];
    }

    /** The command's own steps so far. */
    ghost function StepsOf(id: CommandId): seq<Event>
      reads this
    {
      Filter(history, event => !Leaves(event, id))
    }

    method Perform(event: Event)
      requires Valid()
      modifies this
      ensures Valid() && history == old(history) + [event]
      ensures state == Step(old(state), event)
      ensures forall id :: StepsOf(id) == old(StepsOf(id)) + if Leaves(event, id) then [] else [event]
    {
      forall id {
        FilterOne(history, event, other => !Leaves(other, id));
      }
      RunThenStep(initial, history, event);
      state := Step(state, event);
      history := history + [event];
    }

    method Interfere(others: seq<Event>, id: CommandId)
      requires Valid() && id in state.threads
      requires forall event :: event in others ==> Leaves(event, id)
      modifies this
      ensures Valid() && StepsOf(id) == old(StepsOf(id))
      ensures id in state.threads && state.threads[id] == old(state).threads[id]
      ensures others == [] ==> state == old(state)
    {
      for i := 0 to |others|
        invariant Valid() && StepsOf(id) == old(StepsOf(id))
        invariant id in state.threads && state.threads[id] == old(state).threads[id]
        invariant i == 0 ==> state == old(state)
      {
        assert others[i] in others;
        StepLeavesThread(state, others[i], id);
        Perform(others[i]);
      }
    }

    /** Reads the ride and decides; `round` tells the first reading from the second. */
    method LoadAndThink(id: CommandId, located: bool, others: nat -> seq<Event>, round: nat)
      requires Valid() && id in state.threads
      requires state.threads[id].pc == Started || state.threads[id].pc.Validated?
      requires forall i, event :: event in others(i) ==> Leaves(event, id)
      modifies this
      ensures Valid()
      ensures id in state.threads && state.threads[id].command == old(state).threads[id].command
      ensures StepsOf(id) == old(StepsOf(id)) + [Load(id), Think(id, located)]
              || (StepsOf(id) == old(StepsOf(id)) + [Load(id)] && state.threads[id].pc == Finished(Err(NotFound)))
      ensures state.threads[id].ride == old(state).threads[id].ride
      ensures var pc := state.threads[id].pc;
        pc.Finished? || pc.Ready? || (pc.Validated? && old(state).threads[id].pc == Started)
      ensures others(round) == others(round + 1) == [] ==> state == Consider(old(state), id, located)
    {
      Interfere(others(round), id);
      LoadMoves(state, id);
      Perform(Load(id));
      if !state.threads[id].pc.Finished? {
        Interfere(others(round + 1), id);
        ThinkMoves(state, id, located);
        Perform(Think(id, located));
      }
    }

    /** Everything before the write. */
    method Prepare(id: CommandId, ride: RideId, command: Command, located: bool, others: nat -> seq<Event>)
      requires Valid() && id !in state.threads
      requires forall i, event :: event in others(i) ==> Leaves(event, id)
      modifies this
      ensures Valid() && Decided(old(StepsOf(id)), StepsOf(id), id, ride, command, located)
      ensures id in state.threads && state.threads[id] == Thread(ride, command, state.threads[id].pc)
      ensures state.threads[id].pc.Finished? || state.threads[id].pc.Ready?
      ensures Undisturbed(others) ==> state == Consider(Consider(Step(old(state), Begin(id, ride, command)), id, located), id, located)
    {
      Perform(Begin(id, ride, command));
      LoadAndThink(id, located, others, 0);
      if state.threads[id].pc.Validated? {
        LoadAndThink(id, located, others, 2);
      }
    }

    /** The command's own steps come in program order, with at most one write, the last one. */
    method Execute(id: CommandId, ride: RideId, command: Command, located: bool, others: nat -> seq<Event>)
      returns (result: Result<Row, Failure>, ghost steps: seq<Event>)
      requires Valid() && id !in state.threads
      requires forall i, event :: event in others(i) ==> Leaves(event, id)
      modifies this
      ensures Valid() && Decided(old(StepsOf(id)), steps, id, ride, command, located)
      ensures StepsOf(id) == steps || StepsOf(id) == steps + [Commit(id)]
      ensures id in state.threads && state.threads[id] == Thread(ride, command, Finished(result))
      ensures ride in state.rows ==> FairlyAttributed(state.rows[ride], initial.wait) && state.rows[ride].writes <= 4
      ensures Undisturbed(others) && ride !in old(state).rows ==> result == Err(NotFound) && state.rows == old(state).rows
      ensures Undisturbed(others) && ride in old(state).rows ==>
        var row := old(state).rows[ride];
        var effect := EffectOf(row, command, old(state).now, located, old(state).wait);
        result == Answer(row, effect) && state.rows == old(state).rows[ride := RowAfter(row, effect)]
    {
      ghost var before := state;
      RunKeepsInv(initial, history);
      Prepare(id, ride, command, located, others);
      steps := StepsOf(id);
      if state.threads[id].pc.Ready? {
        Interfere(others(4), id);
        Perform(Commit(id));
      }
      result := state.threads[id].pc.result;
      if Undisturbed(others) {
        AloneInSteps(before, id, ride, command, located);
        if ride in before.rows {
          AloneHasItsEffect(before, id, ride, command, located);
        } else {
          AloneOnNothing(before, id, ride, command, located);
        }
      }
      PolicySurvivesInterleaving(initial.now, initial.wait, history, ride, id);
    }
  }
}
