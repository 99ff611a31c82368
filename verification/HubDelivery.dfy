/** One subscription with a concurrent consumer: any number of Publish calls serialise on the
    eviction mutex, while receives and a close may happen between any two of their steps. */
module HubDelivery {

  import opened Common
  import opened Hub

  type CallId = nat

  datatype Phase =
    | Arrived                                    // about to lock the eviction mutex
    | Trying                                     // holds it
    | Draining(drained: seq<CallId>)
    | Refilling(rest: seq<CallId>, accepted: bool)
    | Settled(verdict: bool)                     // deliver has returned
    | Finished(kept: bool)                       // Publish has closed the subscription if deliver refused

  datatype Call = Call(envelope: Envelope, phase: Phase)

  type Calls = map<CallId, Call>

  /** Queued events are named by the call that handed them over. `handed`, `dropped` and
      `refused` remember what became of each call's event; `panicked` a send on, or a second
      close of, the closed channel. */
  datatype State = State(
    queue: seq<CallId>,
    received: seq<CallId>,
    calls: Calls,
    holder: Option<CallId>,
    once: bool,
    closing: bool,
    closed: bool,
    closes: nat,
    panicked: bool,
    handed: set<CallId>,
    dropped: set<CallId>,
    refused: set<CallId>)

  datatype Event =
    | Publish(call: CallId, envelope: Envelope)
    | Advance(call: CallId)
    | Receive
    | RequestClose
    | CloseChannel

  const Fresh := State([], [], map[], None, false, false, false, 0, false, {}, {}, {})

  predicate Known(ids: seq<CallId>, calls: Calls) {
    forall i :: 0 <= i < |ids| ==> ids[i] in calls
  }

  function Envelopes(ids: seq<CallId>, calls: Calls): (envelopes: seq<Envelope>)
    requires Known(ids, calls)
    ensures |envelopes| == |ids| && forall i :: 0 <= i < |ids| ==> envelopes[i] == calls[ids[i]].envelope
  {
    seq(|ids|, i requires 0 <= i < |ids| => calls[ids[i]].envelope)
  }

  function WithPhase(calls: Calls, call: CallId, phase: Phase): Calls
    requires call in calls
  {
    calls[call := calls[call].(phase := phase)]
  }

  function Release(s: State, call: CallId, accepted: bool): State
    requires call in s.calls
  {
    s.(holder := None, calls := WithPhase(s.calls, call, Settled(accepted)))
  }

  function TryStep(s: State, call: CallId): State
    requires call in s.calls
  {
    if s.closed then Release(s, call, true)
    else
      var taken := s.(handed := s.handed + {call});
      if |s.queue| < QUEUE_SIZE then Release(taken, call, true).(queue := s.queue + [call])
      else taken.(calls := WithPhase(s.calls, call, Draining([])))
  }

  /** What to put back once the drain loop has found the queue empty. */
  function ChooseStep(s: State, call: CallId, drained: seq<CallId>): State
    requires call in s.calls && Known(drained, s.calls)
  {
    var index := FirstDroppable(Envelopes(drained, s.calls));
    if index < |drained| then
      s.(calls := WithPhase(s.calls, call, Refilling(drained[..index] + drained[index + 1..] + [call], true)),
         dropped := s.dropped + {drained[index]})
    else if IsDroppable(s.calls[call].envelope) then
      s.(calls := WithPhase(s.calls, call, Refilling(drained, true)), dropped := s.dropped + {call})
    else
      s.(calls := WithPhase(s.calls, call, Refilling(drained, false)), refused := s.refused + {call})
  }

  function DrainStep(s: State, call: CallId, drained: seq<CallId>): State
    requires call in s.calls && Known(drained, s.calls)
  {
    if s.queue != [] then
      s.(queue := s.queue[1..], calls := WithPhase(s.calls, call, Draining(drained + [s.queue[0]])))
    else if s.closed then Release(s, call, false)
    else ChooseStep(s, call, drained)
  }

  function RefillStep(s: State, call: CallId, rest: seq<CallId>, accepted: bool): State
    requires call in s.calls
  {
    if rest == [] then Release(s, call, accepted)
    else if s.closed then s.(panicked := true)
    else if QUEUE_SIZE <= |s.queue| then s // the send blocks
    else s.(queue := s.queue + [rest[0]], calls := WithPhase(s.calls, call, Refilling(rest[1..], accepted)))
  }

  function Requested(s: State): State {
    if s.once then s else s.(once := true, closing := true)
  }

  /** The next step of one Publish call on this subscription. */
  function AdvanceStep(s: State, call: CallId): State {
    if call !in s.calls then s
    else
      match s.calls[call].phase
      case Arrived => if s.holder.Some? then s else s.(holder := Some(call), calls := WithPhase(s.calls, call, Trying))
      case Trying => TryStep(s, call)
      case Draining(drained) => if Known(drained, s.calls) then DrainStep(s, call, drained) else s
      case Refilling(rest, accepted) => RefillStep(s, call, rest, accepted)
      case Settled(accepted) =>
        (if accepted then s else Requested(s)).(calls := WithPhase(s.calls, call, Finished(accepted)))
      case Finished(_) => s
  }

  function Step(s: State, event: Event): State {
    match event
    case Publish(call, envelope) => if call in s.calls then s else s.(calls := s.calls[call := Call(envelope, Arrived)])
    case Advance(call) => AdvanceStep(s, call)
    case Receive => if s.queue == [] then s else s.(queue := s.queue[1..], received := s.received + [s.queue[0]])
    case RequestClose => Requested(s)
    case CloseChannel =>
      if !s.closing || s.holder.Some? then s
      else s.(closing := false, closed := true, closes := s.closes + 1, panicked := s.panicked || s.closed)
  }

  function Run(s: State, events: seq<Event>): State
    decreases |events|
  {
    if events == [] then s else Run(Step(s, events[0]), events[1..])
  }

  /** The events in the hands of the call that holds the mutex. */
  function Buffer(holder: Option<CallId>, calls: Calls): seq<CallId> {
    if holder.None? || holder.value !in calls then []
    else
      match calls[holder.value].phase
      case Draining(drained) => drained + [holder.value]
      case Refilling(rest, _) => rest
      case _ => []
  }

  /** Room the holder needs to put everything back. */
  function Owed(holder: Option<CallId>, calls: Calls): nat {
    if holder.None? || holder.value !in calls then 0
    else
      match calls[holder.value].phase
      case Draining(drained) => |drained|
      case Refilling(rest, _) => |rest|
      case _ => 0
  }

  predicate Holds(phase: Phase) {
    phase.Trying? || phase.Draining? || phase.Refilling?
  }

  predicate MutexOk(holder: Option<CallId>, calls: Calls, closed: bool) {
    && (holder.Some? ==> holder.value in calls && (closed ==> calls[holder.value].phase.Trying?))
    && (forall call :: call in calls ==> (holder == Some(call) <==> Holds(calls[call].phase)))
  }

  predicate ChannelOk(s: State) {
    && !s.panicked && s.closes == (if s.closed then 1 else 0)
    && (s.once <==> s.closing || s.closed) && !(s.closing && s.closed)
  }

  /** Every event handed over is in exactly one place. */
  predicate Conserved(
    handed: set<CallId>, received: seq<CallId>, queue: seq<CallId>, buffer: seq<CallId>, dropped: set<CallId>, refused: set<CallId>)
  {
    multiset(handed) == multiset(received) + multiset(queue) + multiset(buffer) + multiset(dropped) + multiset(refused)
  }

  predicate FatesOk(calls: Calls, handed: set<CallId>, dropped: set<CallId>, refused: set<CallId>, once: bool) {
    && handed <= calls.Keys
    && (forall call :: call in dropped ==> call in calls && IsDroppable(calls[call].envelope))
    && (forall call :: call in refused ==> call in calls && !IsDroppable(calls[call].envelope))
    && (forall call :: call in calls ==> Unhanded(calls[call].phase) ==> call !in handed)
    && (forall call :: call in calls ==> (call in refused <==> Refuses(calls[call].phase)))
    && (forall call :: call in calls && calls[call].phase == Finished(false) ==> once)
  }

  predicate Unhanded(phase: Phase) {
    phase.Arrived? || phase.Trying?
  }

  predicate Refuses(phase: Phase) {
    phase == Settled(false) || phase == Finished(false) || (phase.Refilling? && !phase.accepted)
  }

  predicate Inv(s: State) {
    && MutexOk(s.holder, s.calls, s.closed) && ChannelOk(s)
    && Conserved(s.handed, s.received, s.queue, Buffer(s.holder, s.calls), s.dropped, s.refused)
    && FatesOk(s.calls, s.handed, s.dropped, s.refused, s.once)
    && |s.queue| + Owed(s.holder, s.calls) <= QUEUE_SIZE
  }

  /** One call moves on; the mutex follows its phase. */
  lemma MutexAfter(holder: Option<CallId>, calls: Calls, closed: bool, call: CallId, phase: Phase)
    requires MutexOk(holder, calls, closed) && call in calls && holder in {None, Some(call)}
    requires closed ==> phase.Trying? || !Holds(phase)
    ensures MutexOk(if Holds(phase) then Some(call) else None, WithPhase(calls, call, phase), closed)
  {
  }

  lemma FatesAfter(
    calls: Calls, handed: set<CallId>, dropped: set<CallId>, refused: set<CallId>, once: bool,
    call: CallId, phase: Phase, handing: set<CallId>, dropping: set<CallId>, onceAfter: bool)
    requires FatesOk(calls, handed, dropped, refused, once) && call in calls
    requires handing <= {call} && (Unhanded(phase) ==> call !in handed + handing)
    requires forall other :: other in dropping ==> other in calls && IsDroppable(calls[other].envelope)
    requires call in refused ==> Refuses(phase)
    requires Refuses(phase) ==> !IsDroppable(calls[call].envelope)
    requires once || phase == Finished(false) ==> onceAfter
    ensures FatesOk(WithPhase(calls, call, phase), handed + handing, dropped + dropping,
                    if Refuses(phase) then refused + {call} else refused, onceAfter)
  {
  }

  /** The holder's buffer consists of events that were handed over, each once. */
  lemma BufferKnown(s: State)
    requires Inv(s)
    ensures forall call :: call in Buffer(s.holder, s.calls) ==> call in s.handed
    ensures Known(Buffer(s.holder, s.calls), s.calls)
  {
    forall call | call in Buffer(s.holder, s.calls)
      ensures call in s.handed
    {
      assert call in multiset(Buffer(s.holder, s.calls));
      assert call in multiset(s.handed);
    }
  }

  lemma LockKeepsInv(s: State, call: CallId)
    requires Inv(s) && call in s.calls && s.calls[call].phase.Arrived?
    ensures Inv(AdvanceStep(s, call))
  {
    if s.holder.None? {
      MutexAfter(s.holder, s.calls, s.closed, call, Trying);
      FatesAfter(s.calls, s.handed, s.dropped, s.refused, s.once, call, Trying, {}, {}, s.once);
      Unchanged(s.handed, s.dropped, s.refused);
    }
  }

  lemma Unchanged(handed: set<CallId>, dropped: set<CallId>, refused: set<CallId>)
    ensures handed + {} == handed && dropped + {} == dropped && refused + {} == refused
  {
  }

  lemma HandingConserves(
    handed: set<CallId>, received: seq<CallId>, queue: seq<CallId>, dropped: set<CallId>, refused: set<CallId>, call: CallId)
    requires Conserved(handed, received, queue, [], dropped, refused) && call !in handed
    ensures Conserved(handed + {call}, received, queue, [call], dropped, refused)
    ensures Conserved(handed + {call}, received, queue + [call], [], dropped, refused)
  {
    assert multiset(handed + {call}) == multiset(handed) + multiset{call};
  }

  lemma TryKeepsInv(s: State, call: CallId)
    requires Inv(s) && call in s.calls && s.calls[call].phase.Trying?
    ensures Inv(AdvanceStep(s, call))
  {
    Unchanged(s.handed, s.dropped, s.refused);
    var phase := if s.closed || |s.queue| < QUEUE_SIZE then Settled(true) else Draining([]);
    MutexAfter(s.holder, s.calls, s.closed, call, phase);
    FatesAfter(s.calls, s.handed, s.dropped, s.refused, s.once, call, phase, if s.closed then {} else {call}, {}, s.once);
    HandingConserves(s.handed, s.received, s.queue, s.dropped, s.refused, call);
    assert [] + [call] == [call];
  }

  /** Taking the oldest queued event into the buffer keeps every event in exactly one place. */
  lemma DrainingConserves(
    handed: set<CallId>, received: seq<CallId>, queue: seq<CallId>, drained: seq<CallId>, call: CallId,
    dropped: set<CallId>, refused: set<CallId>)
    requires Conserved(handed, received, queue, drained + [call], dropped, refused) && queue != []
    ensures Conserved(handed, received, queue[1..], drained + [queue[0]] + [call], dropped, refused)
  {
    assert queue == [queue[0]] + queue[1..];
  }

  /** So does putting one back, and so does receiving one. */
  lemma RefillingConserves(
    handed: set<CallId>, received: seq<CallId>, queue: seq<CallId>, rest: seq<CallId>, dropped: set<CallId>, refused: set<CallId>)
    requires Conserved(handed, received, queue, rest, dropped, refused)
    ensures rest != [] ==> Conserved(handed, received, queue + [rest[0]], rest[1..], dropped, refused)
    ensures queue != [] ==> Conserved(handed, received + [queue[0]], queue[1..], rest, dropped, refused)
  {
    if rest != [] {
      assert rest == [rest[0]] + rest[1..];
    }
    if queue != [] {
      assert queue == [queue[0]] + queue[1..];
    }
  }

  lemma DrainKeepsInv(s: State, call: CallId)
    requires Inv(s) && call in s.calls && s.calls[call].phase.Draining? && s.queue != []
    ensures Inv(AdvanceStep(s, call))
  {
    var drained := s.calls[call].phase.drained;
    var phase := Draining(drained + [s.queue[0]]);
    assert s.holder == Some(call);
    assert Buffer(s.holder, s.calls) == drained + [call];
    BufferKnown(s);
    PrefixKnown(drained, call, s.calls);
    MutexAfter(s.holder, s.calls, s.closed, call, phase);
    FatesAfter(s.calls, s.handed, s.dropped, s.refused, s.once, call, phase, {}, {}, s.once);
    Unchanged(s.handed, s.dropped, s.refused);
    DrainingConserves(s.handed, s.received, s.queue, drained, call, s.dropped, s.refused);
  }

  lemma PrefixKnown(drained: seq<CallId>, call: CallId, calls: Calls)
    requires Known(drained + [call], calls)
    ensures Known(drained, calls)
  {
    forall i | 0 <= i < |drained|
      ensures drained[i] in calls
    {
      assert (drained + [call])[i] == drained[i];
    }
  }

  /** Dropping one buffered event, or refusing it, keeps every event in exactly one place. */
  lemma DroppingConserves(
    handed: set<CallId>, received: seq<CallId>, queue: seq<CallId>, buffer: seq<CallId>, index: nat,
    dropped: set<CallId>, refused: set<CallId>)
    requires Conserved(handed, received, queue, buffer, dropped, refused) && index < |buffer|
    ensures Conserved(handed, received, queue, buffer[..index] + buffer[index + 1..], dropped + {buffer[index]}, refused)
    ensures Conserved(handed, received, queue, buffer[..index] + buffer[index + 1..], dropped, refused + {buffer[index]})
  {
    var gone := buffer[index];
    assert buffer == buffer[..index] + [gone] + buffer[index + 1..];
    assert multiset(buffer)[gone] >= 1;
    assert multiset(handed)[gone] <= 1;
    assert gone !in dropped && gone !in refused;
    assert multiset(dropped + {gone}) == multiset(dropped) + multiset{gone};
    assert multiset(refused + {gone}) == multiset(refused) + multiset{gone};
  }

  lemma DrainedKnown(s: State, call: CallId)
    requires Inv(s) && call in s.calls && s.calls[call].phase.Draining?
    ensures Known(s.calls[call].phase.drained, s.calls)
    ensures Conserved(s.handed, s.received, s.queue, s.calls[call].phase.drained + [call], s.dropped, s.refused)
  {
    assert s.holder == Some(call);
    BufferKnown(s);
    PrefixKnown(s.calls[call].phase.drained, call, s.calls);
  }

  lemma EvictionKeepsInv(s: State, call: CallId, drained: seq<CallId>, index: nat)
    requires Inv(s) && call in s.calls && s.calls[call].phase == Draining(drained) && Known(drained, s.calls)
    requires index < |drained| && IsDroppable(s.calls[drained[index]].envelope)
    ensures Inv(s.(calls := WithPhase(s.calls, call, Refilling(drained[..index] + drained[index + 1..] + [call], true)),
                   dropped := s.dropped + {drained[index]}))
  {
    var buffer := drained + [call];
    DrainedKnown(s, call);
    assert buffer[..index] + buffer[index + 1..] == drained[..index] + drained[index + 1..] + [call];
    DroppingConserves(s.handed, s.received, s.queue, buffer, index, s.dropped, s.refused);
    ChosenKeepsInv(s, call, Refilling(drained[..index] + drained[index + 1..] + [call], true), {drained[index]});
  }

  lemma SparingKeepsInv(s: State, call: CallId, drained: seq<CallId>)
    requires Inv(s) && call in s.calls && s.calls[call].phase == Draining(drained) && Known(drained, s.calls)
    ensures var droppable := IsDroppable(s.calls[call].envelope);
      Inv(s.(calls := WithPhase(s.calls, call, Refilling(drained, droppable)),
             dropped := s.dropped + (if droppable then {call} else {}),
             refused := if droppable then s.refused else s.refused + {call}))
  {
    var buffer := drained + [call];
    var droppable := IsDroppable(s.calls[call].envelope);
    DrainedKnown(s, call);
    assert buffer[..|drained|] + buffer[|drained| + 1..] == drained;
    DroppingConserves(s.handed, s.received, s.queue, buffer, |drained|, s.dropped, s.refused);
    Unchanged(s.handed, s.dropped, s.refused);
    ChosenKeepsInv(s, call, Refilling(drained, droppable), if droppable then {call} else {});
  }

  lemma ChooseKeepsInv(s: State, call: CallId)
    requires Inv(s) && call in s.calls && s.calls[call].phase.Draining? && s.queue == []
    ensures Inv(AdvanceStep(s, call))
  {
    var drained := s.calls[call].phase.drained;
    DrainedKnown(s, call);
    Unchanged(s.handed, s.dropped, s.refused);
    var index := FirstDroppable(Envelopes(drained, s.calls));
    if index < |drained| {
      EvictionKeepsInv(s, call, drained, index);
    } else {
      SparingKeepsInv(s, call, drained);
    }
  }

  lemma ChosenKeepsInv(s: State, call: CallId, phase: Phase, dropping: set<CallId>)
    requires Inv(s) && call in s.calls && s.calls[call].phase.Draining? && phase.Refilling?
    requires |phase.rest| <= |s.calls[call].phase.drained|
    requires forall other :: other in dropping ==> other in s.calls && IsDroppable(s.calls[other].envelope)
    requires phase.accepted || !IsDroppable(s.calls[call].envelope)
    requires Conserved(s.handed, s.received, s.queue, phase.rest, s.dropped + dropping, if phase.accepted then s.refused else s.refused + {call})
    ensures Inv(s.(calls := WithPhase(s.calls, call, phase), dropped := s.dropped + dropping,
                   refused := if phase.accepted then s.refused else s.refused + {call}))
  {
    MutexAfter(s.holder, s.calls, s.closed, call, phase);
    FatesAfter(s.calls, s.handed, s.dropped, s.refused, s.once, call, phase, {}, dropping, s.once);
    Unchanged(s.handed, s.dropped, s.refused);
  }

  lemma RefillKeepsInv(s: State, call: CallId)
    requires Inv(s) && call in s.calls && s.calls[call].phase.Refilling? && s.calls[call].phase.rest != []
    ensures Inv(AdvanceStep(s, call))
  {
    var rest, accepted := s.calls[call].phase.rest, s.calls[call].phase.accepted;
    var phase := Refilling(rest[1..], accepted);
    assert s.holder == Some(call);
    MutexAfter(s.holder, s.calls, s.closed, call, phase);
    FatesAfter(s.calls, s.handed, s.dropped, s.refused, s.once, call, phase, {}, {}, s.once);
    Unchanged(s.handed, s.dropped, s.refused);
    assert accepted || s.refused + {call} == s.refused;
    RefillingConserves(s.handed, s.received, s.queue, rest, s.dropped, s.refused);
  }

  lemma ReturnKeepsInv(s: State, call: CallId)
    requires Inv(s) && call in s.calls && s.calls[call].phase.Refilling? && s.calls[call].phase.rest == []
    ensures Inv(AdvanceStep(s, call))
  {
    var accepted := s.calls[call].phase.accepted;
    MutexAfter(s.holder, s.calls, s.closed, call, Settled(accepted));
    FatesAfter(s.calls, s.handed, s.dropped, s.refused, s.once, call, Settled(accepted), {}, {}, s.once);
    Unchanged(s.handed, s.dropped, s.refused);
    assert accepted || s.refused + {call} == s.refused;
  }

  lemma SettleKeepsInv(s: State, call: CallId)
    requires Inv(s) && call in s.calls && s.calls[call].phase.Settled?
    ensures Inv(AdvanceStep(s, call))
  {
    var verdict := s.calls[call].phase.verdict;
    FatesAfter(s.calls, s.handed, s.dropped, s.refused, s.once, call, Finished(verdict), {}, {}, s.once || !verdict);
    Unchanged(s.handed, s.dropped, s.refused);
    assert verdict || s.refused + {call} == s.refused;
    OthersKeepBuffer(s.holder, s.calls, s.closed, call, Finished(verdict));
  }

  /** A call that does not hold the mutex leaves the holder's buffer alone. */
  lemma OthersKeepBuffer(holder: Option<CallId>, calls: Calls, closed: bool, call: CallId, phase: Phase)
    requires MutexOk(holder, calls, closed) && call in calls && holder != Some(call) && !Holds(phase)
    ensures MutexOk(holder, WithPhase(calls, call, phase), closed)
    ensures Buffer(holder, WithPhase(calls, call, phase)) == Buffer(holder, calls)
    ensures Owed(holder, WithPhase(calls, call, phase)) == Owed(holder, calls)
  {
  }

  lemma AdvanceKeepsInv(s: State, call: CallId)
    requires Inv(s)
    ensures Inv(AdvanceStep(s, call))
  {
    if call in s.calls {
      match s.calls[call].phase
      case Arrived => LockKeepsInv(s, call);
      case Trying => TryKeepsInv(s, call);
      case Draining(_) =>
        if s.queue == [] {
          ChooseKeepsInv(s, call);
        } else {
          DrainKeepsInv(s, call);
        }
      case Refilling(rest, _) =>
        if rest == [] {
          ReturnKeepsInv(s, call);
        } else {
          RefillKeepsInv(s, call);
        }
      case Settled(_) => SettleKeepsInv(s, call);
      case Finished(_) =>
    }
  }

  lemma PublishKeepsInv(s: State, call: CallId, envelope: Envelope)
    requires Inv(s)
    ensures Inv(Step(s, Publish(call, envelope)))
  {
    if call !in s.calls {
      ArrivalKeeps(s.holder, s.calls, s.closed, call, envelope);
      ArrivalKeepsFates(s.calls, s.handed, s.dropped, s.refused, s.once, call, envelope);
    }
  }

  lemma ArrivalKeeps(holder: Option<CallId>, calls: Calls, closed: bool, call: CallId, envelope: Envelope)
    requires MutexOk(holder, calls, closed) && call !in calls
    ensures var after := calls[call := Call(envelope, Arrived)];
      MutexOk(holder, after, closed) && Buffer(holder, after) == Buffer(holder, calls) && Owed(holder, after) == Owed(holder, calls)
  {
  }

  lemma ArrivalKeepsFates(
    calls: Calls, handed: set<CallId>, dropped: set<CallId>, refused: set<CallId>, once: bool, call: CallId, envelope: Envelope)
    requires FatesOk(calls, handed, dropped, refused, once) && call !in calls
    ensures FatesOk(calls[call := Call(envelope, Arrived)], handed, dropped, refused, once)
  {
  }

  lemma ReceiveKeepsInv(s: State)
    requires Inv(s)
    ensures Inv(Step(s, Receive))
  {
    RefillingConserves(s.handed, s.received, s.queue, Buffer(s.holder, s.calls), s.dropped, s.refused);
  }

  lemma StepKeepsInv(s: State, event: Event)
    requires Inv(s)
    ensures Inv(Step(s, event))
  {
    match event
    case Publish(call, envelope) => PublishKeepsInv(s, call, envelope);
    case Advance(call) => AdvanceKeepsInv(s, call);
    case Receive => ReceiveKeepsInv(s);
    case RequestClose =>
    case CloseChannel =>
  }

  lemma {:induction false} RunKeepsInv(s: State, events: seq<Event>)
    requires Inv(s)
    ensures Inv(Run(s, events))
    decreases |events|
  {
    if events != [] {
      StepKeepsInv(s, events[0]);
      RunKeepsInv(Step(s, events[0]), events[1..]);
    }
  }

  lemma FreshIsFine()
    ensures Inv(Fresh)
  {
  }

  /** Nothing is sent on a closed channel, the channel is closed at most once, the queue
      never outgrows its capacity, and a refill never blocks: the next send goes through. */
  lemma RefillNeverBlocks(events: seq<Event>, call: CallId)
    ensures var s := Run(Fresh, events);
      && !s.panicked && s.closes <= 1 && |s.queue| <= QUEUE_SIZE
      && (call in s.calls && s.calls[call].phase.Refilling? && s.calls[call].phase.rest != [] ==>
            AdvanceStep(s, call).queue == s.queue + [s.calls[call].phase.rest[0]])
  {
    FreshIsFine();
    RunKeepsInv(Fresh, events);
    var s := Run(Fresh, events);
    if call in s.calls && s.calls[call].phase.Refilling? {
      assert s.holder == Some(call);
    }
  }

  /** A call arrives with its event, and the consumer receives the oldest event of the queue. */
  lemma ArrivalsAndReceives(s: State, call: CallId, envelope: Envelope)
    ensures call !in s.calls ==> Step(s, Publish(call, envelope)) == s.(calls := s.calls[call := Call(envelope, Arrived)])
    ensures s.queue != [] ==>
      Step(s, Receive).received == s.received + [s.queue[0]] && [s.queue[0]] + Step(s, Receive).queue == s.queue
    ensures s.queue == [] ==> Step(s, Receive) == s
  {
  }

  /** A requested close happens as soon as no call is delivering, once, and takes no event away. */
  lemma CloseTakesEffect(events: seq<Event>)
    ensures var s := Run(Fresh, events);
      var t := Step(Step(s, RequestClose), CloseChannel);
      && (t.closed <==> s.closed || s.holder.None?)
      && t.closes == (if t.closed then 1 else 0)
      && t.once && t.queue == s.queue && t.received == s.received && t.calls == s.calls
      && (s.closed ==> t == s)
  {
    FreshIsFine();
    RunKeepsInv(Fresh, events);
  }

  /** A closed subscription lets every event pass by. */
  lemma ClosedLetsPass(events: seq<Event>, call: CallId)
    requires var s := Run(Fresh, events); s.closed && s.holder.None? && call in s.calls && s.calls[call].phase.Arrived?
    ensures var s := Run(Fresh, events);
      var t := Run(s, Repeat(call, 3));
      && call in t.calls && t.calls[call] == s.calls[call].(phase := Finished(true))
      && t.queue == s.queue && t.handed == s.handed && t.dropped == s.dropped && t.refused == s.refused
  {
    var s := Run(Fresh, events);
    RunStep(s, call, 3);
    var locked := AdvanceStep(s, call);
    RunStep(locked, call, 2);
    var settled := AdvanceStep(locked, call);
    RunOne(settled, call);
  }

  function Times(ids: seq<CallId>, call: CallId): nat {
    multiset(ids)[call]
  }

  function One(condition: bool): nat {
    if condition then 1 else 0
  }

  /** An event handed to a live subscription is always in exactly one place: received, queued,
      in the hands of the call that is evicting, dropped, or refused. Only droppable events
      are dropped; only critical ones are refused, and the Publish that met the refusal does
      not end before the subscription is being closed. */
  lemma EveryEventIsSomewhere(events: seq<Event>, call: CallId)
    requires call in Run(Fresh, events).handed
    ensures var s := Run(Fresh, events);
      && call in s.calls
      && Times(s.received, call) + Times(s.queue, call) + Times(Buffer(s.holder, s.calls), call)
         + One(call in s.dropped) + One(call in s.refused) == 1
      && (call in s.dropped ==> IsDroppable(s.calls[call].envelope))
      && (call in s.refused ==> !IsDroppable(s.calls[call].envelope) && Refuses(s.calls[call].phase))
      && (call in s.refused && s.calls[call].phase.Finished? ==> s.closing || s.closed)
      && (s.calls[call].phase in {Settled(false), Finished(false)} ==> call in s.refused)
  {
    FreshIsFine();
    RunKeepsInv(Fresh, events);
    var s := Run(Fresh, events);
    assert multiset(s.handed)[call] == 1;
  }

  function Repeat(call: CallId, times: nat): (events: seq<Event>)
    ensures |events| == times
  {
    if times == 0 then [] else [Advance(call)] + Repeat(call, times - 1)
  }

  lemma RunStep(s: State, call: CallId, times: nat)
    requires 0 < times
    ensures Run(s, Repeat(call, times)) == Run(AdvanceStep(s, call), Repeat(call, times - 1))
  {
    assert Repeat(call, times)[1..] == Repeat(call, times - 1);
  }

  lemma {:induction false} RunRepeat(s: State, call: CallId, first: nat, second: nat)
    ensures Run(s, Repeat(call, first + second)) == Run(Run(s, Repeat(call, first)), Repeat(call, second))
    decreases first
  {
    if first != 0 {
      RunStep(s, call, first + second);
      RunStep(s, call, first);
      RunRepeat(AdvanceStep(s, call), call, first - 1, second);
    }
  }

  lemma {:induction false} DrainAll(s: State, call: CallId, drained: seq<CallId>)
    requires call in s.calls && s.calls[call].phase == Draining(drained)
    requires Known(drained, s.calls) && Known(s.queue, s.calls)
    ensures Run(s, Repeat(call, |s.queue|)) == s.(queue := [], calls := WithPhase(s.calls, call, Draining(drained + s.queue)))
    decreases |s.queue|
  {
    if s.queue == [] {
      assert drained + s.queue == drained;
      assert WithPhase(s.calls, call, Draining(drained)) == s.calls;
    } else {
      var t := AdvanceStep(s, call);
      RunStep(s, call, |s.queue|);
      DrainAll(t, call, drained + [s.queue[0]]);
      assert drained + [s.queue[0]] + s.queue[1..] == drained + s.queue;
      assert WithPhase(t.calls, call, Draining(drained + s.queue)) == WithPhase(s.calls, call, Draining(drained + s.queue));
    }
  }

  lemma RunOne(s: State, call: CallId)
    ensures Run(s, Repeat(call, 1)) == AdvanceStep(s, call)
  {
    RunStep(s, call, 1);
    assert Repeat(call, 0) == [];
  }

  lemma PhaseTwice(calls: Calls, call: CallId, first: Phase, second: Phase)
    requires call in calls
    ensures WithPhase(WithPhase(calls, call, first), call, second) == WithPhase(calls, call, second)
  {
  }

  function Refilled(s: State, call: CallId, rest: seq<CallId>, accepted: bool): State
    requires call in s.calls
  {
    s.(queue := s.queue + rest, holder := None, calls := WithPhase(s.calls, call, Settled(accepted)))
  }

  lemma {:induction false} RefillAll(s: State, call: CallId, rest: seq<CallId>, accepted: bool)
    requires call in s.calls && s.calls[call].phase == Refilling(rest, accepted)
    requires !s.closed && |s.queue| + |rest| <= QUEUE_SIZE
    ensures Run(s, Repeat(call, |rest| + 1)) == Refilled(s, call, rest, accepted)
    decreases |rest|
  {
    if rest == [] {
      RunOne(s, call);
      assert s.queue + rest == s.queue;
    } else {
      var t := RefillStep(s, call, rest, accepted);
      RunStep(s, call, |rest| + 1);
      RefillAll(t, call, rest[1..], accepted);
      assert t.queue + rest[1..] == s.queue + rest;
      PhaseTwice(s.calls, call, Refilling(rest[1..], accepted), Settled(accepted));
    }
  }

  lemma QueueKnown(s: State)
    requires Inv(s)
    ensures Known(s.queue, s.calls)
  {
    forall i | 0 <= i < |s.queue|
      ensures s.queue[i] in s.calls
    {
      assert s.queue[i] in multiset(s.queue);
      assert s.queue[i] in multiset(s.handed);
    }
  }

  /** The steps of a call that is left alone once it runs. */
  function QuietSteps(s: State): nat {
    if |s.queue| < QUEUE_SIZE then 2 else 2 + QUEUE_SIZE + (QUEUE_SIZE + 2)
  }

  /** The call may lock the mutex of a live subscription. */
  predicate Ready(s: State, call: CallId) {
    s.holder.None? && !s.closed && call in s.calls && s.calls[call].phase.Arrived? && Known(s.queue, s.calls)
  }

  /** `t` is what the sequential delivery makes of `s`. */
  predicate DeliveredTo(s: State, t: State, call: CallId)
    requires call in s.calls && Known(s.queue, s.calls)
  {
    var delivery := Delivered(Envelopes(s.queue, s.calls), s.calls[call].envelope);
    && t.holder.None? && t.received == s.received
    && call in t.calls && t.calls[call].phase == Settled(delivery.accepted)
    && Known(t.queue, t.calls) && Envelopes(t.queue, t.calls) == delivery.queue
  }

  /** Undisturbed, the steps of one call do to the queue exactly what the sequential
      delivery does, and return its verdict. */
  lemma QuietDelivery(s: State, call: CallId)
    requires Inv(s) && s.holder.None? && !s.closed && call in s.calls && s.calls[call].phase.Arrived?
    ensures Known(s.queue, s.calls) && DeliveredTo(s, Run(s, Repeat(call, QuietSteps(s))), call)
  {
    QueueKnown(s);
    if |s.queue| < QUEUE_SIZE {
      RoomyDelivery(s, call);
    } else {
      FullDelivery(s, call);
    }
  }

  lemma RoomyDelivery(s: State, call: CallId)
    requires Ready(s, call) && |s.queue| < QUEUE_SIZE
    ensures DeliveredTo(s, Run(s, Repeat(call, 2)), call)
  {
    var locked := AdvanceStep(s, call);
    RunStep(s, call, 2);
    RunOne(locked, call);
    assert AdvanceStep(locked, call) == TryStep(locked, call);
  }

  /** The state once a call has found the queue full. */
  function FoundFull(s: State, call: CallId): State
    requires call in s.calls
  {
    s.(holder := Some(call), handed := s.handed + {call}, calls := WithPhase(s.calls, call, Draining([])))
  }

  /** The state once it has drained all of it. */
  function Drained(s: State, call: CallId): State
    requires call in s.calls
  {
    s.(holder := Some(call), handed := s.handed + {call}, queue := [], calls := WithPhase(s.calls, call, Draining(s.queue)))
  }

  lemma FindsFull(s: State, call: CallId)
    requires Ready(s, call) && |s.queue| == QUEUE_SIZE
    ensures AdvanceStep(AdvanceStep(s, call), call) == FoundFull(s, call)
  {
    PhaseTwice(s.calls, call, Trying, Draining([]));
  }

  lemma ReachesDrained(s: State, call: CallId)
    requires Ready(s, call) && |s.queue| == QUEUE_SIZE
    ensures Run(s, Repeat(call, 2 + QUEUE_SIZE)) == Drained(s, call)
  {
    var full := FoundFull(s, call);
    FindsFull(s, call);
    RunStep(s, call, 2 + QUEUE_SIZE);
    RunStep(AdvanceStep(s, call), call, 1 + QUEUE_SIZE);
    assert Known(full.queue, full.calls);
    DrainAll(full, call, []);
    assert [] + s.queue == s.queue;
    PhaseTwice(s.calls, call, Draining([]), Draining(s.queue));
  }

  lemma FullDelivery(s: State, call: CallId)
    requires Ready(s, call) && |s.queue| == QUEUE_SIZE
    ensures DeliveredTo(s, Run(s, Repeat(call, QuietSteps(s))), call)
  {
    ReachesDrained(s, call);
    RunRepeat(s, call, 2 + QUEUE_SIZE, QUEUE_SIZE + 2);
    RunStep(Drained(s, call), call, QUEUE_SIZE + 2);
    var t := AdvanceStep(Drained(s, call), call);
    var phase := Chosen(s, call);
    ChoosesAlone(s, call);
    RefillAll(t, call, phase.rest, phase.accepted);
    assert [] + phase.rest == phase.rest;
    ChosenEnvelopes(s, call, Refilled(t, call, phase.rest, phase.accepted).calls);
  }

  /** What an undisturbed call finds to put back. */
  function Chosen(s: State, call: CallId): (phase: Phase)
    requires Ready(s, call) && |s.queue| == QUEUE_SIZE
    ensures phase.Refilling? && |phase.rest| == QUEUE_SIZE && Known(phase.rest, s.calls)
  {
    var index := FirstDroppable(Envelopes(s.queue, s.calls));
    if index < |s.queue| then Refilling(s.queue[..index] + s.queue[index + 1..] + [call], true)
    else Refilling(s.queue, IsDroppable(s.calls[call].envelope))
  }

  lemma ChoosesAlone(s: State, call: CallId)
    requires Ready(s, call) && |s.queue| == QUEUE_SIZE
    ensures var t := AdvanceStep(Drained(s, call), call);
      t.calls == WithPhase(s.calls, call, Chosen(s, call)) && t.queue == [] && !t.closed && t.received == s.received
  {
    var drained := Drained(s, call);
    assert Envelopes(s.queue, drained.calls) == Envelopes(s.queue, s.calls);
    PhaseTwice(s.calls, call, Draining(s.queue), Chosen(s, call));
  }

  lemma ChosenEnvelopes(s: State, call: CallId, calls: Calls)
    requires Ready(s, call) && |s.queue| == QUEUE_SIZE
    requires calls.Keys == s.calls.Keys && forall other :: other in calls ==> calls[other].envelope == s.calls[other].envelope
    ensures var delivery := Delivered(Envelopes(s.queue, s.calls), s.calls[call].envelope);
      && Known(Chosen(s, call).rest, calls)
      && Envelopes(Chosen(s, call).rest, calls) == delivery.queue
      && Chosen(s, call).accepted == delivery.accepted
  {
  }

  function Receives(times: nat): seq<Event> {
    if times == 0 then [] else [Receive] + Receives(times - 1)
  }

  lemma {:induction false} ReceiveAll(s: State)
    ensures Run(s, Receives(|s.queue|)) == s.(queue := [], received := s.received + s.queue)
    decreases |s.queue|
  {
    if s.queue == [] {
      assert s.received + s.queue == s.received;
    } else {
      var t := Step(s, Receive);
      assert Receives(|s.queue|)[1..] == Receives(|t.queue|);
      ReceiveAll(t);
      assert s.received + [s.queue[0]] + s.queue[1..] == s.received + s.queue;
    }
  }

  predicate InDrain(s: State, call: CallId) {
    call in s.calls && s.calls[call].phase.Draining?
  }

  /** What the drain loop and the consumer took, each in its order, until the drain ended. */
  datatype Haul = Haul(drained: seq<CallId>, received: seq<CallId>)

  function HaulOf(s: State, events: seq<Event>, call: CallId): Haul
    decreases |events|
  {
    if events == [] || !InDrain(s, call) || (events[0] == Advance(call) && s.queue == []) then Haul([], [])
    else
      var rest := HaulOf(Step(s, events[0]), events[1..], call);
      if events[0] == Advance(call) then Haul([s.queue[0]] + rest.drained, rest.received)
      else if events[0] == Receive && s.queue != [] then Haul(rest.drained, [s.queue[0]] + rest.received)
      else rest
  }

  /** The two parts make up the whole, each in the whole's order. */
  predicate Interleaved<T(==)>(whole: seq<T>, left: seq<T>, right: seq<T>) {
    if whole == [] then left == [] && right == []
    else
      || (left != [] && left[0] == whole[0] && Interleaved(whole[1..], left[1..], right))
      || (right != [] && right[0] == whole[0] && Interleaved(whole[1..], left, right[1..]))
  }

  lemma {:induction false} InterleavedParts<T>(whole: seq<T>, left: seq<T>, right: seq<T>)
    requires Interleaved(whole, left, right)
    ensures multiset(whole) == multiset(left) + multiset(right) && |whole| == |left| + |right|
  {
    if whole != [] {
      assert whole == [whole[0]] + whole[1..];
      if left != [] && left[0] == whole[0] && Interleaved(whole[1..], left[1..], right) {
        assert left == [left[0]] + left[1..];
        InterleavedParts(whole[1..], left[1..], right);
      } else {
        assert right == [right[0]] + right[1..];
        InterleavedParts(whole[1..], left, right[1..]);
      }
    }
  }

  predicate NoneDroppable(ids: seq<CallId>, calls: Calls) {
    forall id :: id in ids && id in calls ==> !IsDroppable(calls[id].envelope)
  }

  predicate SameEnvelopes(before: Calls, after: Calls) {
    forall id :: id in before ==> id in after && after[id].envelope == before[id].envelope
  }

  predicate MovesOne(before: Calls, after: Calls, call: CallId) {
    call in before && call in after && after == WithPhase(before, call, after[call].phase)
  }

  lemma TryMovesOne(s: State, call: CallId)
    requires call in s.calls
    ensures MovesOne(s.calls, TryStep(s, call).calls, call)
  {
  }

  lemma DrainMovesOne(s: State, call: CallId, drained: seq<CallId>)
    requires call in s.calls && Known(drained, s.calls)
    ensures MovesOne(s.calls, DrainStep(s, call, drained).calls, call)
  {
  }

  lemma RefillMovesOne(s: State, call: CallId, rest: seq<CallId>, accepted: bool)
    requires call in s.calls && s.calls[call].phase == Refilling(rest, accepted)
    ensures MovesOne(s.calls, RefillStep(s, call, rest, accepted).calls, call)
  {
  }

  lemma AdvanceMovesOne(s: State, call: CallId)
    requires call in s.calls
    ensures MovesOne(s.calls, AdvanceStep(s, call).calls, call)
  {
    match s.calls[call].phase
    case Trying => TryMovesOne(s, call);
    case Draining(drained) =>
      if Known(drained, s.calls) {
        DrainMovesOne(s, call, drained);
      }
    case Refilling(rest, accepted) => RefillMovesOne(s, call, rest, accepted);
    case _ =>
  }

  lemma EnvelopesStay(s: State, event: Event)
    ensures SameEnvelopes(s.calls, Step(s, event).calls)
  {
    if event.Advance? && event.call in s.calls {
      AdvanceMovesOne(s, event.call);
    }
  }

  /** While a call drains, only its own steps and receives touch the queue. */
  lemma OthersLeaveDrain(s: State, event: Event, call: CallId)
    requires Inv(s) && InDrain(s, call) && event != Advance(call) && event != Receive
    ensures InDrain(Step(s, event), call) && Step(s, event).calls[call] == s.calls[call] && Step(s, event).queue == s.queue
  {
    assert s.holder == Some(call);
  }

  predicate Decided(calls: Calls, call: CallId) {
    call in calls && !Unhanded(calls[call].phase) && !calls[call].phase.Draining?
  }

  lemma OwnStepKeepsVerdict(s: State, call: CallId)
    requires Decided(s.calls, call)
    ensures Decided(AdvanceStep(s, call).calls, call)
    ensures Refuses(AdvanceStep(s, call).calls[call].phase) <==> Refuses(s.calls[call].phase)
  {
  }

  /** Once the drain has ended the verdict stands. */
  lemma VerdictStays(s: State, event: Event, call: CallId)
    requires Decided(s.calls, call)
    ensures Decided(Step(s, event).calls, call)
    ensures Refuses(Step(s, event).calls[call].phase) <==> Refuses(s.calls[call].phase)
  {
    if event == Advance(call) {
      OwnStepKeepsVerdict(s, call);
    } else if event.Advance? && event.call in s.calls {
      AdvanceMovesOne(s, event.call);
    }
  }

  lemma {:induction false} VerdictStaysForGood(s: State, events: seq<Event>, call: CallId)
    requires Decided(s.calls, call)
    ensures call in Run(s, events).calls && (Refuses(Run(s, events).calls[call].phase) <==> Refuses(s.calls[call].phase))
    decreases |events|
  {
    if events != [] {
      VerdictStays(s, events[0], call);
      VerdictStaysForGood(Step(s, events[0]), events[1..], call);
    }
  }

  lemma ChoiceVerdict(s: State, call: CallId)
    requires Inv(s) && InDrain(s, call) && s.queue == []
    ensures var t := AdvanceStep(s, call);
      Decided(t.calls, call)
      && (Refuses(t.calls[call].phase)
          <==> !IsDroppable(s.calls[call].envelope) && NoneDroppable(s.calls[call].phase.drained, s.calls))
  {
    var drained := s.calls[call].phase.drained;
    DrainedKnown(s, call);
    assert s.holder == Some(call);
    var envelopes := Envelopes(drained, s.calls);
    var index := FirstDroppable(envelopes);
    if index < |drained| {
      assert drained[index] in drained && IsDroppable(s.calls[drained[index]].envelope);
    } else {
      forall id | id in drained
        ensures !IsDroppable(s.calls[id].envelope)
      {
        var i :| 0 <= i < |drained| && drained[i] == id;
        assert !IsDroppable(envelopes[i]);
      }
    }
  }

  /** A refusal is decided by what the drain loop got. */
  predicate VerdictFits(s: State, haul: Haul, call: CallId, refused: bool)
    requires InDrain(s, call)
  {
    && Interleaved(s.queue, haul.drained, haul.received)
    && (refused <==> !IsDroppable(s.calls[call].envelope) && NoneDroppable(s.calls[call].phase.drained + haul.drained, s.calls))
  }

  /** What one step makes of a drain that does not end with it. */
  lemma StepInDrain(s: State, event: Event, call: CallId)
    requires Inv(s) && InDrain(s, call) && (event == Advance(call) ==> s.queue != [])
    ensures var t := Step(s, event);
      && Inv(t) && InDrain(t, call) && SameEnvelopes(s.calls, t.calls)
      && (event == Advance(call) ==>
            t.queue == s.queue[1..] && t.calls == WithPhase(s.calls, call, Draining(s.calls[call].phase.drained + [s.queue[0]])))
      && (event == Receive && s.queue != [] ==> t.queue == s.queue[1..] && t.calls == s.calls)
      && (event != Advance(call) && (event == Receive ==> s.queue == []) ==> t.queue == s.queue && t.calls[call] == s.calls[call])
  {
    StepKeepsInv(s, event);
    EnvelopesStay(s, event);
    if event == Advance(call) {
      DrainedKnown(s, call);
    } else if event != Receive {
      OthersLeaveDrain(s, event, call);
    }
  }

  lemma {:induction false} DrainVerdict(s: State, call: CallId, events: seq<Event>)
    requires Inv(s) && InDrain(s, call) && !InDrain(Run(s, events), call)
    ensures call in Run(s, events).calls
    ensures VerdictFits(s, HaulOf(s, events, call), call, Refuses(Run(s, events).calls[call].phase))
    decreases |events|
  {
    var event, rest := events[0], events[1..];
    var t := Step(s, event);
    if event == Advance(call) && s.queue == [] {
      ChoiceVerdict(s, call);
      VerdictStaysForGood(t, rest, call);
      assert s.calls[call].phase.drained + [] == s.calls[call].phase.drained;
    } else {
      StepInDrain(s, event, call);
      DrainVerdict(t, call, rest);
      var haul, refused := HaulOf(t, rest, call), Refuses(Run(t, rest).calls[call].phase);
      if event == Advance(call) {
        DrainedOne(s, t, call, haul, refused);
      } else if event == Receive && s.queue != [] {
        ReceivedOne(s, t, call, haul, refused);
      } else {
        SameVerdict(s, t, call, haul, refused);
      }
    }
  }

  lemma SameVerdict(s: State, t: State, call: CallId, haul: Haul, refused: bool)
    requires Inv(s) && InDrain(s, call) && InDrain(t, call) && t.calls[call] == s.calls[call] && t.queue == s.queue
    requires SameEnvelopes(s.calls, t.calls) && VerdictFits(t, haul, call, refused)
    ensures VerdictFits(s, haul, call, refused)
  {
    HaulKnown(s, call, haul);
  }

  /** Everything drained so far or yet to be drained has a known envelope. */
  lemma HaulKnown(s: State, call: CallId, haul: Haul)
    requires Inv(s) && InDrain(s, call) && Interleaved(s.queue, haul.drained, haul.received)
    ensures forall id :: id in s.calls[call].phase.drained + haul.drained ==> id in s.calls
  {
    DrainedKnown(s, call);
    QueueKnown(s);
    InterleavedParts(s.queue, haul.drained, haul.received);
    forall id | id in haul.drained
      ensures id in s.calls
    {
      assert id in multiset(haul.drained);
      assert id in multiset(s.queue);
    }
  }

  lemma DrainedOne(s: State, t: State, call: CallId, haul: Haul, refused: bool)
    requires Inv(s) && InDrain(s, call) && s.queue != [] && t.queue == s.queue[1..]
    requires t.calls == WithPhase(s.calls, call, Draining(s.calls[call].phase.drained + [s.queue[0]]))
    requires VerdictFits(t, haul, call, refused)
    ensures VerdictFits(s, Haul([s.queue[0]] + haul.drained, haul.received), call, refused)
  {
    var longer := Haul([s.queue[0]] + haul.drained, haul.received);
    assert longer.drained[1..] == haul.drained;
    assert s.calls[call].phase.drained + [s.queue[0]] + haul.drained == s.calls[call].phase.drained + longer.drained;
  }

  lemma ReceivedOne(s: State, t: State, call: CallId, haul: Haul, refused: bool)
    requires Inv(s) && InDrain(s, call) && s.queue != [] && t.queue == s.queue[1..] && t.calls == s.calls
    requires VerdictFits(t, haul, call, refused)
    ensures VerdictFits(s, Haul(haul.drained, [s.queue[0]] + haul.received), call, refused)
  {
    assert ([s.queue[0]] + haul.received)[1..] == haul.received;
  }

  /** In every schedule that follows a failed send, what the drain loop and the consumer took
      makes up the full queue in order. The call is refused if and only if its event is critical
      and every droppable event of that queue went to the consumer; it is refused although there
      is room if and only if the consumer also got something at all. */
  lemma RefusedExactlyWhen(s: State, call: CallId, events: seq<Event>)
    requires Inv(s) && Ready(s, call) && |s.queue| == QUEUE_SIZE
    requires !InDrain(Run(FoundFull(s, call), events), call)
    ensures var t := Run(FoundFull(s, call), events);
      var haul := HaulOf(FoundFull(s, call), events, call);
      var refusable := !IsDroppable(s.calls[call].envelope)
        && forall id :: id in s.queue && IsDroppable(s.calls[id].envelope) ==> id in haul.received;
      && call in t.calls
      && Interleaved(s.queue, haul.drained, haul.received)
      && (Refuses(t.calls[call].phase) <==> refusable)
      && (Refuses(t.calls[call].phase) && |haul.drained| < QUEUE_SIZE <==> refusable && haul.received != [])
  {
    var full := FoundFull(s, call);
    FoundFullIsFine(s, call);
    DrainVerdict(full, call, events);
    var haul := HaulOf(full, events, call);
    assert full.calls[call].phase.drained + haul.drained == haul.drained;
    DroppablesReceived(s, full.calls, haul);
  }

  lemma FoundFullIsFine(s: State, call: CallId)
    requires Inv(s) && Ready(s, call) && |s.queue| == QUEUE_SIZE
    ensures Inv(FoundFull(s, call)) && SameEnvelopes(s.calls, FoundFull(s, call).calls)
  {
    FindsFull(s, call);
    LockKeepsInv(s, call);
    TryKeepsInv(AdvanceStep(s, call), call);
  }

  /** The drain loop got no droppable event exactly when the consumer got them all. */
  lemma DroppablesReceived(s: State, calls: Calls, haul: Haul)
    requires Inv(s) && SameEnvelopes(s.calls, calls) && Known(s.queue, s.calls)
    requires Interleaved(s.queue, haul.drained, haul.received)
    ensures NoneDroppable(haul.drained, calls)
            <==> forall id :: id in s.queue && IsDroppable(s.calls[id].envelope) ==> id in haul.received
    ensures |s.queue| == |haul.drained| + |haul.received|
  {
    InterleavedParts(s.queue, haul.drained, haul.received);
    forall id
      ensures id in s.queue <==> id in haul.drained || id in haul.received
      ensures !(id in haul.drained && id in haul.received)
    {
      QueuedOnce(s, id);
      assert id in s.queue <==> id in multiset(s.queue);
      assert id in haul.drained <==> id in multiset(haul.drained);
      assert id in haul.received <==> id in multiset(haul.received);
    }
  }

  lemma QueuedOnce(s: State, id: CallId)
    requires Inv(s)
    ensures multiset(s.queue)[id] <= 1
  {
    assert multiset(s.handed)[id] <= 1;
  }

  /** For example: a consumer that empties the queue between the failed send and the drain has a
      critical event refused although the queue is empty. */
  lemma RefusedDespiteRoom(s: State, call: CallId)
    requires Ready(s, call) && |s.queue| == QUEUE_SIZE && !IsDroppable(s.calls[call].envelope)
    ensures var full := AdvanceStep(AdvanceStep(s, call), call);
      var t := Run(Run(full, Receives(QUEUE_SIZE)), Repeat(call, 2));
      t.queue == [] && call in t.calls && t.calls[call].phase == Settled(false)
  {
    var full := FoundFull(s, call);
    FindsFull(s, call);
    ReceiveAll(full);
    var empty := full.(queue := [], received := full.received + full.queue);
    RunStep(empty, call, 2);
    RunOne(AdvanceStep(empty, call), call);
    assert AdvanceStep(empty, call).calls[call].phase == Refilling([], false);
  }
}
