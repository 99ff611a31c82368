/** The WebSocket hub without concurrent receives: a topic index over subscriptions, each
    with a bounded queue that evicts telemetry before it gives up on lifecycle events. */
module Hub {

  const QUEUE_SIZE: nat := 64

  type Topic = string

  datatype EventType =
    | DriverLocationUpdated
    | PassengerLocationUpdated
    | ChatMessageCreated
    | ChatTypingChanged
    | PresenceUpdated
    | Lifecycle(name: string) // every other event type

  datatype Envelope = Envelope(kind: EventType, topics: seq<Topic>, payload: string)

  predicate IsDroppable(envelope: Envelope) {
    !envelope.kind.Lifecycle?
  }

  /** The position of the oldest droppable event, or the length when there is none. */
  function FirstDroppable(queue: seq<Envelope>): (index: nat)
    ensures index <= |queue|
    ensures index < |queue| ==> IsDroppable(queue[index])
    ensures forall i :: 0 <= i < index ==> !IsDroppable(queue[i])
  {
    if queue == [] || IsDroppable(queue[0]) then 0 else 1 + FirstDroppable(queue[1..])
  }

  datatype Delivery = Delivery(queue: seq<Envelope>, accepted: bool)

  /** Replaces the oldest droppable event, or drops the newcomer, or gives up. */
  function Evict(queue: seq<Envelope>, envelope: Envelope): Delivery {
    var index := FirstDroppable(queue);
    if index < |queue| then Delivery(queue[..index] + queue[index + 1..] + [envelope], true)
    else Delivery(queue, IsDroppable(envelope))
  }

  function Delivered(queue: seq<Envelope>, envelope: Envelope): Delivery {
    if |queue| < QUEUE_SIZE then Delivery(queue + [envelope], true) else Evict(queue, envelope)
  }

  function Critical(queue: seq<Envelope>): (kept: seq<Envelope>)
    ensures |kept| <= |queue|
  {
    if queue == [] then []
    else if IsDroppable(queue[0]) then Critical(queue[1..])
    else [queue[0]] + Critical(queue[1..])
  }

  lemma {:induction false} CriticalConcat(left: seq<Envelope>, right: seq<Envelope>)
    ensures Critical(left + right) == Critical(left) + Critical(right)
  {
    if left == [] {
      assert left + right == right;
    } else {
      assert (left + right)[1..] == left[1..] + right;
      CriticalConcat(left[1..], right);
    }
  }

  lemma {:induction false} AllCritical(queue: seq<Envelope>)
    ensures |Critical(queue)| == |queue| <==> forall i :: 0 <= i < |queue| ==> !IsDroppable(queue[i])
  {
    if queue != [] {
      AllCritical(queue[1..]);
      assert queue == [queue[0]] + queue[1..];
      if |Critical(queue)| == |queue| {
        forall i | 0 <= i < |queue|
          ensures !IsDroppable(queue[i])
        {
          if i > 0 {
            assert queue[i] == queue[1..][i - 1];
          }
        }
      }
    }
  }

  /** Position and presence updates, chat messages and typing may be dropped, nothing else. */
  lemma DroppableKinds(envelope: Envelope)
    ensures IsDroppable(envelope) <==>
      envelope.kind in {DriverLocationUpdated, PassengerLocationUpdated, ChatMessageCreated, ChatTypingChanged, PresenceUpdated}
  {
  }

  /** With room the event is appended; in a full queue it takes the place of the oldest droppable
      one, at the end, and without such an event the queue stays as it is. */
  lemma DeliveryIsExact(queue: seq<Envelope>, envelope: Envelope, index: nat)
    requires |queue| <= 64
    ensures |queue| < 64 ==> Delivered(queue, envelope) == Delivery(queue + [envelope], true)
    ensures |queue| == 64 && index < 64 && IsDroppable(queue[index]) && Critical(queue[..index]) == queue[..index] ==>
      Delivered(queue, envelope) == Delivery(queue[..index] + queue[index + 1..] + [envelope], true)
    ensures |queue| == 64 && Critical(queue) == queue ==> Delivered(queue, envelope) == Delivery(queue, IsDroppable(envelope))
  {
    AllCritical(queue);
    if index < |queue| {
      AllCritical(queue[..index]);
      assert forall i :: 0 <= i < index ==> queue[..index][i] == queue[i];
      assert Critical(queue[..index]) == queue[..index] ==> forall i :: 0 <= i < index ==> !IsDroppable(queue[i]);
    }
  }

  /** A delivery never loses or reorders a critical event already queued; the newcomer is
      lost only if it is droppable or refused, and refusal means that everything, newcomer
      included, is critical and the queue full. */
  lemma DeliveryKeepsCritical(queue: seq<Envelope>, envelope: Envelope)
    requires |queue| <= QUEUE_SIZE
    ensures var delivery := Delivered(queue, envelope);
      && |queue| <= |delivery.queue| <= QUEUE_SIZE
      && Critical(delivery.queue) == Critical(queue) + (if delivery.accepted then Critical([envelope]) else [])
      && (!delivery.accepted <==> |Critical(queue + [envelope])| == QUEUE_SIZE + 1)
      && (|queue| == QUEUE_SIZE && |Critical(queue)| < |queue| ==> delivery.queue[QUEUE_SIZE - 1] == envelope)
  {
    CriticalConcat(queue, [envelope]);
    AllCritical(queue);
    var index := FirstDroppable(queue);
    if |queue| == QUEUE_SIZE && index < |queue| {
      assert queue == queue[..index] + ([queue[index]] + queue[index + 1..]);
      CriticalConcat(queue[..index], [queue[index]] + queue[index + 1..]);
      CriticalConcat([queue[index]], queue[index + 1..]);
      CriticalConcat(queue[..index], queue[index + 1..]);
      CriticalConcat(queue[..index] + queue[index + 1..], [envelope]);
    }
  }

  /** Topics in the order of their first mention, without the empty one. */
  function UniqueTopics(topics: seq<Topic>): seq<Topic> {
    if topics == [] then []
    else
      var rest := topics[..|topics| - 1];
      var topic := topics[|topics| - 1];
      if topic == "" || topic in rest then UniqueTopics(rest) else UniqueTopics(rest) + [topic]
  }

  /** The position of the first mention. */
  function FirstMention(topics: seq<Topic>, topic: Topic): (index: nat)
    requires topic in topics
    ensures index < |topics| && topics[index] == topic
    ensures topic !in topics[..index]
  {
    if topics[0] == topic then 0
    else
      assert topics == [topics[0]] + topics[1..];
      1 + FirstMention(topics[1..], topic)
  }

  lemma {:induction false} UniqueTopicsMembers(topics: seq<Topic>, topic: Topic)
    ensures topic in UniqueTopics(topics) <==> topic in topics && topic != ""
  {
    if topics != [] {
      var rest := topics[..|topics| - 1];
      assert topics == rest + [topics[|topics| - 1]];
      UniqueTopicsMembers(rest, topic);
    }
  }

  /** Each topic appears once, in the order of first mention. */
  lemma {:induction false} UniqueTopicsInOrder(topics: seq<Topic>, i: nat, j: nat)
    requires i < j < |UniqueTopics(topics)|
    ensures UniqueTopics(topics)[i] in topics && UniqueTopics(topics)[j] in topics
    ensures FirstMention(topics, UniqueTopics(topics)[i]) < FirstMention(topics, UniqueTopics(topics)[j])
  {
    var unique := UniqueTopics(topics);
    var rest := topics[..|topics| - 1];
    assert topics == rest + [topics[|topics| - 1]];
    UniqueTopicsMembers(topics, unique[i]);
    UniqueTopicsMembers(topics, unique[j]);
    UniqueTopicsMembers(rest, unique[i]);
    if j < |UniqueTopics(rest)| {
      UniqueTopicsInOrder(rest, i, j);
      FirstMentionInPrefix(rest, topics, unique[i]);
      FirstMentionInPrefix(rest, topics, unique[j]);
    } else {
      FirstMentionInPrefix(rest, topics, unique[i]);
    }
  }

  lemma FirstMentionInPrefix(prefix: seq<Topic>, topics: seq<Topic>, topic: Topic)
    requires prefix <= topics && topic in prefix
    ensures FirstMention(prefix, topic) == FirstMention(topics, topic)
  {
    var first, second := FirstMention(prefix, topic), FirstMention(topics, topic);
    assert topic !in topics[..second] && topic !in prefix[..first];
  }

  method CollectTopics(topics: seq<Topic>) returns (result: seq<Topic>)
    ensures result == UniqueTopics(topics)
  {
    var unique: set<Topic> := {};
    result := [];
    for i := 0 to |topics|
      invariant result == UniqueTopics(topics[..i])
      invariant forall topic :: topic in unique <==> topic in topics[..i] && topic != ""
    {
      assert topics[..i + 1] == topics[..i] + [topics[i]];
      if topics[i] != "" && topics[i] !in unique {
        unique := unique + {topics[i]};
        result := result + [topics[i]];
      }
    }
    assert topics[..|topics|] == topics;
  }

  type Index = map<Topic, set<Subscription>>

  function With(index: Index, topic: Topic, sub: Subscription): Index {
    index[topic := (if topic in index then index[topic] else {}) + {sub}]
  }

  function Without(index: Index, topic: Topic, sub: Subscription): Index {
    if topic !in index then index
    else if index[topic] - {sub} == {} then index - {topic}
    else index[topic := index[topic] - {sub}]
  }

  predicate Member(index: Index, topic: Topic, sub: Subscription) {
    topic in index && sub in index[topic]
  }

  predicate NoEmptySets(index: Index) {
    forall topic :: topic in index ==> index[topic] != {}
  }

  lemma WithoutMembers(index: Index, topic: Topic, sub: Subscription)
    ensures forall other, member ::
      Member(Without(index, topic, sub), other, member) <==> Member(index, other, member) && !(member == sub && other == topic)
  {
    forall member | Member(index, topic, member) && member != sub
      ensures Member(Without(index, topic, sub), topic, member)
    {
      assert member in index[topic] - {sub};
    }
  }

  predicate Reaches(index: Index, topics: seq<Topic>, sub: Subscription) {
    exists topic :: topic in topics && Member(index, topic, sub)
  }

  lemma ReachesOneMore(index: Index, topics: seq<Topic>, topic: Topic)
    ensures forall sub :: Reaches(index, topics + [topic], sub) <==> Reaches(index, topics, sub) || Member(index, topic, sub)
  {
    forall sub
      ensures Reaches(index, topics + [topic], sub) <==> Reaches(index, topics, sub) || Member(index, topic, sub)
    {
      if Reaches(index, topics, sub) {
        var other :| other in topics && Member(index, other, sub);
        assert other in topics + [topic];
      }
      assert topic in topics + [topic];
    }
  }

  /** An event reaches the subscriptions that share a topic with it. */
  predicate Shares(first: seq<Topic>, second: seq<Topic>) {
    exists topic :: topic in first && topic in second
  }

  class Subscription {
    const hub: Hub
    const topics: seq<Topic>
    var queue: seq<Envelope>
    var closed: bool
    var once: bool
    ghost var closes: nat // how often the channel was closed

    constructor (hub: Hub, topics: seq<Topic>)
      ensures this.hub == hub && this.topics == topics
      ensures queue == [] && !closed && !once && closes == 0
    {
      this.hub, this.topics := hub, topics;
      queue, closed, once, closes := [], false, false, 0;
    }

    ghost predicate Valid()
      reads this
    {
      |queue| <= QUEUE_SIZE && once == closed && closes == if closed then 1 else 0
    }

    method Drain() returns (drained: seq<Envelope>)
      modifies this`queue
      ensures drained == old(queue) && queue == []
    {
      drained := [];
      while queue != []
        invariant drained + queue == old(queue)
        decreases |queue|
      {
        drained, queue := drained + [queue[0]], queue[1..];
      }
    }

    method Refill(drained: seq<Envelope>)
      requires |queue| + |drained| <= QUEUE_SIZE
      modifies this`queue
      ensures queue == old(queue) + drained
    {
      for i := 0 to |drained|
        invariant queue == old(queue) + drained[..i]
      {
        assert |queue| < QUEUE_SIZE;
        assert drained[..i + 1] == drained[..i] + [drained[i]];
        queue := queue + [drained[i]];
      }
      assert drained[..|drained|] == drained;
    }

    /** Says whether the hub may keep the subscription. */
    method Deliver(envelope: Envelope) returns (accepted: bool)
      requires Valid()
      modifies this`queue
      ensures Valid()
      ensures queue == if closed then old(queue) else Delivered(old(queue), envelope).queue
      ensures accepted == (closed || Delivered(old(queue), envelope).accepted)
    {
      if closed {
        return true;
      }
      if |queue| < QUEUE_SIZE {
        queue := queue + [envelope];
        return true;
      }
      var drained := Drain();
      var index := 0;
      while index < |drained| && !IsDroppable(drained[index])
        invariant index <= |drained|
        invariant forall i :: 0 <= i < index ==> !IsDroppable(drained[i])
      {
        index := index + 1;
      }
      if index < |drained| {
        Refill(drained[..index] + drained[index + 1..] + [envelope]);
        return true;
      }
      Refill(drained);
      return IsDroppable(envelope);
    }

    /** Leaves the index and closes the channel, once. */
    method Close()
      requires hub.Wired() && this in hub.subscriptions
      modifies hub`index, this`closed, this`once, this`closes
      ensures hub.Wired() && closed
      ensures old(closed) ==> hub.index == old(hub.index)
    {
      if once {
        return;
      }
      once := true;
      hub.Remove(this);
      hub.StaysIndexed(old(hub.index), hub.subscriptions);
      if !closed {
        closed, closes := true, closes + 1;
      }
    }
  }

  class Hub {
    var index: Index
    var closed: bool
    ghost var subscriptions: set<Subscription> // every subscription ever made

    /** The index holds exactly the topics of the live subscriptions, and no empty set. */
    ghost predicate Indexed()
      reads this, subscriptions
    {
      && NoEmptySets(index)
      && (forall topic :: topic in index ==> index[topic] <= subscriptions)
      && (forall topic, sub :: sub in subscriptions ==> (Member(index, topic, sub) <==> !sub.closed && topic in sub.topics))
    }

    ghost predicate Wired()
      reads this, subscriptions
    {
      Indexed() && forall sub :: sub in subscriptions ==> sub.Valid() && sub.hub == this
    }

    /** A closed hub has closed every subscription that has a topic. */
    ghost predicate Valid()
      reads this, subscriptions
    {
      && Wired()
      && (closed ==> forall sub :: sub in subscriptions && sub.topics != [] ==> sub.closed)
    }

    constructor ()
      ensures Valid() && !closed && subscriptions == {}
    {
      index, closed, subscriptions := map[], false, {};
    }

    method Remove(sub: Subscription)
      requires NoEmptySets(index)
      modifies this`index
      ensures NoEmptySets(index)
      ensures forall topic, other ::
        Member(index, topic, other) <==> Member(old(index), topic, other) && !(other == sub && topic in sub.topics)
    {
      for i := 0 to |sub.topics|
        invariant NoEmptySets(index)
        invariant forall topic, other ::
          Member(index, topic, other) <==> Member(old(index), topic, other) && !(other == sub && topic in sub.topics[..i])
      {
        assert sub.topics[..i + 1] == sub.topics[..i] + [sub.topics[i]];
        WithoutMembers(index, sub.topics[i], sub);
        index := Without(index, sub.topics[i], sub);
      }
      assert sub.topics[..|sub.topics|] == sub.topics;
    }

    method Subscribe(topics: seq<Topic>) returns (sub: Subscription)
      requires Valid()
      modifies this`index, this`subscriptions
      ensures Valid() && fresh(sub) && subscriptions == old(subscriptions) + {sub}
      ensures sub.topics == UniqueTopics(topics) && sub.queue == [] && sub.closed == closed
    {
      var unique := CollectTopics(topics);
      sub := new Subscription(this, unique);
      subscriptions := subscriptions + {sub};
      if closed {
        sub.closed, sub.once, sub.closes := true, true, 1;
        return;
      }
      Add(sub);
      StaysIndexed(old(index), old(subscriptions));
    }

    method Add(sub: Subscription)
      requires NoEmptySets(index)
      modifies this`index
      ensures NoEmptySets(index)
      ensures forall topic, other ::
        Member(index, topic, other) <==> Member(old(index), topic, other) || (other == sub && topic in sub.topics)
    {
      for i := 0 to |sub.topics|
        invariant NoEmptySets(index)
        invariant forall topic, other ::
          Member(index, topic, other) <==> Member(old(index), topic, other) || (other == sub && topic in sub.topics[..i])
      {
        assert sub.topics[..i + 1] == sub.topics[..i] + [sub.topics[i]];
        index := With(index, sub.topics[i], sub);
      }
      assert sub.topics[..|sub.topics|] == sub.topics;
    }

    /** Membership alone bounds the indexed sets. */
    lemma StaysIndexed(before: Index, known: set<Subscription>)
      requires forall topic :: topic in before ==> before[topic] <= known
      requires known <= subscriptions
      requires forall topic, sub :: Member(index, topic, sub) ==> Member(before, topic, sub) || sub in subscriptions
      ensures forall topic :: topic in index ==> index[topic] <= subscriptions
    {
      forall topic, sub | topic in index && sub in index[topic]
        ensures sub in subscriptions
      {
        assert Member(index, topic, sub);
      }
    }

    /** Puts the members of a set into some order. */
    method Enumerate(members: set<Subscription>) returns (order: seq<Subscription>)
      ensures forall sub :: sub in order <==> sub in members
      ensures forall i, j :: 0 <= i < j < |order| ==> order[i] != order[j]
    {
      order := [];
      var rest := members;
      while rest != {}
        invariant forall sub :: sub in members <==> sub in order || sub in rest
        invariant forall sub :: sub in rest ==> sub !in order
        invariant forall i, j :: 0 <= i < j < |order| ==> order[i] != order[j]
        decreases |rest|
      {
        var sub :| sub in rest;
        order, rest := order + [sub], rest - {sub};
      }
    }

    /** The members of the union of the topics, each once. */
    method Targets(topics: seq<Topic>) returns (targets: seq<Subscription>)
      ensures forall sub :: sub in targets <==> Reaches(index, topics, sub)
      ensures forall i, j :: 0 <= i < j < |targets| ==> targets[i] != targets[j]
    {
      targets := [];
      if |topics| == 1 {
        if topics[0] in index {
          targets := Enumerate(index[topics[0]]);
        }
        assert forall sub :: sub in targets <==> Member(index, topics[0], sub);
        assert forall sub :: Reaches(index, topics, sub) <==> Member(index, topics[0], sub);
        return;
      }
      for i := 0 to |topics|
        invariant forall sub :: sub in targets <==> Reaches(index, topics[..i], sub)
        invariant forall i, j :: 0 <= i < j < |targets| ==> targets[i] != targets[j]
      {
        targets := Merge(targets, if topics[i] in index then index[topics[i]] else {});
        assert topics[..i + 1] == topics[..i] + [topics[i]];
        ReachesOneMore(index, topics[..i], topics[i]);
      }
      assert topics[..|topics|] == topics;
    }

    method Merge(targets: seq<Subscription>, members: set<Subscription>) returns (merged: seq<Subscription>)
      requires forall i, j :: 0 <= i < j < |targets| ==> targets[i] != targets[j]
      ensures forall sub :: sub in merged <==> sub in targets || sub in members
      ensures forall i, j :: 0 <= i < j < |merged| ==> merged[i] != merged[j]
    {
      var order := Enumerate(members);
      merged := targets;
      for j := 0 to |order|
        invariant forall sub :: sub in merged <==> sub in targets || sub in order[..j]
        invariant forall i, j :: 0 <= i < j < |merged| ==> merged[i] != merged[j]
      {
        if order[j] !in merged {
          merged := merged + [order[j]];
        }
        assert order[..j + 1] == order[..j] + [order[j]];
      }
      assert order[..|order|] == order;
    }

    /** The subscription hears the event: it is live and shares a topic with it. */
    ghost predicate Hears(sub: Subscription, envelope: Envelope)
      reads sub
    {
      !sub.closed && Shares(envelope.topics, sub.topics)
    }

    method Close()
      requires Valid()
      modifies this, subscriptions
      ensures Valid() && closed && subscriptions == old(subscriptions)
      ensures forall sub :: sub in subscriptions ==> sub.closed == (old(sub.closed) || (!old(closed) && sub.topics != []))
      ensures forall sub :: sub in subscriptions ==> sub.queue == old(sub.queue)
    {
      if closed {
        return;
      }
      closed := true;
      var live := Members();
      var order := Enumerate(live);
      CloseAll(order);
    }

    /** Everyone in the index: the live subscriptions that have a topic. */
    method Members() returns (live: set<Subscription>)
      requires Indexed()
      ensures forall sub :: sub in live <==> sub in subscriptions && !sub.closed && sub.topics != []
    {
      live := set topic, sub | topic in index && sub in index[topic] :: sub;
      forall sub | sub in subscriptions && !sub.closed && sub.topics != []
        ensures sub in live
      {
        assert Member(index, sub.topics[0], sub);
      }
      forall sub | sub in live
        ensures sub in subscriptions && !sub.closed && sub.topics != []
      {
        var topic :| topic in index && sub in index[topic];
        assert Member(index, topic, sub);
      }
    }

    method CloseAll(subs: seq<Subscription>)
      requires Wired() && forall sub :: sub in subs ==> sub in subscriptions
      modifies this`index, subscriptions`closed, subscriptions`once, subscriptions`closes
      ensures Wired()
      ensures forall sub :: sub in subscriptions ==> sub.closed == (old(sub.closed) || sub in subs)
    {
      for i := 0 to |subs|
        invariant Wired()
        invariant forall sub :: sub in subscriptions ==> sub.closed == (old(sub.closed) || sub in subs[..i])
      {
        assert subs[..i + 1] == subs[..i] + [subs[i]];
        subs[i].Close();
      }
      assert subs[..|subs|] == subs;
    }

    /** Reaches exactly the live subscriptions that share a topic with the event, each once;
        those that refuse the event are closed, all others are left alone. */
    method Publish(envelope: Envelope)
      requires Valid()
      modifies this`index, subscriptions`queue, subscriptions`closed, subscriptions`once, subscriptions`closes
      ensures Valid()
      ensures forall sub :: sub in subscriptions ==>
        sub.queue == if !closed && old(Hears(sub, envelope)) then Delivered(old(sub.queue), envelope).queue else old(sub.queue)
      ensures forall sub :: sub in subscriptions ==>
        sub.closed == (old(sub.closed) || (!closed && old(Hears(sub, envelope)) && !Delivered(old(sub.queue), envelope).accepted))
    {
      if envelope.topics == [] || closed {
        return;
      }
      var targets := Targets(envelope.topics);
      HeardBy(envelope);
      var slow := DeliverAll(targets, envelope);
      CloseAll(slow);
    }

    /** The index leads to exactly the subscriptions that hear the event. */
    lemma HeardBy(envelope: Envelope)
      requires Indexed()
      ensures forall sub :: Reaches(index, envelope.topics, sub) <==> sub in subscriptions && Hears(sub, envelope)
    {
      forall sub
        ensures Reaches(index, envelope.topics, sub) <==> sub in subscriptions && Hears(sub, envelope)
      {
        if sub in subscriptions && Hears(sub, envelope) {
          var topic :| topic in envelope.topics && topic in sub.topics;
          assert Member(index, topic, sub);
        }
      }
    }

    method DeliverAll(targets: seq<Subscription>, envelope: Envelope) returns (slow: seq<Subscription>)
      requires Wired()
      requires forall i :: 0 <= i < |targets| ==> targets[i] in subscriptions && !targets[i].closed
      requires forall i, j :: 0 <= i < j < |targets| ==> targets[i] != targets[j]
      modifies subscriptions`queue
      ensures Wired()
      ensures forall sub :: sub in subscriptions ==>
        sub.queue == if sub in targets then Delivered(old(sub.queue), envelope).queue else old(sub.queue)
      ensures forall sub :: sub in slow <==> sub in targets && !Delivered(old(sub.queue), envelope).accepted
    {
      slow := [];
      for i := 0 to |targets|
        invariant forall sub :: sub in subscriptions ==> sub.Valid() && sub.hub == this
        invariant forall sub :: sub in subscriptions && sub in targets[..i] ==> sub.queue == Delivered(old(sub.queue), envelope).queue
        invariant forall sub :: sub in subscriptions && sub !in targets[..i] ==> sub.queue == old(sub.queue)
        invariant forall sub :: sub in slow <==> sub in targets[..i] && !Delivered(old(sub.queue), envelope).accepted
      {
        assert targets[..i + 1] == targets[..i] + [targets[i]];
        assert targets[i] !in targets[..i];
        var accepted := targets[i].Deliver(envelope);
        if !accepted {
          slow := slow + [targets[i]];
        }
      }
      assert targets[..|targets|] == targets;
    }
  }
}
