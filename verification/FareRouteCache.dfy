/** The fare route cache: a bounded, expiring cache and a table of computations in flight
    behind one mutex, which the leader of a flight releases while it computes. */
module FareRouteCache {

  import opened Common

  /** Rounded coordinates; the rendered key is never empty, so "" can mean "no key yet". */
  type Key = k: string | k != "" witness "fare-route"
  type FlightId = nat
  type CallId = nat

  const TTL: nat := 15
  const MAX_ENTRIES: nat := 128

  datatype Metrics = Metrics(distanceKm: real, durationMinutes: real)

  datatype Failure = RouteAborted | RouteFailed | CallerGone

  type Answer = Result<Metrics, Failure>

  datatype Entry = Entry(metrics: Metrics, createdAt: Instant)
  type Cache = map<Key, Entry>

  /** `closes` counts how often the done channel was closed, `closedAt` when it was. */
  datatype Flight = Flight(key: Key, leader: CallId, answer: Answer, closes: nat, closedAt: Instant)

  datatype Source = FromCache(createdAt: Instant, at: Instant) | FromFlight(flight: FlightId)

  datatype Call =
    | Waiting(key: Key, flight: FlightId)
    | Leading(key: Key, flight: FlightId)
    | Answered(key: Key, answer: Answer, source: Source)

  /** A successful run of the route resolver. */
  datatype Resolution = Resolution(key: Key, metrics: Metrics, at: Instant)

  datatype State = State(
    now: Instant,
    cache: Cache,
    inFlight: map<Key, FlightId>,
    flights: map<FlightId, Flight>,
    nextFlight: FlightId,
    calls: map<CallId, Call>,
    resolved: set<Resolution>)

  /** What the resolver did: returned, or unwound the leader's stack. */
  datatype Work = Returns(answer: Answer) | Panics

  datatype Event =
    | Tick(seconds: nat)
    | Enter(call: CallId, key: Key)
    | Finish(call: CallId, work: Work, gone: bool, victim: string)
    | Wake(call: CallId)
    | GiveUp(call: CallId)

  predicate Usable(cache: Cache, key: Key, now: Instant) {
    key in cache && now < cache[key].createdAt + TTL
  }

  predicate Oldest(cache: Cache, victim: string) {
    victim in cache && forall key :: key in cache ==> cache[victim].createdAt <= cache[key].createdAt
  }

  /** A legal choice of the eviction scan; ties are broken by the map's iteration order. */
  predicate LegalVictim(cache: Cache, victim: string) {
    |cache| < MAX_ENTRIES || Oldest(cache, victim)
  }

  function Stored(cache: Cache, key: Key, metrics: Metrics, now: Instant, victim: string): Cache
    requires LegalVictim(cache, victim)
  {
    (if |cache| < MAX_ENTRIES then cache else cache - {victim})[key := Entry(metrics, now)]
  }

  lemma {:induction false} OldestExists(cache: Cache, keys: set<Key>) returns (victim: Key)
    requires keys != {} && keys <= cache.Keys
    ensures victim in keys && forall key :: key in keys ==> cache[victim].createdAt <= cache[key].createdAt
    decreases keys
  {
    victim :| victim in keys;
    if keys != {victim} {
      var rest := OldestExists(cache, keys - {victim});
      if cache[rest].createdAt < cache[victim].createdAt {
        victim := rest;
      }
    }
  }

  /** The eviction scan always finds a legal choice. */
  lemma AnyVictim(cache: Cache) returns (victim: string)
    ensures LegalVictim(cache, victim)
  {
    victim := "";
    if cache.Keys != {} {
      victim := OldestExists(cache, cache.Keys);
    }
  }

  /** The first critical section. */
  function EnterStep(s: State, call: CallId, key: Key): State {
    if call in s.calls then s
    else if Usable(s.cache, key, s.now) then
      var entry := s.cache[key];
      s.(calls := s.calls[call := Answered(key, Ok(entry.metrics), FromCache(entry.createdAt, s.now))])
    else if key in s.inFlight then
      s.(cache := s.cache - {key}, calls := s.calls[call := Waiting(key, s.inFlight[key])])
    else
      s.(cache := s.cache - {key},
         inFlight := s.inFlight[key := s.nextFlight],
         flights := s.flights[s.nextFlight := Flight(key, call, Err(RouteAborted), 0, 0)],
         nextFlight := s.nextFlight + 1,
         calls := s.calls[call := Leading(key, s.nextFlight)])
  }

  /** The leader's deferred critical section, then its own return. */
  function FinishStep(s: State, call: CallId, work: Work, gone: bool, victim: string): State {
    if call !in s.calls || !s.calls[call].Leading? || s.calls[call].flight !in s.flights
       || !LegalVictim(s.cache, victim) then s
    else
      var key := s.calls[call].key;
      var id := s.calls[call].flight;
      var answer := if work.Returns? then work.answer else s.flights[id].answer;
      var fetched := work.Returns? && work.answer.Ok?;
      s.(inFlight := s.inFlight - {key},
         flights := s.flights[id := s.flights[id].(answer := answer, closes := s.flights[id].closes + 1, closedAt := s.now)],
         cache := if fetched then Stored(s.cache, key, answer.value, s.now, victim) else s.cache,
         resolved := if fetched then s.resolved + {Resolution(key, answer.value, s.now)} else s.resolved,
         calls := s.calls[call := Answered(key, if gone && work.Returns? then Err(CallerGone) else answer, FromFlight(id))])
  }

  function Step(s: State, event: Event): State {
    match event
    case Tick(seconds) => s.(now := s.now + seconds)
    case Enter(call, key) => EnterStep(s, call, key)
    case Finish(call, work, gone, victim) => FinishStep(s, call, work, gone, victim)
    case Wake(call) =>
      if call in s.calls && s.calls[call].Waiting? && s.calls[call].flight in s.flights
         && 0 < s.flights[s.calls[call].flight].closes
      then s.(calls := s.calls[call := Answered(s.calls[call].key, s.flights[s.calls[call].flight].answer,
                                                FromFlight(s.calls[call].flight))])
      else s
    case GiveUp(call) =>
      if call in s.calls && s.calls[call].Waiting?
      then s.(calls := s.calls[call := Answered(s.calls[call].key, Err(CallerGone), FromFlight(s.calls[call].flight))])
      else s
  }

  function Run(s: State, events: seq<Event>): State
    decreases |events|
  {
    if events == [] then s else Run(Step(s, events[0]), events[1..])
  }

  const EMPTY := State(0, map[], map[], map[], 0, map[], {})

  predicate CacheBounded(cache: Cache, inFlight: map<Key, FlightId>) {
    |cache| <= MAX_ENTRIES && cache.Keys !! inFlight.Keys
  }

  /** Open flights are exactly the table's; closed ones were closed once. */
  predicate FlightsMatch(inFlight: map<Key, FlightId>, flights: map<FlightId, Flight>, nextFlight: FlightId) {
    && (forall key :: key in inFlight ==> inFlight[key] in flights && flights[inFlight[key]].key == key
                                          && flights[inFlight[key]].closes == 0)
    && (forall id :: id in flights ==> id < nextFlight && flights[id].closes <= 1)
    && (forall id :: id in flights && flights[id].closes == 0 ==>
          flights[id].key in inFlight && inFlight[flights[id].key] == id)
  }

  /** A call leads a flight exactly while the flight is in the table. */
  predicate LeadersMatch(calls: map<CallId, Call>, inFlight: map<Key, FlightId>, flights: map<FlightId, Flight>) {
    && (forall call :: call in calls && calls[call].Leading? ==>
          && calls[call].flight in flights && flights[calls[call].flight].leader == call
          && calls[call].key in inFlight && inFlight[calls[call].key] == calls[call].flight)
    && (forall key :: key in inFlight ==>
          && inFlight[key] in flights && flights[inFlight[key]].leader in calls
          && calls[flights[inFlight[key]].leader] == Leading(key, inFlight[key]))
  }

  predicate CacheResolved(cache: Cache, resolved: set<Resolution>) {
    forall key :: key in cache ==> Resolution(key, cache[key].metrics, cache[key].createdAt) in resolved
  }

  predicate FlightsResolved(flights: map<FlightId, Flight>, resolved: set<Resolution>) {
    forall id :: id in flights && flights[id].answer.Ok? ==>
      flights[id].closes == 1 && Resolution(flights[id].key, flights[id].answer.value, flights[id].closedAt) in resolved
  }

  /** Where a successful answer came from. */
  predicate AnswerResolved(call: Call, flights: map<FlightId, Flight>, resolved: set<Resolution>)
    requires call.Answered?
  {
    call.answer.Ok? ==>
      match call.source
      case FromCache(createdAt, at) => at < createdAt + 15 && Resolution(call.key, call.answer.value, createdAt) in resolved
      case FromFlight(id) =>
        id in flights && flights[id].key == call.key && flights[id].answer == call.answer && flights[id].closes == 1
        && Resolution(call.key, call.answer.value, flights[id].closedAt) in resolved
  }

  predicate CallsResolved(calls: map<CallId, Call>, flights: map<FlightId, Flight>, resolved: set<Resolution>) {
    forall call :: call in calls ==>
      && (calls[call].Waiting? ==> calls[call].flight in flights && flights[calls[call].flight].key == calls[call].key)
      && (calls[call].Answered? ==> AnswerResolved(calls[call], flights, resolved))
  }

  /** The parts of the invariant about who computes what. */
  predicate Coordinated(s: State) {
    FlightsMatch(s.inFlight, s.flights, s.nextFlight) && LeadersMatch(s.calls, s.inFlight, s.flights)
  }

  /** The parts about what may be answered. */
  predicate Grounded(s: State) {
    && CacheResolved(s.cache, s.resolved)
    && FlightsResolved(s.flights, s.resolved)
    && CallsResolved(s.calls, s.flights, s.resolved)
  }

  predicate Inv(s: State) {
    && CacheBounded(s.cache, s.inFlight)
    && Coordinated(s)
    && Grounded(s)
  }

  lemma RemoveSize<K, V>(m: map<K, V>, key: K)
    ensures |m - {key}| == if key in m then |m| - 1 else |m|
  {
    assert (m - {key}).Keys == m.Keys - {key};
    assert |(m - {key}).Keys| == |m - {key}|;
    assert |m.Keys| == |m|;
  }

  lemma InsertSize<K, V>(m: map<K, V>, key: K, value: V)
    ensures |m[key := value]| == if key in m then |m| else |m| + 1
  {
    assert m[key := value].Keys == m.Keys + {key};
    assert |m[key := value].Keys| == |m[key := value]|;
    assert |m.Keys| == |m|;
  }

  /** Storing keeps the bound; every other entry stays as it was, except that a full cache loses
      exactly one, than which no other is older. */
  lemma StoredFits(cache: Cache, key: Key, metrics: Metrics, now: Instant, victim: string)
    requires LegalVictim(cache, victim) && |cache| <= 128 && key !in cache
    ensures var after := Stored(cache, key, metrics, now, victim);
      && |after| == (if |cache| < 128 then |cache| + 1 else 128)
      && key in after && after[key] == Entry(metrics, now)
      && (forall other :: other in after && other != key ==> other in cache && after[other] == cache[other])
      && (forall gone :: gone in cache && gone !in after ==>
            |cache| == 128 && forall other :: other in cache ==> cache[gone].createdAt <= cache[other].createdAt)
  {
    var kept := if |cache| < MAX_ENTRIES then cache else cache - {victim};
    if |cache| == MAX_ENTRIES {
      RemoveSize(cache, victim);
    }
    InsertSize(kept, key, Entry(metrics, now));
  }

  lemma OpenedFlightMatches(
    inFlight: map<Key, FlightId>, flights: map<FlightId, Flight>, nextFlight: FlightId, key: Key, flight: Flight)
    requires FlightsMatch(inFlight, flights, nextFlight)
    requires key !in inFlight && flight.key == key && flight.closes == 0
    ensures FlightsMatch(inFlight[key := nextFlight], flights[nextFlight := flight], nextFlight + 1)
  {
  }

  lemma EnterKeepsFlights(s: State, call: CallId, key: Key)
    requires Coordinated(s)
    ensures Coordinated(EnterStep(s, call, key))
  {
    if key !in s.inFlight {
      OpenedFlightMatches(s.inFlight, s.flights, s.nextFlight, key, Flight(key, call, Err(RouteAborted), 0, 0));
    }
  }

  lemma CallEntered(calls: map<CallId, Call>, flights: map<FlightId, Flight>, resolved: set<Resolution>, id: CallId, call: Call)
    requires CallsResolved(calls, flights, resolved)
    requires call.Waiting? ==> call.flight in flights && flights[call.flight].key == call.key
    requires call.Answered? ==> AnswerResolved(call, flights, resolved)
    ensures CallsResolved(calls[id := call], flights, resolved)
  {
  }

  lemma FlightEntered(
    calls: map<CallId, Call>, flights: map<FlightId, Flight>, resolved: set<Resolution>, id: FlightId, flight: Flight)
    requires CallsResolved(calls, flights, resolved) && FlightsResolved(flights, resolved)
    requires id !in flights && flight.answer.Err?
    ensures CallsResolved(calls, flights[id := flight], resolved) && FlightsResolved(flights[id := flight], resolved)
  {
  }

  lemma EnterKeepsAnswers(s: State, call: CallId, key: Key)
    requires Coordinated(s) && Grounded(s)
    ensures Grounded(EnterStep(s, call, key))
  {
    if call !in s.calls {
      var next := EnterStep(s, call, key);
      if next.flights != s.flights {
        FlightEntered(s.calls, s.flights, s.resolved, s.nextFlight, next.flights[s.nextFlight]);
      }
      CallEntered(s.calls, next.flights, s.resolved, call, next.calls[call]);
    }
  }

  lemma EnterKeepsInv(s: State, call: CallId, key: Key)
    requires Inv(s)
    ensures Inv(EnterStep(s, call, key))
  {
    RemoveSize(s.cache, key);
    EnterKeepsFlights(s, call, key);
    EnterKeepsAnswers(s, call, key);
  }

  lemma ClosedFlightMatches(
    inFlight: map<Key, FlightId>, flights: map<FlightId, Flight>, nextFlight: FlightId, key: Key, id: FlightId, closed: Flight)
    requires FlightsMatch(inFlight, flights, nextFlight)
    requires key in inFlight && inFlight[key] == id && closed.key == key && closed.closes == 1
    ensures FlightsMatch(inFlight - {key}, flights[id := closed], nextFlight)
  {
  }

  lemma ClosedFlightLeaves(
    calls: map<CallId, Call>, inFlight: map<Key, FlightId>, flights: map<FlightId, Flight>,
    call: CallId, closed: Flight, answered: Call)
    requires LeadersMatch(calls, inFlight, flights) && call in calls && calls[call].Leading? && answered.Answered?
    ensures LeadersMatch(calls[call := answered], inFlight - {calls[call].key}, flights[calls[call].flight := closed])
  {
  }

  lemma FinishKeepsFlights(s: State, call: CallId, work: Work, gone: bool, victim: string)
    requires Coordinated(s)
    ensures Coordinated(FinishStep(s, call, work, gone, victim))
  {
    if FinishStep(s, call, work, gone, victim) != s {
      var id := s.calls[call].flight;
      var next := FinishStep(s, call, work, gone, victim);
      ClosedFlightMatches(s.inFlight, s.flights, s.nextFlight, s.calls[call].key, id, next.flights[id]);
      ClosedFlightLeaves(s.calls, s.inFlight, s.flights, call, next.flights[id], next.calls[call]);
    }
  }

  lemma StoreKeepsResolved(
    cache: Cache, key: Key, metrics: Metrics, now: Instant, victim: string, resolved: set<Resolution>)
    requires CacheResolved(cache, resolved) && LegalVictim(cache, victim)
    ensures CacheResolved(Stored(cache, key, metrics, now, victim), resolved + {Resolution(key, metrics, now)})
    ensures CacheResolved(cache, resolved + {Resolution(key, metrics, now)})
  {
  }

  lemma CloseKeepsResolved(flights: map<FlightId, Flight>, resolved: set<Resolution>, more: set<Resolution>, id: FlightId, closed: Flight)
    requires FlightsResolved(flights, resolved) && resolved <= more
    requires closed.answer.Ok? ==> closed.closes == 1 && Resolution(closed.key, closed.answer.value, closed.closedAt) in more
    ensures FlightsResolved(flights[id := closed], more)
  {
  }

  lemma FinishKeepsResolutions(s: State, call: CallId, work: Work, gone: bool, victim: string)
    requires Coordinated(s) && Grounded(s)
    ensures var next := FinishStep(s, call, work, gone, victim);
      CacheResolved(next.cache, next.resolved) && FlightsResolved(next.flights, next.resolved)
  {
    if call in s.calls && s.calls[call].Leading? && LegalVictim(s.cache, victim) {
      var key, id := s.calls[call].key, s.calls[call].flight;
      var next := FinishStep(s, call, work, gone, victim);
      if work.Returns? && work.answer.Ok? {
        StoreKeepsResolved(s.cache, key, work.answer.value, s.now, victim, s.resolved);
      }
      CloseKeepsResolved(s.flights, s.resolved, next.resolved, id, next.flights[id]);
    }
  }

  lemma FinishKeepsAnswers(s: State, call: CallId, work: Work, gone: bool, victim: string)
    requires Coordinated(s) && Grounded(s)
    ensures Grounded(FinishStep(s, call, work, gone, victim))
  {
    FinishKeepsResolutions(s, call, work, gone, victim);
    var next := FinishStep(s, call, work, gone, victim);
    forall other | other in s.calls && s.calls[other].Answered?
      ensures AnswerResolved(s.calls[other], next.flights, next.resolved)
    {
    }
  }

  lemma FinishKeepsInv(s: State, call: CallId, work: Work, gone: bool, victim: string)
    requires Inv(s)
    ensures Inv(FinishStep(s, call, work, gone, victim))
  {
    FinishKeepsFlights(s, call, work, gone, victim);
    FinishKeepsAnswers(s, call, work, gone, victim);
    if call in s.calls && s.calls[call].Leading? && LegalVictim(s.cache, victim) && work.Returns? && work.answer.Ok? {
      StoredFits(s.cache, s.calls[call].key, work.answer.value, s.now, victim);
    }
  }

  lemma StepKeepsInv(s: State, event: Event)
    requires Inv(s)
    ensures Inv(Step(s, event))
  {
    match event
    case Enter(call, key) => EnterKeepsInv(s, call, key);
    case Finish(call, work, gone, victim) => FinishKeepsInv(s, call, work, gone, victim);
    case _ =>
  }

  lemma {:induction false} RunKeepsInv(s: State, events: seq<Event>)
    requires Inv(s)
    ensures Inv(Run(s, events))
    decreases |events|
  {
    if events != [] {
      StepKeepsInv(s, events[0]);
      RunKeepsInv(Step(s, events[0]), events[1..]);
    }
  }

  /** At every moment at most one call resolves the route of a given key. */
  lemma OneLeaderPerKey(events: seq<Event>, first: CallId, second: CallId)
    ensures var end := Run(EMPTY, events);
      (first in end.calls && second in end.calls && end.calls[first].Leading? && end.calls[second].Leading?
       && end.calls[first].key == end.calls[second].key) ==> first == second
  {
    RunKeepsInv(EMPTY, events);
  }

  /** The cache is bounded, and a key is never both cached and being computed. */
  lemma CacheIsBounded(events: seq<Event>)
    ensures |Run(EMPTY, events).cache| <= 128
    ensures Run(EMPTY, events).cache.Keys !! Run(EMPTY, events).inFlight.Keys
  {
    RunKeepsInv(EMPTY, events);
  }

  /** A flight is open and in the table while its leader computes; when the leader is
      through, by return or by panic, it has left the table and was closed exactly once. */
  lemma FlightClosedExactlyOnce(events: seq<Event>, id: FlightId)
    ensures var end := Run(EMPTY, events);
      id in end.flights ==>
        var flight := end.flights[id];
        var leads := flight.leader in end.calls && end.calls[flight.leader] == Leading(flight.key, id);
        && flight.closes == (if leads then 0 else 1)
        && (leads <==> flight.key in end.inFlight && end.inFlight[flight.key] == id)
  {
    RunKeepsInv(EMPTY, events);
  }

  /** Every successful answer was resolved for the very key that was asked, and a cached one
      was younger than the time to live when it was handed out. */
  lemma AnswersWereResolved(events: seq<Event>, call: CallId)
    ensures var end := Run(EMPTY, events);
      call in end.calls && end.calls[call].Answered? ==> AnswerResolved(end.calls[call], end.flights, end.resolved)
  {
    RunKeepsInv(EMPTY, events);
  }

  lemma {:induction false} RunConcat(s: State, first: seq<Event>, second: seq<Event>)
    ensures Run(s, first + second) == Run(Run(s, first), second)
    decreases |first|
  {
    if first == [] {
      assert first + second == second;
    } else {
      assert (first + second)[0] == first[0] && (first + second)[1..] == first[1..] + second;
      RunConcat(Step(s, first[0]), first[1..], second);
    }
  }

  lemma StepKeepsClock(s: State, event: Event)
    requires !event.Tick?
    ensures Step(s, event).now == s.now
  {
  }

  /** The clock moves on and one event happens. */
  lemma RunTimed(events: seq<Event>, seconds: nat, event: Event)
    ensures Run(EMPTY, events + [Tick(seconds), event]) == Step(Step(Run(EMPTY, events), Tick(seconds)), event)
  {
    RunOneMore(events, Tick(seconds));
    RunOneMore(events + [Tick(seconds)], event);
    assert events + [Tick(seconds)] + [event] == events + [Tick(seconds), event];
  }

  lemma RunOneMore(events: seq<Event>, event: Event)
    ensures Run(EMPTY, events + [event]) == Step(Run(EMPTY, events), event)
  {
    RunConcat(EMPTY, events, [event]);
  }

  /** Open flights hold the abort error, and whoever was answered by a flight and had not given up
      has what the flight was closed with. */
  predicate Published(calls: map<CallId, Call>, flights: map<FlightId, Flight>) {
    && (forall id :: id in flights && flights[id].closes == 0 ==> flights[id].answer == Err(RouteAborted))
    && (forall call :: call in calls && calls[call].Answered? && calls[call].source.FromFlight? ==>
          || calls[call].answer == Err(CallerGone)
          || (calls[call].source.flight in flights && flights[calls[call].source.flight].closes == 1
              && flights[calls[call].source.flight].answer == calls[call].answer))
  }

  lemma EnterKeepsPublished(s: State, call: CallId, key: Key)
    requires Coordinated(s) && Published(s.calls, s.flights)
    ensures Published(EnterStep(s, call, key).calls, EnterStep(s, call, key).flights)
  {
  }

  /** Closing a flight that is still open. */
  lemma CloseKeepsPublished(
    calls: map<CallId, Call>, flights: map<FlightId, Flight>, call: CallId, id: FlightId, closed: Flight, answered: Call)
    requires Published(calls, flights) && id in flights && flights[id].closes == 0 && closed.closes == 1
    requires answered.Answered? && answered.source == FromFlight(id) && answered.answer in {Err(CallerGone), closed.answer}
    ensures Published(calls[call := answered], flights[id := closed])
  {
  }

  lemma FinishKeepsPublished(s: State, call: CallId, work: Work, gone: bool, victim: string)
    requires Coordinated(s) && Published(s.calls, s.flights)
    ensures Published(FinishStep(s, call, work, gone, victim).calls, FinishStep(s, call, work, gone, victim).flights)
  {
    if call in s.calls && s.calls[call].Leading? && LegalVictim(s.cache, victim) {
      var id := s.calls[call].flight;
      var next := FinishStep(s, call, work, gone, victim);
      CloseKeepsPublished(s.calls, s.flights, call, id, next.flights[id], next.calls[call]);
    }
  }

  lemma StepKeepsPublished(s: State, event: Event)
    requires Inv(s) && Published(s.calls, s.flights)
    ensures Published(Step(s, event).calls, Step(s, event).flights)
  {
    match event
    case Enter(call, key) => EnterKeepsPublished(s, call, key);
    case Finish(call, work, gone, victim) => FinishKeepsPublished(s, call, work, gone, victim);
    case _ =>
  }

  lemma {:induction false} RunKeepsPublished(s: State, events: seq<Event>)
    requires Inv(s) && Published(s.calls, s.flights)
    ensures Published(Run(s, events).calls, Run(s, events).flights)
    decreases |events|
  {
    if events != [] {
      StepKeepsInv(s, events[0]);
      StepKeepsPublished(s, events[0]);
      RunKeepsPublished(Step(s, events[0]), events[1..]);
    }
  }

  predicate ClosedStay(before: map<FlightId, Flight>, after: map<FlightId, Flight>) {
    forall id :: id in before && before[id].closes == 1 ==> id in after && after[id] == before[id]
  }

  predicate AnswersStay(before: map<CallId, Call>, after: map<CallId, Call>) {
    forall call :: call in before && before[call].Answered? ==> call in after && after[call] == before[call]
  }

  lemma EnterKeepsResults(s: State, call: CallId, key: Key)
    requires Coordinated(s)
    ensures ClosedStay(s.flights, EnterStep(s, call, key).flights) && AnswersStay(s.calls, EnterStep(s, call, key).calls)
  {
  }

  lemma FinishKeepsResults(s: State, call: CallId, work: Work, gone: bool, victim: string)
    requires Coordinated(s)
    ensures var next := FinishStep(s, call, work, gone, victim); ClosedStay(s.flights, next.flights) && AnswersStay(s.calls, next.calls)
  {
  }

  /** A closed flight and a given answer never change. */
  lemma StepKeepsResults(s: State, event: Event)
    requires Coordinated(s)
    ensures ClosedStay(s.flights, Step(s, event).flights) && AnswersStay(s.calls, Step(s, event).calls)
  {
    match event
    case Enter(call, key) => EnterKeepsResults(s, call, key);
    case Finish(call, work, gone, victim) => FinishKeepsResults(s, call, work, gone, victim);
    case _ =>
  }

  lemma {:induction false} RunKeepsResults(s: State, events: seq<Event>)
    requires Inv(s)
    ensures ClosedStay(s.flights, Run(s, events).flights) && AnswersStay(s.calls, Run(s, events).calls)
    decreases |events|
  {
    if events != [] {
      StepKeepsInv(s, events[0]);
      StepKeepsResults(s, events[0]);
      RunKeepsResults(Step(s, events[0]), events[1..]);
    }
  }

  /** What the resolver's end makes of a flight: its result, or the abort error after a panic. */
  function ResultOf(work: Work): (answer: Answer)
    ensures work.Returns? ==> answer == work.answer
    ensures work.Panics? ==> answer == Err(RouteAborted)
  {
    match work
    case Returns(answer) => answer
    case Panics => Err(RouteAborted)
  }

  /** When the leader is through, its flight holds the result; the leader has it too unless its
      caller is gone; and a successful result is in the cache, as of now. */
  lemma FinishPublishes(s: State, call: CallId, work: Work, gone: bool, victim: string)
    requires Inv(s) && Published(s.calls, s.flights) && LegalVictim(s.cache, victim)
    requires call in s.calls && s.calls[call].Leading?
    ensures var next := FinishStep(s, call, work, gone, victim);
      var key, id := s.calls[call].key, s.calls[call].flight;
      && id in next.flights && next.flights[id].answer == ResultOf(work) && next.flights[id].closes == 1
      && call in next.calls
      && next.calls[call] == Answered(key, if gone && work.Returns? then Err(CallerGone) else ResultOf(work), FromFlight(id))
      && (ResultOf(work).Ok? ==> key in next.cache && next.cache[key] == Entry(ResultOf(work).value, s.now))
      && (ResultOf(work).Err? ==> next.cache == s.cache)
  {
  }

  /** In every schedule: what the resolver returned to a leader is what the flight holds ever
      after, what the leader was answered, and what everybody who waited for the flight was
      answered, except those who were gone. */
  lemma LeaderPublishes(events: seq<Event>, n: nat, other: CallId)
    requires n < |events| && events[n].Finish?
    requires var before := Run(EMPTY, events[..n]);
      events[n].call in before.calls && before.calls[events[n].call].Leading? && LegalVictim(before.cache, events[n].victim)
    ensures var before, end := Run(EMPTY, events[..n]), Run(EMPTY, events);
      var id, result := before.calls[events[n].call].flight, ResultOf(events[n].work);
      && id in end.flights && end.flights[id].answer == result
      && events[n].call in end.calls
      && end.calls[events[n].call] == Answered(before.calls[events[n].call].key,
           if events[n].gone && events[n].work.Returns? then Err(CallerGone) else result, FromFlight(id))
      && (other in end.calls && end.calls[other].Answered? && end.calls[other].source == FromFlight(id) ==>
            end.calls[other].answer in {result, Err(CallerGone)})
  {
    var before := Run(EMPTY, events[..n]);
    RunKeepsInv(EMPTY, events[..n]);
    RunKeepsPublished(EMPTY, events[..n]);
    assert events == events[..n] + events[n..] && events[n..][0] == events[n];
    RunConcat(EMPTY, events[..n], events[n..]);
    FinishedForGood(before, events[n], events[n..][1..], other);
  }

  lemma FinishedForGood(before: State, event: Event, later: seq<Event>, other: CallId)
    requires Inv(before) && Published(before.calls, before.flights) && event.Finish?
    requires event.call in before.calls && before.calls[event.call].Leading? && LegalVictim(before.cache, event.victim)
    ensures var end := Run(Step(before, event), later);
      var id, result := before.calls[event.call].flight, ResultOf(event.work);
      && id in end.flights && end.flights[id].answer == result
      && event.call in end.calls
      && end.calls[event.call] == Answered(before.calls[event.call].key,
           if event.gone && event.work.Returns? then Err(CallerGone) else result, FromFlight(id))
      && (other in end.calls && end.calls[other].Answered? && end.calls[other].source == FromFlight(id) ==>
            end.calls[other].answer in {result, Err(CallerGone)})
  {
    var next := Step(before, event);
    FinishPublishes(before, event.call, event.work, event.gone, event.victim);
    StepKeepsInv(before, event);
    StepKeepsPublished(before, event);
    RunKeepsResults(next, later);
    RunKeepsPublished(next, later);
  }

  /** While a call leads, its flight is open and holds the abort error. */
  lemma LedFlightIsOpen(events: seq<Event>, call: CallId)
    ensures var s := Run(EMPTY, events);
      call in s.calls && s.calls[call].Leading? ==>
        && s.calls[call].flight in s.flights && s.flights[s.calls[call].flight].closes == 0
        && s.flights[s.calls[call].flight].answer == Err(RouteAborted)
  {
    RunKeepsInv(EMPTY, events);
    RunKeepsPublished(EMPTY, events);
  }

  /** A caller gets an entry younger than fifteen seconds at once; otherwise it joins the flight of
      the key, or leads a new one, and an entry that is too old is gone. */
  lemma EnteringIsExact(s: State, call: CallId, key: Key)
    requires call !in s.calls
    ensures var next := Step(s, Enter(call, key));
      var usable := key in s.cache && s.now < s.cache[key].createdAt + 15;
      && next.cache == (if usable then s.cache else s.cache - {key})
      && call in next.calls
      && (usable ==>
            next.calls[call] == Answered(key, Ok(s.cache[key].metrics), FromCache(s.cache[key].createdAt, s.now))
            && next.inFlight == s.inFlight && next.flights == s.flights)
      && (!usable && key in s.inFlight ==>
            next.calls[call] == Waiting(key, s.inFlight[key]) && next.inFlight == s.inFlight && next.flights == s.flights)
      && (!usable && key !in s.inFlight ==>
            next.calls[call].Leading? && next.calls[call].key == key
            && next.inFlight == s.inFlight[key := next.calls[call].flight]
            && next.calls[call].flight in next.flights
            && next.flights[next.calls[call].flight].key == key && next.flights[next.calls[call].flight].leader == call)
    ensures forall seconds: nat :: Step(s, Tick(seconds)) == s.(now := s.now + seconds)
  {
  }

  /** A caller that no longer waits was answered by its flight, or had given up. */
  lemma WaitersAreAnswered(s: State, call: CallId)
    requires call in s.calls && s.calls[call].Waiting?
    ensures var key, id := s.calls[call].key, s.calls[call].flight;
      && (id in s.flights && 0 < s.flights[id].closes ==>
            call in Step(s, Wake(call)).calls && Step(s, Wake(call)).calls[call] == Answered(key, s.flights[id].answer, FromFlight(id)))
      && (id !in s.flights || s.flights[id].closes == 0 ==> Step(s, Wake(call)) == s)
      && call in Step(s, GiveUp(call)).calls
      && Step(s, GiveUp(call)).calls[call] == Answered(key, Err(CallerGone), FromFlight(id))
  {
  }

  /** What the first critical section tells its caller to do. */
  datatype Begun = Hit(metrics: Metrics) | Join(flight: FlightId) | Lead(flight: FlightId)

  /** The service's guarded fields; each method is one critical section, or the end of a wait.
      The fields are what the history of sections made of empty ones. */
  class BookingService {
    var fareRouteCache: Cache
    var fareRouteFlights: map<Key, FlightId>
    var flights: map<FlightId, Flight>
    var nextFlight: FlightId
    ghost var calls: map<CallId, Call>
    ghost var resolved: set<Resolution>

    ghost var clock: Instant
    ghost var history: seq<Event>

    ghost function View(): State
      reads this
    {
      State(clock, fareRouteCache, fareRouteFlights, flights, nextFlight, calls, resolved)
    }

    ghost predicate Valid()
      reads this
    {
      View() == Run(EMPTY, history)
    }

    constructor ()
      ensures Valid() && history == [] && clock == 0
    {
      fareRouteCache, fareRouteFlights, flights, nextFlight := map[], map[], map[], 0;
      calls, resolved, clock, history := map[], {}, 0, [];
    }

    /** Accounts for a section that ran at `now`. */
    ghost method Record(before: State, now: Instant, event: Event)
      requires before == Run(EMPTY, history) && before.now <= now && !event.Tick?
      requires View().(now := now) == Step(before.(now := now), event)
      modifies this`clock, this`history
      ensures Valid() && history == old(history) + [Tick(now - before.now), event] && clock == now
    {
      RunTimed(history, now - before.now, event);
      assert Step(before, Tick(now - before.now)) == before.(now := now);
      StepKeepsClock(before.(now := now), event);
      history := history + [Tick(now - before.now), event];
      clock := now;
    }

    method BeginResolve(call: CallId, key: Key, now: Instant) returns (begun: Begun)
      requires Valid() && call !in calls && clock <= now
      modifies this
      ensures Valid() && history == old(history) + [Tick(now - old(clock)), Enter(call, key)]
      ensures match begun
        case Hit(metrics) => call in calls && calls[call].Answered? && calls[call].answer == Ok(metrics)
        case Join(flight) => call in calls && calls[call] == Waiting(key, flight)
        case Lead(flight) => call in calls && calls[call] == Leading(key, flight)
      ensures var usable := key in old(fareRouteCache) && now < old(fareRouteCache)[key].createdAt + 15;
        && (usable ==> begun == Hit(old(fareRouteCache)[key].metrics))
        && (!usable && key in old(fareRouteFlights) ==> begun == Join(old(fareRouteFlights)[key]))
        && (!usable && key !in old(fareRouteFlights) ==> begun.Lead?)
    {
      ghost var before := View();
      begun := Look(call, key, now);
      Record(before, now, Enter(call, key));
    }

    method Look(call: CallId, key: Key, now: Instant) returns (begun: Begun)
      requires call !in calls
      modifies this`fareRouteCache, this`fareRouteFlights, this`flights, this`nextFlight, this`calls
      ensures View().(now := now) == EnterStep(old(View()).(now := now), call, key)
      ensures match begun
        case Hit(metrics) => call in calls && calls[call].Answered? && calls[call].answer == Ok(metrics)
        case Join(flight) => call in calls && calls[call] == Waiting(key, flight)
        case Lead(flight) => call in calls && calls[call] == Leading(key, flight)
      ensures var usable := key in old(fareRouteCache) && now < old(fareRouteCache)[key].createdAt + 15;
        && (usable ==> begun == Hit(old(fareRouteCache)[key].metrics))
        && (!usable && key in old(fareRouteFlights) ==> begun == Join(old(fareRouteFlights)[key]))
        && (!usable && key !in old(fareRouteFlights) ==> begun.Lead?)
    {
      if key in fareRouteCache {
        var entry := fareRouteCache[key];
        if now < entry.createdAt + TTL {
          calls := calls[call := Answered(key, Ok(entry.metrics), FromCache(entry.createdAt, now))];
          return Hit(entry.metrics);
        }
      }
      fareRouteCache := fareRouteCache - {key};
      if key in fareRouteFlights {
        calls := calls[call := Waiting(key, fareRouteFlights[key])];
        return Join(fareRouteFlights[key]);
      }
      var flight := nextFlight;
      fareRouteFlights := fareRouteFlights[key := flight];
      flights := flights[flight := Flight(key, call, Err(RouteAborted), 0, 0)];
      nextFlight := nextFlight + 1;
      calls := calls[call := Leading(key, flight)];
      begun := Lead(flight);
    }

    /** The end of a wait: the flight's channel is closed, or the caller is gone. */
    method Await(call: CallId, key: Key, id: FlightId, gone: bool, now: Instant) returns (answer: Answer)
      requires Valid() && clock <= now && call in calls && calls[call] == Waiting(key, id)
      requires gone || (id in flights && 0 < flights[id].closes)
      modifies this
      ensures Valid() && history == old(history) + [Tick(now - old(clock)), if gone then GiveUp(call) else Wake(call)]
      ensures call in calls && calls[call] == Answered(key, answer, FromFlight(id))
      ensures gone ==> answer == Err(CallerGone)
      ensures !gone ==> id in old(flights) && answer == old(flights)[id].answer
      ensures answer.Ok? ==> exists at :: Resolution(key, answer.value, at) in resolved
    {
      ghost var before := View();
      answer := if gone then Err(CallerGone) else flights[id].answer;
      calls := calls[call := Answered(key, answer, FromFlight(id))];
      Record(before, now, if gone then GiveUp(call) else Wake(call));
      AnswersWereResolved(history, call);
    }

    method StoreFareRouteLocked(key: Key, metrics: Metrics, now: Instant) returns (ghost victim: string)
      modifies `fareRouteCache
      ensures LegalVictim(old(fareRouteCache), victim)
      ensures fareRouteCache == Stored(old(fareRouteCache), key, metrics, now, victim)
    {
      victim := "";
      if MAX_ENTRIES <= |fareRouteCache| {
        var oldestKey: string := "";
        var oldest: Instant := 0;
        var pending := fareRouteCache.Keys;
        while pending != {}
          invariant pending <= fareRouteCache.Keys
          invariant oldestKey == "" <==> pending == fareRouteCache.Keys
          invariant oldestKey != "" ==> oldestKey in fareRouteCache && oldest == fareRouteCache[oldestKey].createdAt
          invariant oldestKey != "" ==>
            forall other :: other in fareRouteCache.Keys - pending ==> oldest <= fareRouteCache[other].createdAt
          decreases pending
        {
          var candidate :| candidate in pending;
          pending := pending - {candidate};
          if oldestKey == "" || fareRouteCache[candidate].createdAt < oldest {
            oldestKey := candidate;
            oldest := fareRouteCache[candidate].createdAt;
          }
        }
        victim := oldestKey;
        assert fareRouteCache.Keys != {};
        fareRouteCache := fareRouteCache - {oldestKey};
      }
      fareRouteCache := fareRouteCache[key := Entry(metrics, now)];
    }

    /** The leader's deferred section; `work` says how the resolver ended. */
    method EndResolve(call: CallId, key: Key, id: FlightId, work: Work, gone: bool, now: Instant)
      returns (answer: Answer, ghost victim: string)
      requires Valid() && clock <= now
      requires call in calls && calls[call] == Leading(key, id) && id in flights && flights[id].key == key
      modifies this
      ensures Valid() && history == old(history) + [Tick(now - old(clock)), Finish(call, work, gone, victim)]
      ensures LegalVictim(old(fareRouteCache), victim)
      ensures call in calls && calls[call] == Answered(key, answer, FromFlight(id))
      ensures answer == if work.Panics? then Err(RouteAborted) else if gone then Err(CallerGone) else work.answer
      ensures key !in fareRouteFlights && id in flights && flights[id].closes == 1
      ensures flights[id].answer == if work.Panics? then Err(RouteAborted) else work.answer
      ensures work.Returns? && work.answer.Ok? ==> key in fareRouteCache && fareRouteCache[key] == Entry(work.answer.value, now)
      ensures work.Panics? || work.answer.Err? ==> fareRouteCache == old(fareRouteCache)
      ensures answer.Ok? ==> exists at :: Resolution(key, answer.value, at) in resolved
    {
      ghost var before := View();
      LedFlightIsOpen(history, call);
      answer, victim := CloseFlight(call, key, id, work, gone, now);
      Record(before, now, Finish(call, work, gone, victim));
      AnswersWereResolved(history, call);
    }

    method CloseFlight(call: CallId, key: Key, id: FlightId, work: Work, gone: bool, now: Instant)
      returns (answer: Answer, ghost victim: string)
      requires call in calls && calls[call] == Leading(key, id) && id in flights && flights[id].key == key
      modifies this`fareRouteCache, this`fareRouteFlights, this`flights, this`calls, this`resolved
      ensures LegalVictim(old(fareRouteCache), victim)
      ensures View().(now := now) == FinishStep(old(View()).(now := now), call, work, gone, victim)
      ensures call in calls && calls[call] == Answered(key, answer, FromFlight(id))
      ensures key !in fareRouteFlights && id in flights && flights[id].closes == old(flights)[id].closes + 1
      ensures flights[id].answer == if work.Panics? then old(flights)[id].answer else work.answer
      ensures answer == if work.Returns? && gone then Err(CallerGone) else flights[id].answer
      ensures work.Returns? && work.answer.Ok? ==> key in fareRouteCache && fareRouteCache[key] == Entry(work.answer.value, now)
      ensures work.Panics? || work.answer.Err? ==> fareRouteCache == old(fareRouteCache)
    {
      victim := "";
      var flight := flights[id];
      fareRouteFlights := fareRouteFlights - {key};
      if work.Returns? {
        flight := flight.(answer := work.answer);
        if work.answer.Ok? {
          victim := StoreFareRouteLocked(key, work.answer.value, now);
          resolved := resolved + {Resolution(key, work.answer.value, now)};
        } else {
          victim := AnyVictim(fareRouteCache);
        }
      } else {
        victim := AnyVictim(fareRouteCache);
      }
      flights := flights[id := flight.(closes := flight.closes + 1, closedAt := now)];
      answer := if gone && work.Returns? then Err(CallerGone) else flight.answer;
      calls := calls[call := Answered(key, answer, FromFlight(id))];
    }
  }
}
