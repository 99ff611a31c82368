/** What holds over whole runs of the dispatch transactions. */
module DispatchSafety {

  import opened Common
  import opened Fares
  import RidePolicy
  import opened Dispatch
  import opened DispatchInvariant

  function OpenSessions(sessions: Sessions, passenger: UserId): set<SessionId> {
    set id | id in sessions && sessions[id].passenger == passenger && sessions[id].status == Open
  }

  function OngoingRides(rides: Rides, passenger: UserId): set<RideId> {
    set ride | ride in rides && rides[ride].passenger == passenger && RidePolicy.IsActive(rides[ride].status)
  }

  function ChosenOffers(offers: Offers, session: SessionId): set<OfferId> {
    set id | id in offers && offers[id].session == session && offers[id].status == Chosen
  }

  function PendingOffers(offers: Offers, session: SessionId): set<OfferId> {
    set id | id in offers && offers[id].session == session && offers[id].status == Pending
  }

  function RidesFor(rides: Rides, session: SessionId): set<RideId> {
    set ride | ride in rides && rides[ride].session == Some(session)
  }

  /** A set any two members of which are equal has at most one. */
  lemma AtMostOne<T>(items: set<T>)
    requires forall first, second :: first in items && second in items ==> first == second
    ensures |items| <= 1
  {
    if items != {} {
      var item :| item in items;
      assert items == {item};
    }
  }

  /** Across both tables a passenger has at most one booking. */
  lemma OneBookingPerPassenger(now: Instant, commissionBps: Int64, events: seq<Event>, passenger: UserId)
    ensures var s := Run(Empty(now, commissionBps), events);
      |OpenSessions(s.sessions, passenger)| + |OngoingRides(s.rides, passenger)| <= 1
  {
    var s := Run(Empty(now, commissionBps), events);
    EmptyIsFine(now, commissionBps);
    RunKeepsInv(Empty(now, commissionBps), events);
    AtMostOne(OpenSessions(s.sessions, passenger));
    AtMostOne(OngoingRides(s.rides, passenger));
    BookingsExclude(s.sessions, s.rides, passenger);
  }

  lemma BookingsExclude(sessions: Sessions, rides: Rides, passenger: UserId)
    requires OneBooking(sessions, rides)
    ensures OpenSessions(sessions, passenger) == {} || OngoingRides(rides, passenger) == {}
  {
  }

  /** The accepted driver, offer, ride and settlement of a won session tell one story. */
  predicate Agreement(session: Session, offer: Offer, ride: Ride, settlement: Settlement) {
    && session.accepted == Some(offer.driver)
    && (session.target.Some? ==> session.target.value == offer.driver)
    && ride.driver == Some(offer.driver)
    && ride.passenger == session.passenger
    && ride.fare == offer.fare == settlement.fare
    && settlement.commission + settlement.payout == offer.fare
    && 0 <= settlement.commission <= offer.fare
  }

  /** A session is won exactly when it has exactly one chosen offer and exactly one ride;
      otherwise it has neither. A session closed by anything but a decline has no pending offer. */
  lemma WonMeansOneOfferOneRide(now: Instant, commissionBps: Int64, events: seq<Event>, session: SessionId)
    requires session in Run(Empty(now, commissionBps), events).sessions
    ensures var s := Run(Empty(now, commissionBps), events);
      var row := s.sessions[session];
      && |ChosenOffers(s.offers, session)| == |RidesFor(s.rides, session)| == (if row.status == Won then 1 else 0)
      && (forall offer, ride :: offer in ChosenOffers(s.offers, session) && ride in RidesFor(s.rides, session) ==>
            ride in s.settlements && Agreement(row, s.offers[offer], s.rides[ride], s.settlements[ride]))
      && (row.status in {Won, Withdrawn, Expired} ==> PendingOffers(s.offers, session) == {})
  {
    var s := Run(Empty(now, commissionBps), events);
    EmptyIsFine(now, commissionBps);
    RunKeepsInv(Empty(now, commissionBps), events);
    if s.sessions[session].status in {Won, Withdrawn, Expired} {
      NoPendingOnceClosed(s.sessions, s.offers, session);
    }
    WonOfferAndRide(s, session);
  }

  lemma NoPendingOnceClosed(sessions: Sessions, offers: Offers, session: SessionId)
    requires OffersOk(offers, sessions) && session in sessions && sessions[session].status in {Won, Withdrawn, Expired}
    ensures PendingOffers(offers, session) == {}
  {
    forall offer | offer in offers && offers[offer].session == session
      ensures offers[offer].status != Pending
    {
      assert OfferFits(offers[offer], sessions);
    }
  }

  lemma WonOfferAndRide(s: State, session: SessionId)
    requires session in s.sessions
    requires OffersOk(s.offers, s.sessions) && WinnersOk(s.winner, s.offers, s.sessions)
    requires BookingsOk(s.rideOf, s.winner, s.offers, s.sessions, s.rides) && SettlementsOk(s.settlements, s.rides)
    ensures session in s.winner ==>
      && session in s.rideOf && s.rideOf[session] in s.rides && s.rideOf[session] in s.settlements
      && ChosenOffers(s.offers, session) == {s.winner[session]} && RidesFor(s.rides, session) == {s.rideOf[session]}
      && Agreement(s.sessions[session], s.offers[s.winner[session]], s.rides[s.rideOf[session]], s.settlements[s.rideOf[session]])
    ensures session !in s.winner ==> ChosenOffers(s.offers, session) == {} && RidesFor(s.rides, session) == {}
    ensures session in s.winner <==> s.sessions[session].status == Won
  {
    if session in s.winner {
      assert OfferFits(s.offers[s.winner[session]], s.sessions);
      assert BookingAgrees(s.rides[s.rideOf[session]], s.sessions[session], s.offers[s.winner[session]]);
    }
  }

  /** Nobody drives more than five rides at once, and no driver has two pending offers on one session. */
  lemma DriversStayWithinLimits(now: Instant, commissionBps: Int64, events: seq<Event>, session: SessionId, driver: UserId)
    ensures var s := Run(Empty(now, commissionBps), events);
      && |ActiveRides(s.rides, driver)| <= 5
      && |PendingOffers(s.offers, session) * OffersBy(s.offers, driver)| <= 1
  {
    var s := Run(Empty(now, commissionBps), events);
    EmptyIsFine(now, commissionBps);
    RunKeepsInv(Empty(now, commissionBps), events);
    AtMostOne(PendingOffers(s.offers, session) * OffersBy(s.offers, driver));
  }

  /** A driver at the limit has no pending offer anywhere. */
  predicate FullDriversIdle(offers: Offers, rides: Rides) {
    forall id :: id in offers && offers[id].status == Pending ==> |ActiveRides(rides, offers[id].driver)| < MAX_ACTIVE_RIDES
  }

  predicate HasPending(offers: Offers, driver: UserId) {
    exists id :: id in offers && offers[id].driver == driver && offers[id].status == Pending
  }

  /** The direct path, which never looks at the driver's offers, must not fill up a driver
      who still has one pending. */
  predicate Harmless(s: State, event: Event) {
    event.AcceptRide? && CanTake(s, event.ride, event.driver, event.online) ==>
      |ActiveRides(s.rides, event.driver)| + 1 < MAX_ACTIVE_RIDES || !HasPending(s.offers, event.driver)
  }

  /** Offers only left the pending status, and the drivers of those still pending did not take a ride. */
  predicate NoBusier(offers: Offers, after: Offers, rides: Rides, ridesAfter: Rides) {
    forall id :: id in after && after[id].status == Pending ==>
      && id in offers && offers[id] == after[id]
      && ActiveRides(ridesAfter, after[id].driver) <= ActiveRides(rides, after[id].driver)
  }

  lemma NoBusierKeeps(offers: Offers, after: Offers, rides: Rides, ridesAfter: Rides)
    requires FullDriversIdle(offers, rides) && NoBusier(offers, after, rides, ridesAfter)
    ensures FullDriversIdle(after, ridesAfter)
  {
    forall id | id in after && after[id].status == Pending
      ensures |ActiveRides(ridesAfter, after[id].driver)| < MAX_ACTIVE_RIDES
    {
      SmallerSet(ActiveRides(ridesAfter, after[id].driver), ActiveRides(rides, after[id].driver));
    }
  }

  lemma {:induction false} SmallerSet<T>(small: set<T>, large: set<T>)
    requires small <= large
    ensures |small| <= |large|
  {
    assert large == small + (large - small);
  }

  lemma ActiveSize(rides: Rides, ride: RideId, row: Ride, driver: UserId)
    requires ride in rides ==> !Driving(rides[ride], driver)
    ensures |ActiveRides(rides[ride := row], driver)| == |ActiveRides(rides, driver)| + if Driving(row, driver) then 1 else 0
  {
    ActiveRidesAfter(rides, ride, row, driver);
    assert ride !in ActiveRides(rides, driver);
    assert ActiveRides(rides, driver) - {ride} == ActiveRides(rides, driver);
  }

  lemma DirectRideFillsDriver(s: State, ride: RideId, driver: UserId)
    requires FullDriversIdle(s.offers, s.rides) && CanTake(s, ride, driver, true)
    ensures FullDriversIdle(s.offers, AcceptRideStep(s, ride, driver, true).rides)
            <==> |ActiveRides(s.rides, driver)| + 1 < MAX_ACTIVE_RIDES || !HasPending(s.offers, driver)
  {
    var row := s.rides[ride].(driver := Some(driver), status := RidePolicy.Accepted);
    var after := s.rides[ride := row];
    ActiveSize(s.rides, ride, row, driver);
    forall other | other != driver
      ensures |ActiveRides(after, other)| <= |ActiveRides(s.rides, other)|
    {
      ActiveRidesAfter(s.rides, ride, row, other);
      SmallerSet(ActiveRides(after, other), ActiveRides(s.rides, other));
    }
  }

  lemma AcceptedOfferLeavesFullDriversIdle(s: State, session: SessionId, offer: OfferId, passenger: UserId, ride: RideId)
    requires FullDriversIdle(s.offers, s.rides) && CanAccept(s, session, offer, passenger, true, ride)
    ensures var after := Accepted(s, session, offer, passenger, ride); FullDriversIdle(after.offers, after.rides)
  {
    var driver := s.offers[offer].driver;
    var after := Accepted(s, session, offer, passenger, ride);
    var row := after.rides[ride];
    ActiveSize(s.rides, ride, row, driver);
    forall id | id in after.offers && after.offers[id].status == Pending
      ensures |ActiveRides(after.rides, after.offers[id].driver)| < MAX_ACTIVE_RIDES
    {
      assert s.offers[id] == after.offers[id];
      if after.offers[id].driver != driver {
        ActiveSize(s.rides, ride, row, after.offers[id].driver);
      }
    }
  }

  lemma PlacedOfferLeavesFullDriversIdle(s: State, offer: OfferId, session: SessionId, driver: UserId, proposed: Int64, online: bool)
    requires FullDriversIdle(s.offers, s.rides)
    ensures FullDriversIdle(PlaceOfferStep(s, offer, session, driver, proposed, online).offers, s.rides)
  {
  }

  lemma RideWriteLeavesFullDriversIdle(offers: Offers, rides: Rides, ride: RideId, row: Ride)
    requires FullDriversIdle(offers, rides)
    requires forall driver :: Driving(row, driver) ==> ride in rides && Driving(rides[ride], driver)
    ensures FullDriversIdle(offers, rides[ride := row])
  {
    forall id | id in offers && offers[id].status == Pending
      ensures ActiveRides(rides[ride := row], offers[id].driver) <= ActiveRides(rides, offers[id].driver)
    {
      ActiveRidesAfter(rides, ride, row, offers[id].driver);
    }
    NoBusierKeeps(offers, offers, rides, rides[ride := row]);
  }

  lemma StepLeavesFullDriversIdle(s: State, event: Event)
    requires FullDriversIdle(s.offers, s.rides)
    ensures FullDriversIdle(Step(s, event).offers, Step(s, event).rides) <==> Harmless(s, event)
  {
    match event
    case AcceptRide(ride, driver, online) =>
      if CanTake(s, ride, driver, online) {
        DirectRideFillsDriver(s, ride, driver);
      }
    case AcceptOffer(session, offer, passenger, online, ride) =>
      if CanAccept(s, session, offer, passenger, online, ride) {
        AcceptedOfferLeavesFullDriversIdle(s, session, offer, passenger, ride);
      }
    case PlaceOffer(offer, session, driver, proposed, online) =>
      PlacedOfferLeavesFullDriversIdle(s, offer, session, driver, proposed, online);
    case MoveRide(ride, next) =>
      if CanMove(s.rides, ride, next) {
        RideWriteLeavesFullDriversIdle(s.offers, s.rides, ride, s.rides[ride].(status := next));
      }
    case CreateRide(ride, passenger, fare) =>
      var after := Step(s, event);
      NoBusierKeeps(s.offers, after.offers, s.rides, s.rides);
      if after.rides != s.rides {
        RideWriteLeavesFullDriversIdle(after.offers, s.rides, ride, Ride(passenger, None, fare, None, RidePolicy.Requested));
      }
    case _ => NoBusierKeeps(s.offers, Step(s, event).offers, s.rides, s.rides);
  }

  /** The property in this state and after every step of the run. */
  predicate IdleThroughout(s: State, events: seq<Event>)
    decreases |events|
  {
    FullDriversIdle(s.offers, s.rides) && (events != [] ==> IdleThroughout(Step(s, events[0]), events[1..]))
  }

  predicate HarmlessRun(s: State, events: seq<Event>)
    decreases |events|
  {
    events != [] ==> Harmless(s, events[0]) && HarmlessRun(Step(s, events[0]), events[1..])
  }

  /** Drivers at the limit stay without pending offers exactly as long as no direct acceptance
      fills up a driver who has one. */
  lemma {:induction false} FullDriversIdleExactlyWhenHarmless(s: State, events: seq<Event>)
    requires FullDriversIdle(s.offers, s.rides)
    ensures IdleThroughout(s, events) <==> HarmlessRun(s, events)
    decreases |events|
  {
    if events != [] {
      StepLeavesFullDriversIdle(s, events[0]);
      if Harmless(s, events[0]) {
        FullDriversIdleExactlyWhenHarmless(Step(s, events[0]), events[1..]);
      }
    }
  }

  /** The withdrawal rejects the session's pending offers, and no others, whoever asks. It does
      so without touching a session exactly when the caller has no open session of that id. */
  lemma WithdrawalClearsOffersRegardless(s: State, session: SessionId, passenger: UserId)
    ensures var after := CancelBidStep(s, session, passenger);
      && after.offers.Keys == s.offers.Keys
      && (forall id :: id in s.offers ==> after.offers[id] == if id in PendingOffers(s.offers, session) then s.offers[id].(status := Rejected) else s.offers[id])
      && (after.sessions == s.sessions <==> session !in OpenSessions(s.sessions, passenger))
  {
    if session in OpenSessions(s.sessions, passenger) {
      assert CancelBidStep(s, session, passenger).sessions[session].status == Withdrawn;
    }
  }
}
