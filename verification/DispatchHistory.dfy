/** How rows may change from one state of a run to any later one, and what follows for
    repeated acceptances and for fares. */
module DispatchHistory {

  import opened Common
  import opened Fares
  import RidePolicy
  import opened Dispatch
  import opened DispatchInvariant
  import opened DispatchSafety

  /** The terms of a session never change, and once it is not open nothing about it does. */
  predicate SessionEvolves(before: Session, after: Session) {
    && after.passenger == before.passenger && after.offered == before.offered
    && after.target == before.target && after.expiresAt == before.expiresAt
    && (before.status != Open ==> after == before)
  }

  predicate SessionsEvolve(before: Sessions, after: Sessions) {
    forall id :: id in before ==> id in after && SessionEvolves(before[id], after[id])
  }

  /** An offer only ever leaves the pending status. */
  predicate OfferEvolves(before: Offer, after: Offer) {
    after == before || (before.status == Pending && after == before.(status := after.status))
  }

  predicate OffersEvolve(before: Offers, after: Offers) {
    forall id :: id in before ==> id in after && OfferEvolves(before[id], after[id])
  }

  /** Offers are only added to sessions that are open. */
  predicate OffersJoinOpen(sessions: Sessions, before: Offers, after: Offers) {
    forall id :: id in after && id !in before && after[id].session in sessions ==> sessions[after[id].session].status == Open
  }

  /** Rides and settlements are never lost; a finished ride is frozen. */
  predicate RideEvolves(before: Ride, after: Ride) {
    && after.passenger == before.passenger && after.fare == before.fare && after.session == before.session
    && (before.driver.Some? ==> after.driver == before.driver)
    && (after == before || RidePolicy.Rank(before.status) < RidePolicy.Rank(after.status))
  }

  predicate RidesEvolve(before: Rides, after: Rides) {
    forall ride :: ride in before ==> ride in after && RideEvolves(before[ride], after[ride])
  }

  predicate SettlementsEvolve(before: map<RideId, Settlement>, after: map<RideId, Settlement>) {
    forall ride :: ride in before ==> ride in after && after[ride] == before[ride]
  }

  predicate Evolves(s: State, t: State) {
    && s.commissionBps == t.commissionBps
    && SessionsEvolve(s.sessions, t.sessions)
    && OffersEvolve(s.offers, t.offers) && OffersJoinOpen(s.sessions, s.offers, t.offers)
    && RidesEvolve(s.rides, t.rides) && SettlementsEvolve(s.settlements, t.settlements)
  }

  lemma EvolvesTransitively(s: State, t: State, u: State)
    requires Evolves(s, t) && Evolves(t, u)
    ensures Evolves(s, u)
  {
    forall id | id in s.sessions
      ensures id in u.sessions && SessionEvolves(s.sessions[id], u.sessions[id])
    {
      assert SessionEvolves(s.sessions[id], t.sessions[id]) && SessionEvolves(t.sessions[id], u.sessions[id]);
    }
    forall id | id in s.offers
      ensures id in u.offers && OfferEvolves(s.offers[id], u.offers[id])
    {
      assert OfferEvolves(s.offers[id], t.offers[id]) && OfferEvolves(t.offers[id], u.offers[id]);
    }
    forall ride | ride in s.rides
      ensures ride in u.rides && RideEvolves(s.rides[ride], u.rides[ride])
    {
      assert RideEvolves(s.rides[ride], t.rides[ride]) && RideEvolves(t.rides[ride], u.rides[ride]);
    }
    NewcomersJoinOpen(s.sessions, t.sessions, s.offers, t.offers, u.offers);
  }

  lemma NewcomersJoinOpen(sessions: Sessions, later: Sessions, first: Offers, second: Offers, third: Offers)
    requires SessionsEvolve(sessions, later) && OffersEvolve(second, third)
    requires OffersJoinOpen(sessions, first, second) && OffersJoinOpen(later, second, third)
    ensures OffersJoinOpen(sessions, first, third)
  {
    forall id | id in third && id !in first && third[id].session in sessions
      ensures sessions[third[id].session].status == Open
    {
      if id in second {
        assert OfferEvolves(second[id], third[id]);
      } else {
        assert SessionEvolves(sessions[third[id].session], later[third[id].session]);
      }
    }
  }

  lemma RejectEvolves(offers: Offers, doomed: set<OfferId>, sessions: Sessions)
    ensures OffersEvolve(offers, RejectOffers(offers, doomed)) && OffersJoinOpen(sessions, offers, RejectOffers(offers, doomed))
  {
  }

  lemma RidesStay(rides: Rides)
    ensures RidesEvolve(rides, rides)
  {
  }

  lemma OffersStay(offers: Offers, sessions: Sessions)
    ensures OffersEvolve(offers, offers) && OffersJoinOpen(sessions, offers, offers)
  {
  }

  lemma ExpireEvolves(s: State, passenger: UserId)
    ensures Evolves(s, ExpireStep(s, passenger))
  {
    RejectEvolves(s.offers, OffersIn(s.offers, TimedOutSessions(s.sessions, passenger, s.now)), s.sessions);
    RidesStay(s.rides);
  }

  lemma CreateSessionEvolves(s: State, id: SessionId, row: Session)
    ensures Evolves(s, CreateSessionStep(s, id, row))
  {
    ExpireEvolves(s, row.passenger);
    RidesStay(s.rides);
    OffersStay(s.offers, s.sessions);
  }

  lemma SessionWriteEvolves(sessions: Sessions, id: SessionId, row: Session)
    requires id in sessions ==> SessionEvolves(sessions[id], row)
    ensures SessionsEvolve(sessions, sessions[id := row])
  {
  }

  lemma RideWriteEvolves(rides: Rides, ride: RideId, row: Ride)
    requires ride in rides ==> RideEvolves(rides[ride], row)
    ensures RidesEvolve(rides, rides[ride := row])
  {
  }

  lemma ChoiceEvolves(offers: Offers, doomed: set<OfferId>, offer: OfferId, sessions: Sessions)
    requires offer in offers && offers[offer].status == Pending && offer !in doomed
    ensures var after := RejectOffers(offers, doomed)[offer := offers[offer].(status := Chosen)];
      OffersEvolve(offers, after) && OffersJoinOpen(sessions, offers, after)
  {
  }

  lemma AcceptedEvolves(s: State, session: SessionId, offer: OfferId, passenger: UserId, ride: RideId)
    requires CanAccept(s, session, offer, passenger, true, ride)
    ensures Evolves(s, Accepted(s, session, offer, passenger, ride))
  {
    var after := Accepted(s, session, offer, passenger, ride);
    ChoiceEvolves(s.offers, Losers(s, session, offer), offer, s.sessions);
    RideWriteEvolves(s.rides, ride, after.rides[ride]);
    SessionWriteEvolves(s.sessions, session, after.sessions[session]);
    assert SettlementsEvolve(s.settlements, after.settlements);
  }

  lemma PlaceOfferEvolves(s: State, offer: OfferId, session: SessionId, driver: UserId, proposed: Int64, online: bool)
    ensures Evolves(s, PlaceOfferStep(s, offer, session, driver, proposed, online))
  {
    OffersStay(s.offers, s.sessions);
    RidesStay(s.rides);
  }

  lemma CreateRideEvolves(s: State, ride: RideId, passenger: UserId, fare: Int64)
    ensures Evolves(s, CreateRideStep(s, ride, passenger, fare))
  {
    ExpireEvolves(s, passenger);
    RidesStay(s.rides);
    OffersStay(s.offers, s.sessions);
  }

  lemma AcceptRideEvolves(s: State, ride: RideId, driver: UserId, online: bool)
    requires RidesOk(s.rides)
    ensures Evolves(s, AcceptRideStep(s, ride, driver, online))
  {
    OffersStay(s.offers, s.sessions);
    if CanTake(s, ride, driver, online) {
      assert RideFits(s.rides[ride]);
      RideWriteEvolves(s.rides, ride, s.rides[ride].(driver := Some(driver), status := RidePolicy.Accepted));
    } else {
      RidesStay(s.rides);
    }
  }

  lemma MoveRideEvolves(s: State, ride: RideId, next: RidePolicy.Status)
    ensures Evolves(s, MoveRideStep(s, ride, next))
  {
    OffersStay(s.offers, s.sessions);
    if CanMove(s.rides, ride, next) {
      RideWriteEvolves(s.rides, ride, s.rides[ride].(status := next));
    } else {
      RidesStay(s.rides);
    }
  }

  lemma CancelBidEvolves(s: State, session: SessionId, passenger: UserId)
    ensures Evolves(s, CancelBidStep(s, session, passenger))
  {
    RejectEvolves(s.offers, OffersIn(s.offers, {session}), s.sessions);
    RidesStay(s.rides);
  }

  lemma CancelOfferEvolves(s: State, session: SessionId, driver: UserId)
    ensures Evolves(s, CancelOfferStep(s, session, driver))
  {
    RejectEvolves(s.offers, OffersIn(s.offers, {session}) * OffersBy(s.offers, driver), s.sessions);
    OffersStay(s.offers, s.sessions);
    RidesStay(s.rides);
  }

  lemma DeclineEvolves(s: State, session: SessionId, driver: UserId)
    ensures Evolves(s, DeclineStep(s, session, driver))
  {
    OffersStay(s.offers, s.sessions);
    RidesStay(s.rides);
  }

  lemma RequestSessionEvolves(
    s: State, id: SessionId, passenger: UserId, offered: Option<Int64>, target: Option<UserId>, duration: nat, after: State)
    requires after == RequestSession(s, id, passenger, offered, target, duration)
    ensures Evolves(s, after)
  {
    if offered.Some? {
      CreateSessionEvolves(s, id, NewSession(passenger, offered.value, target, s.now + duration));
    } else {
      OffersStay(s.offers, s.sessions);
      RidesStay(s.rides);
    }
  }

  lemma StepEvolves(s: State, event: Event)
    requires RidesOk(s.rides)
    ensures Evolves(s, Step(s, event))
  {
    match event
    case ReadClock(_) =>
      OffersStay(s.offers, s.sessions);
      RidesStay(s.rides);
    case CreateSession(session, passenger, minimum, custom, target, duration) =>
      RequestSessionEvolves(s, session, passenger, OfferedFare(minimum, custom), target, duration, Step(s, event));
    case PlaceOffer(offer, session, driver, proposed, online) => PlaceOfferEvolves(s, offer, session, driver, proposed, online);
    case AcceptOffer(session, offer, passenger, online, ride) =>
      if CanAccept(s, session, offer, passenger, online, ride) {
        AcceptedEvolves(s, session, offer, passenger, ride);
      } else {
        OffersStay(s.offers, s.sessions);
        RidesStay(s.rides);
      }
    case ExpireSessions(passenger) => ExpireEvolves(s, passenger);
    case CancelBidSession(session, passenger) => CancelBidEvolves(s, session, passenger);
    case CancelOffer(session, driver) => CancelOfferEvolves(s, session, driver);
    case Decline(session, driver) => DeclineEvolves(s, session, driver);
    case CreateRide(ride, passenger, fare) => CreateRideEvolves(s, ride, passenger, fare);
    case AcceptRide(ride, driver, online) => AcceptRideEvolves(s, ride, driver, online);
    case MoveRide(ride, next) => MoveRideEvolves(s, ride, next);
  }

  lemma {:induction false} RunEvolves(s: State, events: seq<Event>)
    requires Inv(s)
    ensures Evolves(s, Run(s, events))
    decreases |events|
  {
    if events == [] {
      OffersStay(s.offers, s.sessions);
      RidesStay(s.rides);
    } else {
      StepEvolves(s, events[0]);
      StepKeepsInv(s, events[0]);
      RunEvolves(Step(s, events[0]), events[1..]);
      EvolvesTransitively(s, Step(s, events[0]), Run(s, events));
    }
  }

  /** Offers of the session that the listing puts before the given one. */
  function Earlier(offers: Offers, session: SessionId, offer: OfferId): set<OfferId>
    requires offer in offers
  {
    set id | id in offers && offers[id].session == session
             && (offers[id].placedAt < offers[offer].placedAt || (offers[id].placedAt == offers[offer].placedAt && id < offer))
  }

  /** The offer is on the first (and only) page of its session's offers. */
  predicate Listed(offers: Offers, session: SessionId, offer: OfferId) {
    offer in offers && offers[offer].session == session && |Earlier(offers, session, offer)| < OFFER_PAGE
  }

  /** The replay branch finds the accepted session, the listed offer and `ride`, a ride of the session. */
  predicate Replays(s: State, session: SessionId, offer: OfferId, passenger: UserId, ride: RideId) {
    && session in s.sessions && s.sessions[session].status == Won && s.sessions[session].passenger == passenger
    && Listed(s.offers, session, offer) && s.offers[offer].status == Chosen
    && s.sessions[session].accepted == Some(s.offers[offer].driver)
    && ride in RidesFor(s.rides, session)
  }

  lemma EarlierIsFixed(sessions: Sessions, before: Offers, after: Offers, session: SessionId, offer: OfferId)
    requires OffersEvolve(before, after) && OffersJoinOpen(sessions, before, after)
    requires session in sessions && sessions[session].status != Open && offer in before
    ensures offer in after && Earlier(after, session, offer) == Earlier(before, session, offer)
  {
    assert OfferEvolves(before[offer], after[offer]);
    forall id | id in before
      ensures id in after && OfferEvolves(before[id], after[id])
    {
    }
  }

  lemma EarlierSurvivesAcceptance(s: State, session: SessionId, offer: OfferId, passenger: UserId, ride: RideId)
    requires CanAccept(s, session, offer, passenger, true, ride)
    ensures var after := Accepted(s, session, offer, passenger, ride);
      offer in after.offers && Earlier(after.offers, session, offer) == Earlier(s.offers, session, offer)
  {
  }

  lemma AcceptedRowsStay(first: State, now: State, session: SessionId, offer: OfferId, ride: RideId)
    requires Evolves(first, now)
    requires session in first.sessions && first.sessions[session].status == Won
    requires offer in first.offers && first.offers[offer].status == Chosen
    requires ride in first.rides
    ensures session in now.sessions && now.sessions[session] == first.sessions[session]
    ensures offer in now.offers && now.offers[offer] == first.offers[offer]
    ensures ride in now.rides && RideEvolves(first.rides[ride], now.rides[ride])
  {
    assert SessionEvolves(first.sessions[session], now.sessions[session]);
    assert OfferEvolves(first.offers[offer], now.offers[offer]);
  }

  /** The session has been won by this offer, which became this ride. */
  predicate Settled(s: State, session: SessionId, offer: OfferId, passenger: UserId, ride: RideId) {
    && session in s.sessions && s.sessions[session].status == Won && s.sessions[session].passenger == passenger
    && offer in s.offers && s.offers[offer].status == Chosen && s.offers[offer].session == session
    && ride in s.rides && s.rides[ride].session == Some(session)
  }

  lemma SettledAfterwards(first: State, now: State, session: SessionId, offer: OfferId, passenger: UserId, ride: RideId)
    requires Evolves(first, now) && Settled(first, session, offer, passenger, ride)
    ensures Settled(now, session, offer, passenger, ride)
    ensures Earlier(now.offers, session, offer) == Earlier(first.offers, session, offer)
  {
    AcceptedRowsStay(first, now, session, offer, ride);
    EarlierIsFixed(first.sessions, first.offers, now.offers, session, offer);
  }

  lemma ReplayFinds(now: State, session: SessionId, offer: OfferId, passenger: UserId, ride: RideId, found: RideId)
    requires Inv(now) && Settled(now, session, offer, passenger, ride)
    ensures Replays(now, session, offer, passenger, found) <==> |Earlier(now.offers, session, offer)| < 100 && found == ride
  {
    WonOfferAndRide(now, session);
    assert found in RidesFor(now.rides, session) <==> found == ride;
  }

  /** A replay is answered exactly to the passenger of the session, for its accepted offer among the
      first hundred, with a ride of the session; that the session was won by it follows. */
  lemma ReplayCondition(s: State, session: SessionId, offer: OfferId, passenger: UserId, ride: RideId)
    requires WinnersOk(s.winner, s.offers, s.sessions)
    ensures Replays(s, session, offer, passenger, ride) <==>
      && session in s.sessions && s.sessions[session].passenger == passenger
      && offer in s.offers && s.offers[offer].session == session && s.offers[offer].status == Chosen
      && |Earlier(s.offers, session, offer)| < 100
      && ride in s.rides && s.rides[ride].session == Some(session)
  {
  }

  /** The listing is in the order of placement, and of identifiers at the same instant. */
  lemma EarlierIsOrder(offers: Offers, session: SessionId, offer: OfferId, id: OfferId)
    requires offer in offers && id in offers && offers[offer].session == offers[id].session == session && id != offer
    ensures id in Earlier(offers, session, offer) <==> offer !in Earlier(offers, session, id)
    ensures offers[id].placedAt < offers[offer].placedAt ==> id in Earlier(offers, session, offer)
    ensures offers[id].placedAt == offers[offer].placedAt && id < offer ==> id in Earlier(offers, session, offer)
  {
  }

  /** After a successful acceptance, and whatever happens next, the same acceptance changes
      nothing. It returns the session and the offer exactly as the first call did, and the
      ride it created, if and only if fewer than one hundred of the session's offers were
      placed before the accepted one. */
  lemma RepeatedAcceptance(
    s: State, session: SessionId, offer: OfferId, passenger: UserId, ride: RideId, later: seq<Event>, found: RideId)
    requires Inv(s) && CanAccept(s, session, offer, passenger, true, ride)
    ensures var first := Accepted(s, session, offer, passenger, ride);
      var now := Run(first, later);
      && (Replays(now, session, offer, passenger, found) <==> |Earlier(s.offers, session, offer)| < 100 && found == ride)
      && session in now.sessions && now.sessions[session] == first.sessions[session]
      && offer in now.offers && now.offers[offer] == first.offers[offer]
      && ride in now.rides && RideEvolves(first.rides[ride], now.rides[ride])
      && (forall online, newRide :: AcceptOfferStep(now, session, offer, passenger, online, newRide) == now)
  {
    var first := Accepted(s, session, offer, passenger, ride);
    AcceptedKeepsInv(s, session, offer, passenger, ride, first);
    SettledAtFirst(s, session, offer, passenger, ride);
    RepeatedLater(first, later, session, offer, passenger, ride, found);
  }

  lemma AcceptedKeepsInv(s: State, session: SessionId, offer: OfferId, passenger: UserId, ride: RideId, first: State)
    requires Inv(s) && CanAccept(s, session, offer, passenger, true, ride) && first == Accepted(s, session, offer, passenger, ride)
    ensures Inv(first)
  {
    AcceptOfferKeepsInv(s, session, offer, passenger, true, ride);
    assert first == AcceptOfferStep(s, session, offer, passenger, true, ride);
  }

  lemma SettledAtFirst(s: State, session: SessionId, offer: OfferId, passenger: UserId, ride: RideId)
    requires CanAccept(s, session, offer, passenger, true, ride)
    ensures var first := Accepted(s, session, offer, passenger, ride);
      Settled(first, session, offer, passenger, ride) && Earlier(first.offers, session, offer) == Earlier(s.offers, session, offer)
  {
    EarlierSurvivesAcceptance(s, session, offer, passenger, ride);
  }

  lemma RepeatedLater(
    first: State, later: seq<Event>, session: SessionId, offer: OfferId, passenger: UserId, ride: RideId, found: RideId)
    requires Inv(first) && Settled(first, session, offer, passenger, ride)
    ensures var now := Run(first, later);
      && (Replays(now, session, offer, passenger, found) <==> |Earlier(first.offers, session, offer)| < 100 && found == ride)
      && session in now.sessions && now.sessions[session] == first.sessions[session]
      && offer in now.offers && now.offers[offer] == first.offers[offer]
      && ride in now.rides && RideEvolves(first.rides[ride], now.rides[ride])
      && (forall online, newRide :: AcceptOfferStep(now, session, offer, passenger, online, newRide) == now)
  {
    var now := Run(first, later);
    RunKeepsInv(first, later);
    RunEvolves(first, later);
    AcceptedRowsStay(first, now, session, offer, ride);
    SettledAfterwards(first, now, session, offer, passenger, ride);
    ReplayFinds(now, session, offer, passenger, ride, found);
  }

  /** Every offer was acceptable against the fare its session was opened with. */
  predicate FaresOk(offers: Offers, sessions: Sessions) {
    forall id :: id in offers ==>
      offers[id].session in sessions && AcceptableFare(sessions[offers[id].session].offered, offers[id].fare)
  }

  lemma FaresSurvive(sessions: Sessions, after: Sessions, offers: Offers, offersAfter: Offers)
    requires FaresOk(offers, sessions) && SessionsEvolve(sessions, after) && OffersEvolve(offers, offersAfter)
    requires offersAfter.Keys == offers.Keys
    ensures FaresOk(offersAfter, after)
  {
    forall id | id in offersAfter
      ensures offersAfter[id].session in after
      ensures AcceptableFare(after[offersAfter[id].session].offered, offersAfter[id].fare)
    {
      assert OfferEvolves(offers[id], offersAfter[id]);
      assert SessionEvolves(sessions[offers[id].session], after[offers[id].session]);
    }
  }

  lemma OnlyPlacingAddsOffers(s: State, event: Event)
    requires !event.PlaceOffer?
    ensures Step(s, event).offers.Keys == s.offers.Keys
  {
  }

  lemma PlaceOfferKeepsFares(s: State, offer: OfferId, session: SessionId, driver: UserId, proposed: Int64, online: bool)
    requires FaresOk(s.offers, s.sessions)
    ensures FaresOk(PlaceOfferStep(s, offer, session, driver, proposed, online).offers, s.sessions)
  {
  }

  lemma StepKeepsFares(s: State, event: Event)
    requires RidesOk(s.rides) && FaresOk(s.offers, s.sessions)
    ensures FaresOk(Step(s, event).offers, Step(s, event).sessions)
  {
    match event
    case PlaceOffer(offer, session, driver, proposed, online) => PlaceOfferKeepsFares(s, offer, session, driver, proposed, online);
    case _ =>
      StepEvolves(s, event);
      OnlyPlacingAddsOffers(s, event);
      FaresSurvive(s.sessions, Step(s, event).sessions, s.offers, Step(s, event).offers);
  }

  lemma {:induction false} RunKeepsFares(s: State, events: seq<Event>)
    requires Inv(s) && FaresOk(s.offers, s.sessions)
    ensures FaresOk(Run(s, events).offers, Run(s, events).sessions)
    decreases |events|
  {
    if events != [] {
      StepKeepsInv(s, events[0]);
      StepKeepsFares(s, events[0]);
      RunKeepsFares(Step(s, events[0]), events[1..]);
    }
  }

  /** Every ride that came out of a session has a fare within the bounds of the fare the
      passenger offered at the start. */
  lemma BiddedFaresAreWithinBounds(now: Instant, commissionBps: Int64, events: seq<Event>, ride: RideId)
    requires ride in Run(Empty(now, commissionBps), events).rides
    requires Run(Empty(now, commissionBps), events).rides[ride].session.Some?
    ensures var s := Run(Empty(now, commissionBps), events);
      var session := s.rides[ride].session.value;
      && session in s.sessions && 0 < s.sessions[session].offered
      && MinFare(s.sessions[session].offered) <= s.rides[ride].fare <= MaxFare(s.sessions[session].offered)
  {
    var s := Run(Empty(now, commissionBps), events);
    EmptyIsFine(now, commissionBps);
    RunKeepsInv(Empty(now, commissionBps), events);
    RunKeepsFares(Empty(now, commissionBps), events);
    RideFareIsOfferFare(s, ride);
  }

  lemma RideFareIsOfferFare(s: State, ride: RideId)
    requires Inv(s) && ride in s.rides && s.rides[ride].session.Some?
    ensures var session := s.rides[ride].session.value;
      session in s.sessions && 0 < s.sessions[session].offered && session in s.winner && s.winner[session] in s.offers
      && s.offers[s.winner[session]].session == session && s.offers[s.winner[session]].fare == s.rides[ride].fare
  {
    var session := s.rides[ride].session.value;
    assert BookingAgrees(s.rides[s.rideOf[session]], s.sessions[session], s.offers[s.winner[session]]);
  }
}
