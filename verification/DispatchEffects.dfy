/** When each dispatch transaction goes through, and exactly which rows it changes. */
module DispatchEffects {

  import opened Common
  import opened Fares
  import RidePolicy
  import opened Dispatch
  import opened DispatchInvariant
  import opened DispatchSafety

  /** A session is priced at the passenger's own fare if there is one, which must not be below
      the minimum, and at the minimum otherwise. */
  lemma OfferedFareIsOwnFare(minimum: Int64, custom: Option<Int64>)
    ensures OfferedFare(minimum, custom).None? <==> minimum <= 0 || (custom.Some? && custom.value < minimum)
    ensures OfferedFare(minimum, custom).Some? && custom.Some? ==> OfferedFare(minimum, custom).value == custom.value
    ensures OfferedFare(minimum, custom).Some? && custom.None? ==> OfferedFare(minimum, custom).value == minimum
  {
  }

  /** No unexpired open session and no ride under way. */
  predicate Unbooked(s: State, passenger: UserId) {
    && (forall id :: id in s.sessions && s.sessions[id].passenger == passenger && s.sessions[id].status == Open ==>
          s.sessions[id].expiresAt <= s.now)
    && (forall ride :: ride in s.rides && s.rides[ride].passenger == passenger ==>
          s.rides[ride].status in {RidePolicy.Completed, RidePolicy.Cancelled})
  }

  lemma BookableMeansUnbooked(s: State, passenger: UserId)
    ensures CanBook(s, passenger) <==> Unbooked(s, passenger)
  {
    var expired := ExpireStep(s, passenger);
    assert HasOpenSession(expired.sessions, passenger, s.now)
           <==> exists id :: id in s.sessions && s.sessions[id].passenger == passenger && s.sessions[id].status == Open && s.now < s.sessions[id].expiresAt
    by {
      forall id | id in s.sessions && s.sessions[id].passenger == passenger && s.sessions[id].status == Open && s.now < s.sessions[id].expiresAt
        ensures HasOpenSession(expired.sessions, passenger, s.now)
      {
        assert expired.sessions[id] == s.sessions[id];
      }
    }
    ActiveRideMeansUnfinished(s.rides, passenger);
  }

  lemma ActiveRideMeansUnfinished(rides: Rides, passenger: UserId)
    ensures HasActiveRide(rides, passenger)
            <==> exists ride :: ride in rides && rides[ride].passenger == passenger && rides[ride].status !in {RidePolicy.Completed, RidePolicy.Cancelled}
  {
    forall ride | ride in rides
      ensures RidePolicy.IsActive(rides[ride].status) <==> rides[ride].status !in {RidePolicy.Completed, RidePolicy.Cancelled}
    {
      RidePolicy.ActiveMeansCancellable(rides[ride].status);
    }
  }

  /** An expiry closes exactly the passenger's open sessions whose time is up, and rejects
      exactly their pending offers. */
  lemma ExpiryIsExact(s: State, passenger: UserId)
    ensures var next := Step(s, ExpireSessions(passenger));
      && next.rides == s.rides && next.settlements == s.settlements
      && next.sessions.Keys == s.sessions.Keys && next.offers.Keys == s.offers.Keys
      && (forall id :: id in s.sessions ==>
            next.sessions[id] == if s.sessions[id].passenger == passenger && s.sessions[id].status == Open && s.sessions[id].expiresAt <= s.now
                                 then s.sessions[id].(status := Expired) else s.sessions[id])
      && (forall id :: id in s.offers ==>
            next.offers[id] == if s.offers[id].status == Pending && s.offers[id].session in s.sessions
                                  && next.sessions[s.offers[id].session] != s.sessions[s.offers[id].session]
                               then s.offers[id].(status := Rejected) else s.offers[id])
  {
  }

  /** How many rides the driver has on the road. */
  lemma ActiveRidesAre(rides: Rides, driver: UserId, ride: RideId)
    ensures ride in ActiveRides(rides, driver) <==>
      ride in rides && rides[ride].driver == Some(driver)
      && rides[ride].status !in {RidePolicy.Requested, RidePolicy.Completed, RidePolicy.Cancelled}
  {
    if ride in rides {
      RidePolicy.ActiveMeansCancellable(rides[ride].status);
    }
  }

  /** The session takes the driver's offer: it is open, unexpired, and for anyone or for this driver. */
  predicate Welcomes(s: State, session: SessionId, driver: UserId) {
    && session in s.sessions && s.sessions[session].status == Open && s.now < s.sessions[session].expiresAt
    && s.sessions[session].target in {None, Some(driver)}
  }

  /** An online driver below five rides, without a pending offer on the session. */
  predicate MayBid(s: State, session: SessionId, driver: UserId, online: bool) {
    && 0 < driver && online && |ActiveRides(s.rides, driver)| < 5
    && forall id :: id in s.offers && s.offers[id].session == session && s.offers[id].driver == driver ==> s.offers[id].status != Pending
  }

  /** The fare is within the bounds of the session's, zero standing for the session's own. */
  predicate FairProposal(s: State, session: SessionId, proposed: Int64, fare: Int64) {
    && session in s.sessions && 0 <= proposed && 0 < fare
    && fare == (if proposed == 0 then s.sessions[session].offered else proposed)
    && AcceptableFare(s.sessions[session].offered, fare)
  }

  lemma PlacementIsExact(s: State, offer: OfferId, session: SessionId, driver: UserId, proposed: Int64, online: bool)
    requires offer !in s.offers
    ensures var next := Step(s, PlaceOffer(offer, session, driver, proposed, online));
      if session in s.sessions then
        var fare: Int64 := if proposed == 0 then s.sessions[session].offered else proposed;
        if Welcomes(s, session, driver) && MayBid(s, session, driver, online) && FairProposal(s, session, proposed, fare)
        then next == s.(offers := s.offers[offer := Offer(session, driver, fare, Pending, s.now)])
        else next == s
      else
        next == s
  {
  }

  lemma PlacementCondition(s: State, offer: OfferId, session: SessionId, driver: UserId, proposed: Int64, online: bool)
    ensures CanPlace(s, offer, session, driver, proposed, online) <==>
      offer !in s.offers && session in s.sessions && Welcomes(s, session, driver) && MayBid(s, session, driver, online)
      && FairProposal(s, session, proposed, if proposed == 0 then s.sessions[session].offered else proposed)
  {
  }

  /** The passenger may accept the offer: it is pending on the passenger's own welcoming session,
      its driver is online with a place left, and neither side has a conflicting ride. */
  predicate MayAccept(s: State, session: SessionId, offer: OfferId, passenger: UserId, online: bool) {
    && offer in s.offers && s.offers[offer].session == session && s.offers[offer].status == Pending
    && Welcomes(s, session, s.offers[offer].driver) && s.sessions[session].passenger == passenger
    && online && |ActiveRides(s.rides, s.offers[offer].driver)| < 5
    && (forall ride :: ride in s.rides && s.rides[ride].passenger == passenger ==>
          s.rides[ride].status in {RidePolicy.Completed, RidePolicy.Cancelled})
  }

  /** The ride can be paid for. */
  predicate Payable(s: State, offer: OfferId, passenger: UserId) {
    && offer in s.offers && 0 < passenger && 0 < s.offers[offer].driver
    && 0 < s.offers[offer].fare && 0 <= s.commissionBps <= 10_000 && s.offers[offer].fare * s.commissionBps <= MAX_INT64
  }

  lemma AcceptanceCondition(s: State, session: SessionId, offer: OfferId, passenger: UserId, online: bool, ride: RideId)
    ensures CanAccept(s, session, offer, passenger, online, ride) <==>
      && MayAccept(s, session, offer, passenger, online) && Payable(s, offer, passenger)
      && ride !in s.rides && ride !in s.settlements
  {
    ActiveRideMeansUnfinished(s.rides, passenger);
    if offer in s.offers {
      var fare := s.offers[offer].fare;
      SettlementConserves(fare, s.commissionBps);
      var created := NewAcceptedRide(passenger, Some(s.offers[offer].driver), fare, s.commissionBps);
      assert created.Ok? <==> Payable(s, offer, passenger);
      if session in s.sessions {
        var target, driver := s.sessions[session].target, s.offers[offer].driver;
        assert (target.Some? ==> target.value == driver) <==> target in {None, Some(driver)};
      }
    }
  }

  lemma LosersAreExact(s: State, session: SessionId, offer: OfferId, id: OfferId)
    requires offer in s.offers && id in s.offers
    ensures var driver := s.offers[offer].driver;
      id in Losers(s, session, offer) <==>
        id != offer && (s.offers[id].session == session || (s.offers[id].driver == driver && |ActiveRides(s.rides, driver)| >= 4))
  {
  }

  /** Acceptance chooses the offer, rejects the session's other pending offers and, if the driver
      is then full, the driver's, and no others; it closes the session and opens the ride. */
  lemma AcceptanceIsExact(s: State, session: SessionId, offer: OfferId, passenger: UserId, ride: RideId)
    requires session in s.sessions && offer in s.offers && s.offers[offer].session == session && s.offers[offer].status == Pending
    requires Payable(s, offer, passenger)
    ensures NewAcceptedRide(passenger, Some(s.offers[offer].driver), s.offers[offer].fare, s.commissionBps).Ok?
    ensures var next := Accepted(s, session, offer, passenger, ride);
      var driver := s.offers[offer].driver;
      && next.offers.Keys == s.offers.Keys
      && (forall id :: id in s.offers ==>
            next.offers[id].status == if id == offer then Chosen
              else if s.offers[id].status == Pending
                      && (s.offers[id].session == session || (s.offers[id].driver == driver && |ActiveRides(s.rides, driver)| >= 4))
              then Rejected else s.offers[id].status)
      && next.sessions == s.sessions[session := s.sessions[session].(status := Won, accepted := Some(driver))]
      && next.rides == s.rides[ride := Ride(passenger, Some(driver), s.offers[offer].fare, Some(session), RidePolicy.Accepted)]
      && ride in next.settlements && next.settlements[ride].fare == s.offers[offer].fare
      && next.settlements[ride].commissionBps == s.commissionBps
  {
    SettlementConserves(s.offers[offer].fare, s.commissionBps);
    forall id | id in s.offers
      ensures id in Losers(s, session, offer) <==>
        id != offer && (s.offers[id].session == session
                        || (s.offers[id].driver == s.offers[offer].driver && |ActiveRides(s.rides, s.offers[offer].driver)| >= 4))
    {
      LosersAreExact(s, session, offer, id);
    }
  }

  /** A driver's withdrawal rejects exactly the driver's pending offers on an open session. */
  lemma OfferWithdrawalIsExact(s: State, session: SessionId, driver: UserId)
    ensures var next := Step(s, CancelOffer(session, driver));
      && next.sessions == s.sessions && next.rides == s.rides && next.offers.Keys == s.offers.Keys
      && (forall id :: id in s.offers ==>
            next.offers[id] == if s.offers[id].status == Pending && s.offers[id].session == session && s.offers[id].driver == driver
                                  && session in s.sessions && s.sessions[session].status == Open
                               then s.offers[id].(status := Rejected) else s.offers[id])
  {
  }

  /** A passenger's withdrawal closes the passenger's own open session, and no other. */
  lemma SessionWithdrawalIsExact(s: State, session: SessionId, passenger: UserId)
    ensures var next := Step(s, CancelBidSession(session, passenger));
      && next.rides == s.rides && next.sessions.Keys == s.sessions.Keys
      && (forall id :: id in s.sessions ==>
            next.sessions[id] == if id == session && s.sessions[id].passenger == passenger && s.sessions[id].status == Open
                                 then s.sessions[id].(status := Withdrawn) else s.sessions[id])
  {
  }

  /** A decline closes the session targeted at the driver, while it is open and unexpired. */
  lemma DeclineIsExact(s: State, session: SessionId, driver: UserId)
    ensures var next := Step(s, Decline(session, driver));
      && next.offers == s.offers && next.rides == s.rides && next.sessions.Keys == s.sessions.Keys
      && (forall id :: id in s.sessions ==>
            next.sessions[id] == if id == session && s.sessions[id].target == Some(driver) && s.sessions[id].status == Open && s.now < s.sessions[id].expiresAt
                                 then s.sessions[id].(status := Declined) else s.sessions[id])
  {
  }

  /** A direct booking asks for a ride without a driver; the passenger must be unbooked. */
  lemma DirectBookingIsExact(s: State, ride: RideId, passenger: UserId, fare: Int64)
    requires ride !in s.rides && ride !in s.settlements
    ensures var next := Step(s, CreateRide(ride, passenger, fare));
      if 0 < passenger && 0 < fare && Unbooked(s, passenger)
      then next == ExpireStep(s, passenger).(rides := s.rides[ride := Ride(passenger, None, fare, None, RidePolicy.Requested)])
      else next == s
  {
    BookableMeansUnbooked(s, passenger);
  }

  /** A direct acceptance gives a requested ride its driver, who is online with a place left. */
  lemma DirectAcceptanceIsExact(s: State, ride: RideId, driver: UserId, online: bool)
    requires ride !in s.settlements
    ensures var next := Step(s, AcceptRide(ride, driver, online));
      if ride in s.rides && s.rides[ride].status == RidePolicy.Requested && online && |ActiveRides(s.rides, driver)| < 5
         && Settleable(s.rides[ride].fare, s.commissionBps)
      then
        && next.rides == s.rides[ride := s.rides[ride].(driver := Some(driver), status := RidePolicy.Accepted)]
        && ride in next.settlements && next.settlements[ride].fare == s.rides[ride].fare
        && next.settlements[ride].commissionBps == s.commissionBps
        && next.offers == s.offers && next.sessions == s.sessions
      else
        next == s
  {
    if ride in s.rides {
      SettlementConserves(s.rides[ride].fare, s.commissionBps);
    }
  }

  /** A session opens exactly at a valid fare, for an unbooked passenger, whose overdue sessions
      expire first; otherwise nothing happens. */
  lemma OpeningIsExact(
    s: State, session: SessionId, passenger: UserId, minimum: Int64, custom: Option<Int64>, target: Option<UserId>, duration: nat)
    requires session !in s.sessions
    ensures var next := Step(s, CreateSession(session, passenger, minimum, custom, target, duration));
      var fare := if custom.Some? then custom.value else minimum;
      if 0 < minimum <= fare && 0 < passenger && Unbooked(s, passenger) then
        var expired := Step(s, ExpireSessions(passenger));
        && next.sessions == expired.sessions[session := Session(passenger, fare, target, s.now + duration, Open, None)]
        && next.offers == expired.offers && next.rides == s.rides
      else
        next == s
  {
    BookableMeansUnbooked(s, passenger);
    OfferedFareIsOwnFare(minimum, custom);
  }

  /** An acceptance that does not meet its condition does nothing. */
  lemma AcceptanceDecides(s: State, session: SessionId, offer: OfferId, passenger: UserId, online: bool, ride: RideId)
    requires ride !in s.rides && ride !in s.settlements
    ensures var next := Step(s, AcceptOffer(session, offer, passenger, online, ride));
      var goes := MayAccept(s, session, offer, passenger, online) && Payable(s, offer, passenger);
      && (goes ==> CanAccept(s, session, offer, passenger, online, ride) && next == Accepted(s, session, offer, passenger, ride))
      && (!goes ==> next == s)
  {
    AcceptanceCondition(s, session, offer, passenger, online, ride);
  }

  /** After its acceptance a ride only advances, or is cancelled. */
  lemma RideMoves(s: State, ride: RideId, next: RidePolicy.Status)
    ensures Step(s, MoveRide(ride, next)) ==
      if && ride in s.rides && s.rides[ride].status !in {RidePolicy.Completed, RidePolicy.Cancelled}
         && next !in {RidePolicy.Requested, RidePolicy.Assigned, RidePolicy.Accepted}
         && (next == RidePolicy.Cancelled || RidePolicy.Rank(next) == RidePolicy.Rank(s.rides[ride].status) + 1)
      then s.(rides := s.rides[ride := s.rides[ride].(status := next)])
      else s
    ensures forall reading :: Step(s, ReadClock(reading)) == s.(now := reading)
  {
    if ride in s.rides {
      RidePolicy.TransitionsAreSteps(s.rides[ride].status, next);
    }
  }
}
