/** Every dispatch transaction keeps the invariant across the four tables. */
module DispatchInvariant {

  import opened Common
  import opened Fares
  import RidePolicy
  import opened Dispatch

  /** Rejecting pending offers disturbs nothing else. */
  lemma RejectKeeps(
    offers: Offers, doomed: set<OfferId>, sessions: Sessions, winner: map<SessionId, OfferId>)
    requires OffersOk(offers, sessions) && PendingUnique(offers) && WinnersOk(winner, offers, sessions)
    ensures var after := RejectOffers(offers, doomed);
      OffersOk(after, sessions) && PendingUnique(after) && WinnersOk(winner, after, sessions)
  {
  }

  lemma RejectKeepsBookings(s: State, doomed: set<OfferId>)
    requires BookingsOk(s.rideOf, s.winner, s.offers, s.sessions, s.rides)
    ensures BookingsOk(s.rideOf, s.winner, RejectOffers(s.offers, doomed), s.sessions, s.rides)
  {
  }

  predicate ClosesAs(before: Session, after: Session) {
    || after == before
    || (before.status in {Open, Declined} && after.status in {Withdrawn, Expired, Declined}
        && after == before.(status := after.status))
  }

  /** Some open or declined sessions were closed for good, and no pending offer is left on them
      unless they were declined. */
  predicate OnlyCloses(before: Sessions, after: Sessions, offers: Offers) {
    && before.Keys == after.Keys
    && (forall id :: id in before ==> ClosesAs(before[id], after[id]))
    && (forall offer :: offer in offers && offers[offer].session in after && offers[offer].status == Pending ==>
          after[offers[offer].session].status in {Open, Declined})
  }

  lemma ClosingKeepsSessions(before: Sessions, after: Sessions, offers: Offers)
    requires OnlyCloses(before, after, offers) && SessionsOk(before)
    ensures SessionsOk(after)
  {
    forall id | id in before
      ensures ClosesAs(before[id], after[id])
    {
    }
  }

  lemma ClosingKeepsOffers(before: Sessions, after: Sessions, offers: Offers)
    requires OnlyCloses(before, after, offers) && OffersOk(offers, before)
    ensures OffersOk(offers, after)
  {
    forall id | id in offers
      ensures OfferFits(offers[id], after)
    {
      assert ClosesAs(before[offers[id].session], after[offers[id].session]);
    }
  }

  lemma ClosingKeepsWinners(before: Sessions, after: Sessions, offers: Offers, winner: map<SessionId, OfferId>)
    requires OnlyCloses(before, after, offers) && WinnersOk(winner, offers, before)
    ensures WinnersOk(winner, offers, after)
  {
  }

  lemma ClosingKeepsBookings(s: State, after: Sessions)
    requires OnlyCloses(s.sessions, after, s.offers)
    requires BookingsOk(s.rideOf, s.winner, s.offers, s.sessions, s.rides) && OneBooking(s.sessions, s.rides)
    ensures BookingsOk(s.rideOf, s.winner, s.offers, after, s.rides) && OneBooking(after, s.rides)
  {
  }

  lemma ExpireCloses(sessions: Sessions, offers: Offers, passenger: UserId, now: Instant)
    requires OffersOk(offers, sessions)
    ensures OnlyCloses(sessions, ExpireSessionRows(sessions, passenger, now),
                       RejectOffers(offers, OffersIn(offers, TimedOutSessions(sessions, passenger, now))))
  {
  }

  lemma WithdrawCloses(sessions: Sessions, offers: Offers, session: SessionId, passenger: UserId)
    requires OffersOk(offers, sessions)
    ensures OnlyCloses(sessions, WithdrawSession(sessions, session, passenger),
                       RejectOffers(offers, OffersIn(offers, {session})))
  {
  }

  lemma DeclineCloses(sessions: Sessions, offers: Offers, session: SessionId, driver: UserId, now: Instant)
    requires OffersOk(offers, sessions)
    ensures OnlyCloses(sessions, DeclineSession(sessions, session, driver, now), offers)
  {
  }

  /** Rejecting some offers and then closing sessions keeps the invariant. */
  lemma WithdrawalKeepsInv(s: State, doomed: set<OfferId>, after: Sessions)
    requires Inv(s) && OnlyCloses(s.sessions, after, RejectOffers(s.offers, doomed))
    ensures Inv(s.(offers := RejectOffers(s.offers, doomed), sessions := after))
  {
    var rejected := s.(offers := RejectOffers(s.offers, doomed));
    RejectKeeps(s.offers, doomed, s.sessions, s.winner);
    RejectKeepsBookings(s, doomed);
    ClosingKeepsSessions(s.sessions, after, rejected.offers);
    ClosingKeepsOffers(s.sessions, after, rejected.offers);
    ClosingKeepsWinners(s.sessions, after, rejected.offers, s.winner);
    ClosingKeepsBookings(rejected, after);
  }

  lemma ExpireKeepsInv(s: State, passenger: UserId)
    requires Inv(s)
    ensures Inv(ExpireStep(s, passenger))
  {
    ExpireCloses(s.sessions, s.offers, passenger, s.now);
    WithdrawalKeepsInv(s, OffersIn(s.offers, TimedOutSessions(s.sessions, passenger, s.now)),
                       ExpireSessionRows(s.sessions, passenger, s.now));
  }

  lemma CancelBidKeepsInv(s: State, session: SessionId, passenger: UserId)
    requires Inv(s)
    ensures Inv(CancelBidStep(s, session, passenger))
  {
    WithdrawCloses(s.sessions, s.offers, session, passenger);
    WithdrawalKeepsInv(s, OffersIn(s.offers, {session}), WithdrawSession(s.sessions, session, passenger));
  }

  lemma CancelOfferKeepsInv(s: State, session: SessionId, driver: UserId)
    requires Inv(s)
    ensures Inv(CancelOfferStep(s, session, driver))
  {
    var doomed := OffersIn(s.offers, {session}) * OffersBy(s.offers, driver);
    RejectKeeps(s.offers, doomed, s.sessions, s.winner);
    RejectKeepsBookings(s, doomed);
  }

  lemma DeclineKeepsInv(s: State, session: SessionId, driver: UserId)
    requires Inv(s)
    ensures Inv(DeclineStep(s, session, driver))
  {
    var after := DeclineSession(s.sessions, session, driver, s.now);
    DeclineCloses(s.sessions, s.offers, session, driver, s.now);
    ClosingKeepsSessions(s.sessions, after, s.offers);
    ClosingKeepsOffers(s.sessions, after, s.offers);
    ClosingKeepsWinners(s.sessions, after, s.offers, s.winner);
    ClosingKeepsBookings(s, after);
  }

  /** No booking stands in the way of a new one. */
  predicate FreeToBook(sessions: Sessions, rides: Rides, passenger: UserId) {
    && !HasActiveRide(rides, passenger)
    && (forall id :: id in sessions && sessions[id].passenger == passenger ==> sessions[id].status != Open)
  }

  /** A new row in `bid_sessions` for a passenger without an open session or an active ride. */
  lemma OpeningKeepsInv(s: State, id: SessionId, row: Session)
    requires Inv(s) && id !in s.sessions && row.status == Open && row.accepted.None? && 0 < row.offered
    requires FreeToBook(s.sessions, s.rides, row.passenger)
    ensures Inv(InsertSession(s, id, row))
  {
    var after := s.sessions[id := row];
    assert OffersOk(s.offers, after) by {
      forall offer | offer in s.offers
        ensures OfferFits(s.offers[offer], after)
      {
        assert OfferFits(s.offers[offer], s.sessions);
      }
    }
    OpeningKeepsWinners(s.sessions, s.offers, s.winner, id, row);
    OpeningKeepsBookings(s, id, row);
  }

  lemma OpeningKeepsWinners(
    sessions: Sessions, offers: Offers, winner: map<SessionId, OfferId>, id: SessionId, row: Session)
    requires WinnersOk(winner, offers, sessions) && id !in sessions && row.status == Open
    ensures WinnersOk(winner, offers, sessions[id := row])
  {
  }

  lemma OpeningKeepsBookings(s: State, id: SessionId, row: Session)
    requires BookingsOk(s.rideOf, s.winner, s.offers, s.sessions, s.rides) && id !in s.sessions
    ensures BookingsOk(s.rideOf, s.winner, s.offers, s.sessions[id := row], s.rides)
  {
  }

  /** After the expiry, a passenger who may book has no open session at all. */
  lemma BookableHasNoOpenSession(s: State, passenger: UserId)
    requires CanBook(s, passenger)
    ensures FreeToBook(ExpireStep(s, passenger).sessions, ExpireStep(s, passenger).rides, passenger)
  {
    var after := ExpireStep(s, passenger);
    assert !HasOpenSession(after.sessions, passenger, s.now);
  }

  lemma ExpiryClears(s: State, passenger: UserId)
    requires Inv(s) && CanBook(s, passenger)
    ensures Inv(ExpireStep(s, passenger)) && ExpireStep(s, passenger).sessions.Keys == s.sessions.Keys
    ensures FreeToBook(ExpireStep(s, passenger).sessions, ExpireStep(s, passenger).rides, passenger)
  {
    ExpireKeepsInv(s, passenger);
    BookableHasNoOpenSession(s, passenger);
  }

  lemma CreateSessionKeepsInv(s: State, id: SessionId, row: Session)
    requires Inv(s) && row.status == Open && row.accepted.None? && 0 < row.offered
    ensures Inv(CreateSessionStep(s, id, row))
  {
    if CanOpen(s, id, row.passenger) {
      ExpiryClears(s, row.passenger);
      OpeningKeepsInv(ExpireStep(s, row.passenger), id, row);
    }
  }

  lemma RequestSessionKeepsInv(
    s: State, id: SessionId, passenger: UserId, offered: Option<Int64>, target: Option<UserId>, duration: nat, after: State)
    requires Inv(s) && (offered.Some? ==> 0 < offered.value)
    requires after == RequestSession(s, id, passenger, offered, target, duration)
    ensures Inv(after)
  {
    if offered.Some? {
      var row := NewSession(passenger, offered.value, target, s.now + duration);
      CreateSessionKeepsInv(s, id, row);
      assert after == CreateSessionStep(s, id, row);
    } else {
      assert after == s;
    }
  }

  lemma PlacingKeepsInv(s: State, id: OfferId, row: Offer)
    requires Inv(s) && id !in s.offers && row.status == Pending
    requires OfferFits(row, s.sessions) && !HasPendingOffer(s.offers, row.session, row.driver)
    ensures Inv(s.(offers := s.offers[id := row]))
  {
    PlacingKeepsWinners(s.sessions, s.offers, s.winner, id, row);
    PlacingKeepsBookings(s, id, row);
  }

  lemma PlacingKeepsWinners(sessions: Sessions, offers: Offers, winner: map<SessionId, OfferId>, id: OfferId, row: Offer)
    requires WinnersOk(winner, offers, sessions) && id !in offers && row.status == Pending
    ensures WinnersOk(winner, offers[id := row], sessions)
  {
  }

  lemma PlacingKeepsBookings(s: State, id: OfferId, row: Offer)
    requires BookingsOk(s.rideOf, s.winner, s.offers, s.sessions, s.rides) && id !in s.offers
    ensures BookingsOk(s.rideOf, s.winner, s.offers[id := row], s.sessions, s.rides)
  {
  }

  lemma PlaceOfferKeepsInv(s: State, offer: OfferId, session: SessionId, driver: UserId, proposed: Int64, online: bool)
    requires Inv(s)
    ensures Inv(PlaceOfferStep(s, offer, session, driver, proposed, online))
  {
    if CanPlace(s, offer, session, driver, proposed, online) {
      PlacingKeepsInv(s, offer, Offer(session, driver, EffectiveProposal(s.sessions[session].offered, proposed), Pending, s.now));
    }
  }

  /** How one row of `rides` counts towards a driver's capacity. */
  lemma ActiveRidesAfter(rides: Rides, ride: RideId, row: Ride, driver: UserId)
    ensures ActiveRides(rides[ride := row], driver)
            == if Driving(row, driver) then ActiveRides(rides, driver) + {ride} else ActiveRides(rides, driver) - {ride}
  {
  }

  lemma CapacityAfter(rides: Rides, ride: RideId, row: Ride)
    requires CapacityOk(rides)
    requires row.driver.Some? ==>
      |ActiveRides(rides, row.driver.value)| < MAX_ACTIVE_RIDES || ride in ActiveRides(rides, row.driver.value) || !Driving(row, row.driver.value)
    ensures CapacityOk(rides[ride := row])
  {
    forall driver: UserId {:trigger ActiveRides(rides[ride := row], driver)}
      ensures |ActiveRides(rides[ride := row], driver)| <= MAX_ACTIVE_RIDES
    {
      ActiveRidesAfter(rides, ride, row, driver);
      if ride in ActiveRides(rides, driver) {
        assert ActiveRides(rides, driver) + {ride} == ActiveRides(rides, driver);
      } else {
        assert ActiveRides(rides, driver) - {ride} == ActiveRides(rides, driver);
      }
    }
  }

  /** Writing one ride row that keeps passenger, fare and session, or is new. */
  lemma RideWriteKeeps(sessions: Sessions, rides: Rides, ride: RideId, row: Ride)
    requires RidesOk(rides) && OneBooking(sessions, rides) && RideFits(row)
    requires RidePolicy.IsActive(row.status) ==>
      forall other :: other in rides && other != ride && rides[other].passenger == row.passenger ==> !RidePolicy.IsActive(rides[other].status)
    requires RidePolicy.IsActive(row.status) ==>
      forall id :: id in sessions && sessions[id].passenger == row.passenger ==> sessions[id].status != Open
    ensures RidesOk(rides[ride := row]) && OneBooking(sessions, rides[ride := row])
  {
  }

  lemma MoveKeepsBookings(s: State, ride: RideId, row: Ride)
    requires BookingsOk(s.rideOf, s.winner, s.offers, s.sessions, s.rides) && ride in s.rides
    requires row.session == s.rides[ride].session
    requires row.session.Some? ==> row == s.rides[ride].(status := row.status)
    ensures BookingsOk(s.rideOf, s.winner, s.offers, s.sessions, s.rides[ride := row])
  {
  }

  lemma MoveKeepsRides(sessions: Sessions, rides: Rides, ride: RideId, next: RidePolicy.Status)
    requires RidesOk(rides) && OneBooking(sessions, rides) && CapacityOk(rides)
    requires CanMove(rides, ride, next)
    ensures var after := rides[ride := rides[ride].(status := next)];
      RidesOk(after) && OneBooking(sessions, after) && CapacityOk(after)
  {
    var row := rides[ride].(status := next);
    assert RideFits(rides[ride]);
    RidePolicy.ActiveMeansCancellable(rides[ride].status);
    RideWriteKeeps(sessions, rides, ride, row);
    CapacityAfter(rides, ride, row);
  }

  lemma MoveKeepsSettlements(settlements: map<RideId, Settlement>, rides: Rides, ride: RideId, next: RidePolicy.Status)
    requires SettlementsOk(settlements, rides) && ride in rides
    ensures SettlementsOk(settlements, rides[ride := rides[ride].(status := next)])
  {
  }

  lemma MoveRideKeepsInv(s: State, ride: RideId, next: RidePolicy.Status)
    requires Inv(s)
    ensures Inv(MoveRideStep(s, ride, next))
  {
    if CanMove(s.rides, ride, next) {
      MoveKeepsRides(s.sessions, s.rides, ride, next);
      MoveKeepsBookings(s, ride, s.rides[ride].(status := next));
      MoveKeepsSettlements(s.settlements, s.rides, ride, next);
    }
  }

  lemma SettlementAdded(settlements: map<RideId, Settlement>, rides: Rides, ride: RideId, row: Ride, settlement: Settlement)
    requires SettlementsOk(settlements, rides) && ride !in settlements && row.driver.Some?
    requires settlement.fare == row.fare && settlement.commission + settlement.payout == row.fare
    requires 0 <= settlement.commission <= row.fare
    ensures SettlementsOk(settlements[ride := settlement], rides[ride := row])
  {
  }

  lemma AcceptRideKeepsInv(s: State, ride: RideId, driver: UserId, online: bool)
    requires Inv(s)
    ensures Inv(AcceptRideStep(s, ride, driver, online))
  {
    if CanTake(s, ride, driver, online) {
      var row := s.rides[ride].(driver := Some(driver), status := RidePolicy.Accepted);
      assert RideFits(s.rides[ride]);
      RideWriteKeeps(s.sessions, s.rides, ride, row);
      MoveKeepsBookings(s, ride, row);
      CapacityAfter(s.rides, ride, row);
      SettlementConserves(row.fare, s.commissionBps);
      SettlementAdded(s.settlements, s.rides, ride, row, NewSettlementSnapshot(row.fare, s.commissionBps).value);
    }
  }

  lemma RequestKeepsInv(s: State, ride: RideId, row: Ride)
    requires Inv(s) && ride !in s.rides
    requires row.driver.None? && row.session.None? && row.status == RidePolicy.Requested
    requires FreeToBook(s.sessions, s.rides, row.passenger)
    ensures Inv(s.(rides := s.rides[ride := row]))
  {
    forall other | other in s.rides && s.rides[other].passenger == row.passenger
      ensures !RidePolicy.IsActive(s.rides[other].status)
    {
    }
    RideWriteKeeps(s.sessions, s.rides, ride, row);
    CapacityAfter(s.rides, ride, row);
    RequestKeepsBookings(s, ride, row);
    assert SettlementsOk(s.settlements, s.rides[ride := row]);
  }

  lemma RequestKeepsBookings(s: State, ride: RideId, row: Ride)
    requires BookingsOk(s.rideOf, s.winner, s.offers, s.sessions, s.rides) && ride !in s.rides && row.session.None?
    ensures BookingsOk(s.rideOf, s.winner, s.offers, s.sessions, s.rides[ride := row])
  {
  }

  lemma CreateRideKeepsInv(s: State, ride: RideId, passenger: UserId, fare: Int64)
    requires Inv(s)
    ensures Inv(CreateRideStep(s, ride, passenger, fare))
  {
    if CreateRideStep(s, ride, passenger, fare) != s {
      ExpireKeepsInv(s, passenger);
      BookableHasNoOpenSession(s, passenger);
      RequestKeepsInv(ExpireStep(s, passenger), ride, Ride(passenger, None, fare, None, RidePolicy.Requested));
    }
  }

  /** The award proper: an offer that is the only pending one of its open session is chosen. */
  function WonSession(session: Session, driver: UserId): Session {
    session.(status := Won, accepted := Some(driver))
  }

  predicate Awardable(sessions: Sessions, offers: Offers, session: SessionId, offer: OfferId) {
    && session in sessions && sessions[session].status == Open
    && offer in offers && offers[offer].session == session && offers[offer].status == Pending
    && (forall other :: other in offers && other != offer && offers[other].session == session ==> offers[other].status != Pending)
  }

  lemma AwardKeepsSessions(sessions: Sessions, session: SessionId, driver: UserId)
    requires SessionsOk(sessions) && session in sessions
    ensures SessionsOk(sessions[session := WonSession(sessions[session], driver)])
  {
  }

  lemma AwardKeepsOffers(sessions: Sessions, offers: Offers, session: SessionId, offer: OfferId)
    requires OffersOk(offers, sessions) && PendingUnique(offers) && Awardable(sessions, offers, session, offer)
    ensures var after := offers[offer := offers[offer].(status := Chosen)];
      OffersOk(after, sessions[session := WonSession(sessions[session], offers[offer].driver)]) && PendingUnique(after)
  {
    var after := offers[offer := offers[offer].(status := Chosen)];
    var won := sessions[session := WonSession(sessions[session], offers[offer].driver)];
    forall id | id in after
      ensures OfferFits(after[id], won)
    {
      assert OfferFits(offers[id], sessions);
    }
  }

  lemma AwardKeepsWinners(
    sessions: Sessions, offers: Offers, winner: map<SessionId, OfferId>, session: SessionId, offer: OfferId)
    requires WinnersOk(winner, offers, sessions) && Awardable(sessions, offers, session, offer)
    ensures WinnersOk(winner[session := offer], offers[offer := offers[offer].(status := Chosen)],
                      sessions[session := WonSession(sessions[session], offers[offer].driver)])
  {
  }

  lemma AwardKeepsBookings(s: State, session: SessionId, offer: OfferId, ride: RideId)
    requires WinnersOk(s.winner, s.offers, s.sessions) && Awardable(s.sessions, s.offers, session, offer)
    requires BookingsOk(s.rideOf, s.winner, s.offers, s.sessions, s.rides) && ride !in s.rides
    ensures BookingsOk(
              s.rideOf[session := ride], s.winner[session := offer], s.offers[offer := s.offers[offer].(status := Chosen)],
              s.sessions[session := WonSession(s.sessions[session], s.offers[offer].driver)],
              s.rides[ride := Ride(s.sessions[session].passenger, Some(s.offers[offer].driver), s.offers[offer].fare,
                                   Some(session), RidePolicy.Accepted)])
  {
    assert session !in s.winner;
  }

  lemma AwardKeepsRides(sessions: Sessions, rides: Rides, session: SessionId, ride: RideId, row: Ride)
    requires RidesOk(rides) && OneBooking(sessions, rides) && SessionsOk(sessions) && session in sessions
    requires sessions[session].status == Open && row.passenger == sessions[session].passenger
    requires RideFits(row) && !HasActiveRide(rides, row.passenger) && row.driver.Some?
    ensures var won := sessions[session := WonSession(sessions[session], row.driver.value)];
      RidesOk(rides[ride := row]) && OneBooking(won, rides[ride := row])
  {
    var won := sessions[session := WonSession(sessions[session], row.driver.value)];
    assert OneBooking(won, rides);
    RideWriteKeeps(won, rides, ride, row);
  }

  /** Rejecting the losers makes the offer awardable. */
  lemma LosersRejected(s: State, session: SessionId, offer: OfferId, passenger: UserId, ride: RideId)
    requires CanAccept(s, session, offer, passenger, true, ride)
    ensures var rejected := RejectOffers(s.offers, Losers(s, session, offer));
      && Awardable(s.sessions, rejected, session, offer)
      && rejected[offer] == s.offers[offer]
      && Accepted(s, session, offer, passenger, ride).offers == rejected[offer := rejected[offer].(status := Chosen)]
  {
  }

  lemma AcceptOfferKeepsInv(s: State, session: SessionId, offer: OfferId, passenger: UserId, online: bool, ride: RideId)
    requires Inv(s)
    ensures Inv(AcceptOfferStep(s, session, offer, passenger, online, ride))
  {
    if CanAccept(s, session, offer, passenger, online, ride) {
      AcceptedKeepsTables(s, session, offer, passenger, ride);
      AcceptedKeepsRides(s, session, offer, passenger, ride);
    }
  }

  lemma AcceptedKeepsTables(s: State, session: SessionId, offer: OfferId, passenger: UserId, ride: RideId)
    requires CanAccept(s, session, offer, passenger, true, ride)
    requires SessionsOk(s.sessions) && OffersOk(s.offers, s.sessions) && PendingUnique(s.offers)
    requires WinnersOk(s.winner, s.offers, s.sessions)
    requires BookingsOk(s.rideOf, s.winner, s.offers, s.sessions, s.rides)
    ensures var after := Accepted(s, session, offer, passenger, ride);
      && SessionsOk(after.sessions) && OffersOk(after.offers, after.sessions) && PendingUnique(after.offers)
      && WinnersOk(after.winner, after.offers, after.sessions)
      && BookingsOk(after.rideOf, after.winner, after.offers, after.sessions, after.rides)
  {
    var doomed := Losers(s, session, offer);
    var rejected := RejectOffers(s.offers, doomed);
    LosersRejected(s, session, offer, passenger, ride);
    RejectKeeps(s.offers, doomed, s.sessions, s.winner);
    RejectKeepsBookings(s, doomed);
    AwardKeepsSessions(s.sessions, session, s.offers[offer].driver);
    AwardKeepsOffers(s.sessions, rejected, session, offer);
    AwardKeepsWinners(s.sessions, rejected, s.winner, session, offer);
    AwardKeepsBookings(s.(offers := rejected), session, offer, ride);
  }

  lemma AcceptedKeepsRides(s: State, session: SessionId, offer: OfferId, passenger: UserId, ride: RideId)
    requires CanAccept(s, session, offer, passenger, true, ride)
    requires SessionsOk(s.sessions) && RidesOk(s.rides) && OneBooking(s.sessions, s.rides)
    requires SettlementsOk(s.settlements, s.rides) && CapacityOk(s.rides)
    ensures var after := Accepted(s, session, offer, passenger, ride);
      && RidesOk(after.rides) && OneBooking(after.sessions, after.rides)
      && SettlementsOk(after.settlements, after.rides) && CapacityOk(after.rides)
  {
    var driver := s.offers[offer].driver;
    var row := Ride(passenger, Some(driver), s.offers[offer].fare, Some(session), RidePolicy.Accepted);
    AwardKeepsRides(s.sessions, s.rides, session, ride, row);
    CapacityAfter(s.rides, ride, row);
    SettlementConserves(row.fare, s.commissionBps);
    SettlementAdded(s.settlements, s.rides, ride, row, NewAcceptedRide(passenger, Some(driver), row.fare, s.commissionBps).value);
  }

  lemma StepKeepsInv(s: State, event: Event)
    requires Inv(s)
    ensures Inv(Step(s, event))
  {
    match event
    case ReadClock(_) =>
    case CreateSession(session, passenger, minimum, custom, target, duration) =>
      RequestSessionKeepsInv(s, session, passenger, OfferedFare(minimum, custom), target, duration, Step(s, event));
    case PlaceOffer(offer, session, driver, proposed, online) => PlaceOfferKeepsInv(s, offer, session, driver, proposed, online);
    case AcceptOffer(session, offer, passenger, online, ride) => AcceptOfferKeepsInv(s, session, offer, passenger, online, ride);
    case ExpireSessions(passenger) => ExpireKeepsInv(s, passenger);
    case CancelBidSession(session, passenger) => CancelBidKeepsInv(s, session, passenger);
    case CancelOffer(session, driver) => CancelOfferKeepsInv(s, session, driver);
    case Decline(session, driver) => DeclineKeepsInv(s, session, driver);
    case CreateRide(ride, passenger, fare) => CreateRideKeepsInv(s, ride, passenger, fare);
    case AcceptRide(ride, driver, online) => AcceptRideKeepsInv(s, ride, driver, online);
    case MoveRide(ride, next) => MoveRideKeepsInv(s, ride, next);
  }

  lemma {:induction false} RunKeepsInv(s: State, events: seq<Event>)
    requires Inv(s)
    ensures Inv(Run(s, events))
    decreases |events|
  {
    if events != [] {
      StepKeepsInv(s, events[0]);
      RunKeepsInv(Step(s, events[0]), events[1..]);
    }
  }

  lemma EmptyIsFine(now: Instant, commissionBps: Int64)
    ensures Inv(Empty(now, commissionBps))
  {
    forall driver
      ensures ActiveRides(map[], driver) == {}
    {
    }
  }

  lemma {:induction false} RunConcat(s: State, first: seq<Event>, second: seq<Event>)
    ensures Run(s, first + second) == Run(Run(s, first), second)
    decreases |first|
  {
    if first == [] {
      assert first + second == second;
    } else {
      assert (first + second)[0] == first[0] && (first + second)[1..] == first[1..] + second;
      RunConcat(Step(s, first[0]), first[1..], second);
    }
  }

  lemma RunOneMore(s: State, events: seq<Event>, event: Event)
    ensures Run(s, events + [event]) == Step(Run(s, events), event)
  {
    RunConcat(s, events, [event]);
  }
}
