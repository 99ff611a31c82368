/** Bidding: sessions, offers, rides and settlements under every interleaving of the
    dispatch transactions, the direct booking path and the ride lifecycle. */
module Dispatch {

  import opened Common
  import opened Fares
  import RidePolicy

  type UserId = nat
  type SessionId = nat
  type OfferId = nat
  type RideId = nat

  const MAX_ACTIVE_RIDES: nat := 5
  const OFFER_PAGE: nat := 100

  datatype SessionStatus = Open | Won | Withdrawn | Expired | Declined
  datatype OfferStatus = Pending | Chosen | Rejected

  datatype Session = Session(
    passenger: UserId, offered: Int64, target: Option<UserId>, expiresAt: Instant,
    status: SessionStatus, accepted: Option<UserId>)

  datatype Offer = Offer(session: SessionId, driver: UserId, fare: Int64, status: OfferStatus, placedAt: Instant)

  datatype Ride = Ride(
    passenger: UserId, driver: Option<UserId>, fare: Int64, session: Option<SessionId>, status: RidePolicy.Status)

  type Sessions = map<SessionId, Session>
  type Offers = map<OfferId, Offer>
  type Rides = map<RideId, Ride>

  /** `winner` and `rideOf` remember, per won session, the accepted offer and the ride it became. */
  datatype State = State(
    now: Instant,
    commissionBps: Int64,
    sessions: Sessions,
    offers: Offers,
    rides: Rides,
    settlements: map<RideId, Settlement>,
    winner: map<SessionId, OfferId>,
    rideOf: map<SessionId, RideId>)

  datatype Event =
    | ReadClock(reading: Instant) // for the next transaction; it may run after others that read later
    | CreateSession(session: SessionId, passenger: UserId, minimum: Int64, custom: Option<Int64>, target: Option<UserId>, duration: nat)
    | PlaceOffer(offer: OfferId, session: SessionId, driver: UserId, proposed: Int64, online: bool)
    | AcceptOffer(session: SessionId, offer: OfferId, passenger: UserId, online: bool, ride: RideId)
    | ExpireSessions(passenger: UserId)
    | CancelBidSession(session: SessionId, passenger: UserId)
    | CancelOffer(session: SessionId, driver: UserId)
    | Decline(session: SessionId, driver: UserId)
    | CreateRide(ride: RideId, passenger: UserId, fare: Int64)
    | AcceptRide(ride: RideId, driver: UserId, online: bool)
    | MoveRide(ride: RideId, next: RidePolicy.Status)

  predicate Driving(ride: Ride, driver: UserId) {
    ride.driver == Some(driver) && ride.status in {RidePolicy.Assigned, RidePolicy.Accepted, RidePolicy.Arrived, RidePolicy.InTransit}
  }

  function ActiveRides(rides: Rides, driver: UserId): set<RideId> {
    set ride | ride in rides && Driving(rides[ride], driver)
  }

  predicate HasActiveRide(rides: Rides, passenger: UserId) {
    exists ride :: ride in rides && rides[ride].passenger == passenger && RidePolicy.IsActive(rides[ride].status)
  }

  predicate HasOpenSession(sessions: Sessions, passenger: UserId, now: Instant) {
    exists id :: id in sessions && sessions[id].passenger == passenger && sessions[id].status == Open && now < sessions[id].expiresAt
  }

  predicate HasPendingOffer(offers: Offers, session: SessionId, driver: UserId) {
    exists id :: id in offers && offers[id].session == session && offers[id].driver == driver && offers[id].status == Pending
  }

  predicate Biddable(sessions: Sessions, session: SessionId, now: Instant) {
    session in sessions && sessions[session].status == Open && now < sessions[session].expiresAt
  }

  /** Sessions of the passenger whose time is up. */
  predicate TimedOut(session: Session, passenger: UserId, now: Instant) {
    session.passenger == passenger && session.status == Open && session.expiresAt <= now
  }

  function ExpireSessionRows(sessions: Sessions, passenger: UserId, now: Instant): Sessions {
    map id | id in sessions :: if TimedOut(sessions[id], passenger, now) then sessions[id].(status := Expired) else sessions[id]
  }

  /** UPDATE bid_offers SET status = 'rejected' WHERE status = 'pending' AND the given condition. */
  function RejectOffers(offers: Offers, doomed: set<OfferId>): Offers {
    map id | id in offers ::
      if id in doomed && offers[id].status == Pending then offers[id].(status := Rejected) else offers[id]
  }

  function OffersIn(offers: Offers, sessions: set<SessionId>): set<OfferId> {
    set id | id in offers && offers[id].session in sessions
  }

  function OffersBy(offers: Offers, driver: UserId): set<OfferId> {
    set id | id in offers && offers[id].driver == driver
  }

  function TimedOutSessions(sessions: Sessions, passenger: UserId, now: Instant): set<SessionId> {
    set id | id in sessions && TimedOut(sessions[id], passenger, now)
  }

  function ExpireStep(s: State, passenger: UserId): State {
    s.(sessions := ExpireSessionRows(s.sessions, passenger, s.now),
       offers := RejectOffers(s.offers, OffersIn(s.offers, TimedOutSessions(s.sessions, passenger, s.now))))
  }

  /** Both booking paths expire the passenger's sessions first; on a conflict the whole
      transaction, the expiry included, is rolled back. */
  predicate CanBook(s: State, passenger: UserId) {
    var expired := ExpireStep(s, passenger);
    !HasOpenSession(expired.sessions, passenger, s.now) && !HasActiveRide(expired.rides, passenger)
  }

  /** The fare the session is opened with, when the request is valid at all. */
  function OfferedFare(minimum: Int64, custom: Option<Int64>): Option<Int64> {
    if minimum <= 0 then None
    else if custom.None? then Some(minimum)
    else if custom.value < minimum then None
    else custom
  }

  function InsertSession(s: State, session: SessionId, row: Session): State {
    s.(sessions := s.sessions[session := row])
  }

  predicate CanOpen(s: State, session: SessionId, passenger: UserId) {
    session !in s.sessions && 0 < passenger && CanBook(s, passenger)
  }

  function CreateSessionStep(s: State, session: SessionId, row: Session): State {
    if CanOpen(s, session, row.passenger) then InsertSession(ExpireStep(s, row.passenger), session, row) else s
  }

  function NewSession(passenger: UserId, offered: Int64, target: Option<UserId>, expiresAt: Instant): Session {
    Session(passenger, offered, target, expiresAt, Open, None)
  }

  /** The service prices the session before the store inserts it. */
  function RequestSession(
    s: State, session: SessionId, passenger: UserId, offered: Option<Int64>, target: Option<UserId>, duration: nat): State
  {
    if offered.None? then s
    else CreateSessionStep(s, session, NewSession(passenger, offered.value, target, s.now + duration))
  }

  predicate CanPlace(s: State, offer: OfferId, session: SessionId, driver: UserId, proposed: Int64, online: bool) {
    && offer !in s.offers && session in s.sessions && 0 < driver && 0 <= proposed
    && AcceptableFare(s.sessions[session].offered, EffectiveProposal(s.sessions[session].offered, proposed))
    && 0 < EffectiveProposal(s.sessions[session].offered, proposed)
    && Biddable(s.sessions, session, s.now)
    && (s.sessions[session].target.Some? ==> s.sessions[session].target.value == driver)
    && online
    && |ActiveRides(s.rides, driver)| < MAX_ACTIVE_RIDES
    && !HasPendingOffer(s.offers, session, driver)
  }

  function PlaceOfferStep(
    s: State, offer: OfferId, session: SessionId, driver: UserId, proposed: Int64, online: bool): State
  {
    if !CanPlace(s, offer, session, driver, proposed, online) then s
    else
      var fare := EffectiveProposal(s.sessions[session].offered, proposed);
      s.(offers := s.offers[offer := Offer(session, driver, fare, Pending, s.now)])
  }

  /** Every check of the acceptance transaction. */
  predicate CanAccept(s: State, session: SessionId, offer: OfferId, passenger: UserId, online: bool, ride: RideId) {
    && Biddable(s.sessions, session, s.now)
    && s.sessions[session].passenger == passenger
    && offer in s.offers && s.offers[offer].session == session && s.offers[offer].status == Pending
    && online
    && (s.sessions[session].target.Some? ==> s.sessions[session].target.value == s.offers[offer].driver)
    && |ActiveRides(s.rides, s.offers[offer].driver)| < MAX_ACTIVE_RIDES
    && !HasActiveRide(s.rides, passenger)
    && ride !in s.rides && ride !in s.settlements
    && NewAcceptedRide(passenger, Some(s.offers[offer].driver), s.offers[offer].fare, s.commissionBps).Ok?
  }

  /** The offers rejected beside the accepted one: the session's others and, when the driver
      becomes full, all of the driver's others. */
  function Losers(s: State, session: SessionId, offer: OfferId): set<OfferId>
    requires offer in s.offers
  {
    var driver := s.offers[offer].driver;
    (OffersIn(s.offers, {session})
     + (if MAX_ACTIVE_RIDES <= |ActiveRides(s.rides, driver)| + 1 then OffersBy(s.offers, driver) else {}))
    - {offer}
  }

  function Accepted(s: State, session: SessionId, offer: OfferId, passenger: UserId, ride: RideId): State
    requires session in s.sessions && offer in s.offers
    requires NewAcceptedRide(passenger, Some(s.offers[offer].driver), s.offers[offer].fare, s.commissionBps).Ok?
  {
    var chosen := s.offers[offer].(status := Chosen);
    var settlement := NewAcceptedRide(passenger, Some(chosen.driver), chosen.fare, s.commissionBps).value;
    s.(offers := RejectOffers(s.offers, Losers(s, session, offer))[offer := chosen],
       sessions := s.sessions[session := s.sessions[session].(status := Won, accepted := Some(chosen.driver))],
       rides := s.rides[ride := Ride(passenger, Some(chosen.driver), chosen.fare, Some(session), RidePolicy.Accepted)],
       settlements := s.settlements[ride := settlement],
       winner := s.winner[session := offer],
       rideOf := s.rideOf[session := ride])
  }

  function AcceptOfferStep(
    s: State, session: SessionId, offer: OfferId, passenger: UserId, online: bool, ride: RideId): State
  {
    if CanAccept(s, session, offer, passenger, online, ride) then Accepted(s, session, offer, passenger, ride) else s
  }

  function WithdrawSession(sessions: Sessions, session: SessionId, passenger: UserId): Sessions {
    if session in sessions && sessions[session].passenger == passenger && sessions[session].status == Open
    then sessions[session := sessions[session].(status := Withdrawn)]
    else sessions
  }

  /** The CTE rejects the offers even when the outer UPDATE matches no session. */
  function CancelBidStep(s: State, session: SessionId, passenger: UserId): State {
    s.(offers := RejectOffers(s.offers, OffersIn(s.offers, {session})),
       sessions := WithdrawSession(s.sessions, session, passenger))
  }

  function CancelOfferStep(s: State, session: SessionId, driver: UserId): State {
    if session in s.sessions && s.sessions[session].status == Open
    then s.(offers := RejectOffers(s.offers, OffersIn(s.offers, {session}) * OffersBy(s.offers, driver)))
    else s
  }

  function DeclineSession(sessions: Sessions, session: SessionId, driver: UserId, now: Instant): Sessions {
    if session in sessions && sessions[session].target == Some(driver)
       && (sessions[session].status == Declined || Biddable(sessions, session, now))
    then sessions[session := sessions[session].(status := Declined)]
    else sessions
  }

  /** Declining leaves the session's pending offers alone. */
  function DeclineStep(s: State, session: SessionId, driver: UserId): State {
    s.(sessions := DeclineSession(s.sessions, session, driver, s.now))
  }

  function CreateRideStep(s: State, ride: RideId, passenger: UserId, fare: Int64): State {
    if ride in s.rides || ride in s.settlements || passenger == 0 || fare <= 0 || !CanBook(s, passenger) then s
    else
      var expired := ExpireStep(s, passenger);
      expired.(rides := s.rides[ride := Ride(passenger, None, fare, None, RidePolicy.Requested)])
  }

  predicate CanTake(s: State, ride: RideId, driver: UserId, online: bool) {
    && ride in s.rides && s.rides[ride].status == RidePolicy.Requested && ride !in s.settlements
    && online && |ActiveRides(s.rides, driver)| < MAX_ACTIVE_RIDES
    && NewSettlementSnapshot(s.rides[ride].fare, s.commissionBps).Ok?
  }

  function AcceptRideStep(s: State, ride: RideId, driver: UserId, online: bool): State {
    if !CanTake(s, ride, driver, online) then s
    else s.(rides := s.rides[ride := s.rides[ride].(driver := Some(driver), status := RidePolicy.Accepted)],
            settlements := s.settlements[ride := NewSettlementSnapshot(s.rides[ride].fare, s.commissionBps).value])
  }

  predicate CanMove(rides: Rides, ride: RideId, next: RidePolicy.Status) {
    ride in rides && RidePolicy.CanTransition(rides[ride].status, next) && next !in {RidePolicy.Assigned, RidePolicy.Accepted}
  }

  /** Any later step of the ride's lifecycle. */
  function MoveRideStep(s: State, ride: RideId, next: RidePolicy.Status): State {
    if CanMove(s.rides, ride, next) then s.(rides := s.rides[ride := s.rides[ride].(status := next)]) else s
  }

  function Step(s: State, event: Event): State {
    match event
    case ReadClock(reading) => s.(now := reading)
    case CreateSession(session, passenger, minimum, custom, target, duration) =>
      RequestSession(s, session, passenger, OfferedFare(minimum, custom), target, duration)
    case PlaceOffer(offer, session, driver, proposed, online) => PlaceOfferStep(s, offer, session, driver, proposed, online)
    case AcceptOffer(session, offer, passenger, online, ride) => AcceptOfferStep(s, session, offer, passenger, online, ride)
    case ExpireSessions(passenger) => ExpireStep(s, passenger)
    case CancelBidSession(session, passenger) => CancelBidStep(s, session, passenger)
    case CancelOffer(session, driver) => CancelOfferStep(s, session, driver)
    case Decline(session, driver) => DeclineStep(s, session, driver)
    case CreateRide(ride, passenger, fare) => CreateRideStep(s, ride, passenger, fare)
    case AcceptRide(ride, driver, online) => AcceptRideStep(s, ride, driver, online)
    case MoveRide(ride, next) => MoveRideStep(s, ride, next)
  }

  function Run(s: State, events: seq<Event>): State
    decreases |events|
  {
    if events == [] then s else Run(Step(s, events[0]), events[1..])
  }

  function Empty(now: Instant, commissionBps: Int64): State {
    State(now, commissionBps, map[], map[], map[], map[], map[], map[])
  }

  /** At most one open session per passenger; the accepted driver is set exactly on a won session. */
  predicate SessionsOk(sessions: Sessions) {
    && (forall id :: id in sessions ==> 0 < sessions[id].offered && (sessions[id].accepted.Some? <==> sessions[id].status == Won))
    && (forall first, second :: first in sessions && second in sessions && first != second ==>
          !(sessions[first].status == Open && sessions[second].status == Open
            && sessions[first].passenger == sessions[second].passenger))
  }

  predicate OfferFits(offer: Offer, sessions: Sessions) {
    && offer.session in sessions
    && 0 < offer.fare
    && (sessions[offer.session].target.Some? ==> sessions[offer.session].target.value == offer.driver)
    && (offer.status == Pending ==> sessions[offer.session].status in {Open, Declined})
  }

  predicate OffersOk(offers: Offers, sessions: Sessions) {
    forall id :: id in offers ==> OfferFits(offers[id], sessions)
  }

  predicate PendingUnique(offers: Offers) {
    forall first, second :: first in offers && second in offers && first != second ==>
      !(offers[first].status == Pending && offers[second].status == Pending
        && offers[first].session == offers[second].session && offers[first].driver == offers[second].driver)
  }

  /** A session is won exactly when it has a chosen offer, which is its only one. */
  predicate WinnersOk(winner: map<SessionId, OfferId>, offers: Offers, sessions: Sessions) {
    && (forall id :: id in sessions ==> (id in winner <==> sessions[id].status == Won))
    && (forall id :: id in winner ==>
          && id in sessions && winner[id] in offers && offers[winner[id]].status == Chosen
          && offers[winner[id]].session == id && sessions[id].accepted == Some(offers[winner[id]].driver))
    && (forall offer :: offer in offers && offers[offer].status == Chosen ==>
          offers[offer].session in winner && winner[offers[offer].session] == offer)
  }

  /** The ride of a won session: its only one, and it agrees with session and offer. */
  predicate BookingAgrees(ride: Ride, session: Session, offer: Offer) {
    ride.passenger == session.passenger && ride.driver == Some(offer.driver) && ride.fare == offer.fare
  }

  predicate BookingsOk(
    rideOf: map<SessionId, RideId>, winner: map<SessionId, OfferId>, offers: Offers, sessions: Sessions, rides: Rides)
  {
    && rideOf.Keys == winner.Keys
    && (forall id :: id in rideOf ==>
          && id in sessions && winner[id] in offers && rideOf[id] in rides && rides[rideOf[id]].session == Some(id)
          && BookingAgrees(rides[rideOf[id]], sessions[id], offers[winner[id]]))
    && (forall ride :: ride in rides && rides[ride].session.Some? ==>
          rides[ride].session.value in rideOf && rideOf[rides[ride].session.value] == ride)
  }

  predicate RideFits(ride: Ride) {
    && (ride.status == RidePolicy.Requested ==> ride.driver.None? && ride.session.None?)
    && (ride.driver.None? ==> ride.status in {RidePolicy.Requested, RidePolicy.Cancelled})
  }

  predicate RidesOk(rides: Rides) {
    && (forall ride :: ride in rides ==> RideFits(rides[ride]))
    && (forall first, second :: first in rides && second in rides && first != second ==>
          !(rides[first].passenger == rides[second].passenger
            && RidePolicy.IsActive(rides[first].status) && RidePolicy.IsActive(rides[second].status)))
  }

  /** Every ride with a driver has a settlement that splits its fare without loss. */
  predicate SettlementsOk(settlements: map<RideId, Settlement>, rides: Rides) {
    && (forall ride :: ride in settlements ==> ride in rides)
    && (forall ride :: ride in rides ==> (rides[ride].driver.Some? <==> ride in settlements))
    && (forall ride :: ride in settlements ==>
          && settlements[ride].fare == rides[ride].fare
          && settlements[ride].commission + settlements[ride].payout == rides[ride].fare
          && 0 <= settlements[ride].commission <= rides[ride].fare)
  }

  ghost predicate CapacityOk(rides: Rides) {
    forall driver :: |ActiveRides(rides, driver)| <= MAX_ACTIVE_RIDES
  }

  /** A passenger with an open session has no active ride. */
  predicate OneBooking(sessions: Sessions, rides: Rides) {
    forall id, ride :: id in sessions && ride in rides ==>
      !(sessions[id].status == Open && RidePolicy.IsActive(rides[ride].status)
        && sessions[id].passenger == rides[ride].passenger)
  }

  ghost predicate Inv(s: State) {
    && SessionsOk(s.sessions) && OffersOk(s.offers, s.sessions) && PendingUnique(s.offers)
    && WinnersOk(s.winner, s.offers, s.sessions)
    && BookingsOk(s.rideOf, s.winner, s.offers, s.sessions, s.rides)
    && RidesOk(s.rides) && SettlementsOk(s.settlements, s.rides) && CapacityOk(s.rides)
    && OneBooking(s.sessions, s.rides)
  }
}
