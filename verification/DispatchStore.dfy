/** The store's transactions, statement by statement, on the four tables. */
module DispatchStore {

  import opened Common
  import opened Fares
  import RidePolicy
  import opened Dispatch
  import opened DispatchInvariant
  import opened DispatchSafety
  import opened DispatchHistory
  import opened DispatchEffects

  datatype Refusal =
    | InvalidFare | SessionClosed | SessionNotFound | Unauthorized | OfferNotFound
    | DriverUnavailable | CapacityReached | DuplicateBid | ActiveBooking | Unsettled(error: SettlementError)

  datatype Acceptance = Acceptance(session: Session, offer: Offer, ride: RideId, row: Ride)

  function Returned(s: State, session: SessionId, offer: OfferId, ride: RideId): Acceptance
    requires session in s.sessions && offer in s.offers && ride in s.rides
  {
    Acceptance(s.sessions[session], s.offers[offer], ride, s.rides[ride])
  }

  lemma {:induction false} RunKeepsRate(s: State, events: seq<Event>)
    ensures Run(s, events).commissionBps == s.commissionBps
    decreases |events|
  {
    if events != [] {
      StepKeepsRate(s, events[0]);
      RunKeepsRate(Step(s, events[0]), events[1..]);
    }
  }

  lemma StepKeepsRate(s: State, event: Event)
    ensures Step(s, event).commissionBps == s.commissionBps
  {
  }

  /** Choosing first and then rejecting in two statements is rejecting both groups at once. */
  lemma RejectInTwo(offers: Offers, offer: OfferId, first: set<OfferId>, second: set<OfferId>)
    requires offer in offers && offer !in first && offer !in second
    ensures var chosen := offers[offer].(status := Chosen);
      RejectOffers(RejectOffers(offers[offer := chosen], first), second) == RejectOffers(offers, first + second)[offer := chosen]
  {
  }

  lemma RejectInOne(offers: Offers, offer: OfferId, doomed: set<OfferId>)
    requires offer in offers && offer !in doomed
    ensures var chosen := offers[offer].(status := Chosen);
      RejectOffers(offers[offer := chosen], doomed) == RejectOffers(offers, doomed)[offer := chosen]
  {
  }

  /** A proposal within bounds, by a driver, on a session that is there. */
  predicate Considered(s: State, session: SessionId, driver: UserId, proposed: Int64) {
    && 0 < driver && session in s.sessions
    && FairProposal(s, session, proposed, if proposed == 0 then s.sessions[session].offered else proposed)
  }

  /** When an offer is refused, and with which error. */
  predicate RefusesOffer(s: State, session: SessionId, driver: UserId, proposed: Int64, online: bool, refusal: Refusal) {
    var considered := Considered(s, session, driver, proposed);
    var welcome := online && Welcomes(s, session, driver);
    match refusal
    case InvalidFare => driver == 0 || proposed < 0 || (session in s.sessions && !considered)
    case SessionNotFound => 0 < driver && 0 <= proposed && session !in s.sessions
    case DriverUnavailable => considered && !welcome
    case CapacityReached => considered && welcome && 5 <= |ActiveRides(s.rides, driver)|
    case DuplicateBid =>
      considered && welcome && |ActiveRides(s.rides, driver)| < 5
      && exists id :: id in s.offers && s.offers[id].session == session && s.offers[id].driver == driver && s.offers[id].status == Pending
    case _ => false
  }

  /** When an acceptance that is no replay is refused, and with which error. */
  predicate RefusesAcceptance(s: State, session: SessionId, offer: OfferId, passenger: UserId, online: bool, refusal: Refusal) {
    var standing := session in s.sessions && s.sessions[session].status == Open && s.now < s.sessions[session].expiresAt;
    var own := standing && s.sessions[session].passenger == passenger;
    var pending := own && offer in s.offers && s.offers[offer].session == session && s.offers[offer].status == Pending;
    var welcome := pending && online && s.sessions[session].target in {None, Some(s.offers[offer].driver)};
    match refusal
    case SessionClosed => !standing
    case Unauthorized => (standing && !own) || (pending && online && !welcome)
    case OfferNotFound => own && !pending
    case DriverUnavailable => pending && !online
    case CapacityReached => welcome && 5 <= |ActiveRides(s.rides, s.offers[offer].driver)|
    case ActiveBooking => welcome && |ActiveRides(s.rides, s.offers[offer].driver)| < 5 && HasActiveRide(s.rides, passenger)
    case _ => false
  }

  /** A listed offer of the same driver on the same session at the same fare, pending or accepted. */
  predicate Recovers(offers: Offers, session: SessionId, driver: UserId, fare: Int64, id: OfferId) {
    && Listed(offers, session, id) && offers[id].driver == driver && offers[id].fare == fare
    && offers[id].status in {Pending, Chosen}
  }

  /** The replay branch is for sessions that are over. */
  lemma NoReplayWhileOpen(s: State, session: SessionId, offer: OfferId, passenger: UserId)
    requires session in s.sessions && s.sessions[session].status == Open
    ensures forall found :: !Replays(s, session, offer, passenger, found)
  {
  }

  lemma PayableMeansSettled(s: State, offer: OfferId, passenger: UserId)
    requires offer in s.offers
    ensures NewAcceptedRide(passenger, Some(s.offers[offer].driver), s.offers[offer].fare, s.commissionBps).Ok?
            <==> Payable(s, offer, passenger)
  {
    AcceptedRideCondition(passenger, Some(s.offers[offer].driver), s.offers[offer].fare, s.commissionBps);
  }

  class Store {
    const commissionBps: Int64
    var now: Instant
    var sessions: Sessions
    var offers: Offers
    var rides: Rides
    var settlements: map<RideId, Settlement>
    var winner: map<SessionId, OfferId> // remembered for the proofs alone, like rideOf
    var rideOf: map<SessionId, RideId>
    ghost var start: Instant
    ghost var history: seq<Event>

    function View(): State
      reads this
    {
      State(now, commissionBps, sessions, offers, rides, settlements, winner, rideOf)
    }

    /** The tables are what the history of transactions made of empty ones. */
    ghost predicate Valid()
      reads this
    {
      View() == Run(Empty(start, commissionBps), history)
    }

    constructor (commissionBps: Int64, now: Instant)
      ensures Valid() && View() == Empty(now, commissionBps)
    {
      this.commissionBps := commissionBps;
      this.now := now;
      sessions, offers, rides, settlements := map[], map[], map[], map[];
      winner, rideOf := map[], map[];
      start, history := now, [];
    }

    ghost method Record(event: Event)
      requires View() == Step(Run(Empty(start, commissionBps), history), event)
      modifies this`history
      ensures Valid() && history == old(history) + [event]
    {
      RunOneMore(Empty(start, commissionBps), history, event);
      history := history + [event];
    }

    /** The statement ExpireBidSessions, which other transactions start with. */
    method ExpireRows(passenger: UserId)
      modifies this`sessions, this`offers
      ensures View() == ExpireStep(old(View()), passenger)
    {
      var timedOut := TimedOutSessions(sessions, passenger, now);
      sessions := ExpireSessionRows(sessions, passenger, now);
      offers := RejectOffers(offers, OffersIn(offers, timedOut));
    }

    method CreateSession(
      id: SessionId, passenger: UserId, minimum: Int64, custom: Option<Int64>, target: Option<UserId>, duration: nat)
      returns (result: Result<Session, Refusal>)
      requires Valid() && id !in sessions && 0 < passenger
      modifies this
      ensures Valid() && history == old(history) + [Event.CreateSession(id, passenger, minimum, custom, target, duration)]
      ensures result.Ok? ==> id in sessions && result.value == sessions[id] && sessions[id].status == Open
      ensures result.Err? ==> View() == old(View())
      ensures result.Err? ==> result.error in {InvalidFare, ActiveBooking}
      ensures result == Err(InvalidFare) <==> minimum <= 0 || (custom.Some? && custom.value < minimum)
      ensures result.Ok? <==> 0 < minimum && (custom.Some? ==> minimum <= custom.value) && Unbooked(old(View()), passenger)
      ensures result.Ok? ==>
        result.value == Session(passenger, if custom.Some? then custom.value else minimum, target, now + duration, Open, None)
    {
      ghost var event := Event.CreateSession(id, passenger, minimum, custom, target, duration);
      OfferedFareIsOwnFare(minimum, custom);
      var offered := OfferedFare(minimum, custom);
      if offered.None? {
        Record(event);
        return Err(InvalidFare);
      }
      var row := NewSession(passenger, offered.value, target, now + duration);
      var booked := InsertUnlessBooked(id, row);
      Record(event);
      result := if booked then Err(ActiveBooking) else Ok(row);
    }

    /** The transaction: expire, check, insert; on a conflict the expiry is rolled back. */
    method InsertUnlessBooked(id: SessionId, row: Session) returns (booked: bool)
      requires id !in sessions && 0 < row.passenger
      modifies this`sessions, this`offers
      ensures booked <==> !Unbooked(old(View()), row.passenger)
      ensures View() == CreateSessionStep(old(View()), id, row)
      ensures booked ==> View() == old(View())
      ensures !booked ==> id in sessions && sessions[id] == row
    {
      BookableMeansUnbooked(View(), row.passenger);
      var savedSessions, savedOffers := sessions, offers;
      ExpireRows(row.passenger);
      booked := HasOpenSession(sessions, row.passenger, now) || HasActiveRide(rides, row.passenger);
      if booked {
        sessions, offers := savedSessions, savedOffers;
      } else {
        sessions := sessions[id := row];
      }
    }

    method PlaceOffer(id: OfferId, session: SessionId, driver: UserId, proposed: Int64, online: bool)
      returns (result: Result<Offer, Refusal>)
      requires Valid() && id !in offers
      modifies this
      ensures Valid() && history == old(history) + [Event.PlaceOffer(id, session, driver, proposed, online)]
      ensures result.Ok? <==> CanPlace(old(View()), id, session, driver, proposed, online)
      ensures result.Ok? <==>
        session in old(sessions) && Welcomes(old(View()), session, driver) && MayBid(old(View()), session, driver, online)
        && FairProposal(old(View()), session, proposed, if proposed == 0 then old(sessions)[session].offered else proposed)
      ensures result.Ok? ==>
        session in sessions
      ensures result.Ok? ==>
        result.value == Offer(session, driver, if proposed == 0 then sessions[session].offered else proposed, Pending, now)
      ensures result.Ok? ==> id in offers && result.value == offers[id] && offers[id].status == Pending
      ensures result.Err? ==> View() == old(View())
      ensures forall refusal :: result == Err(refusal) <==> RefusesOffer(old(View()), session, driver, proposed, online, refusal)
    {
      PlacementCondition(View(), id, session, driver, proposed, online);
      result := Screen(session, driver, proposed, online);
      if result.Ok? {
        offers := offers[id := result.value];
      }
      Record(Event.PlaceOffer(id, session, driver, proposed, online));
    }

    /** The service's command: a duplicate of a standing offer at the same fare is answered with
        that offer. */
    method ProposeOffer(id: OfferId, session: SessionId, driver: UserId, proposed: Int64, online: bool)
      returns (result: Result<Offer, Refusal>)
      requires Valid() && id !in offers
      modifies this
      ensures Valid() && history == old(history) + [Event.PlaceOffer(id, session, driver, proposed, online)]
      ensures CanPlace(old(View()), id, session, driver, proposed, online) ==> id in offers && result == Ok(offers[id])
      ensures !CanPlace(old(View()), id, session, driver, proposed, online) ==> View() == old(View())
      ensures !CanPlace(old(View()), id, session, driver, proposed, online) && result.Ok? ==>
        && RefusesOffer(View(), session, driver, proposed, online, DuplicateBid)
        && result.value.session == session && result.value.driver == driver && result.value.status in {Pending, Chosen}
        && result.value.fare == (if proposed == 0 then sessions[session].offered else proposed)
        && exists other :: other in offers && result.value == offers[other] && |Earlier(offers, session, other)| < 100
      ensures forall refusal :: refusal != DuplicateBid ==>
        (result == Err(refusal) <==> RefusesOffer(old(View()), session, driver, proposed, online, refusal))
      ensures result == Err(DuplicateBid) ==>
        && RefusesOffer(View(), session, driver, proposed, online, DuplicateBid)
        && forall other ::
             (&& other in offers && offers[other].session == session && offers[other].driver == driver
              && offers[other].fare == (if proposed == 0 then sessions[session].offered else proposed)
              && offers[other].status in {Pending, Chosen}) ==> |Earlier(offers, session, other)| >= 100
    {
      result := PlaceOffer(id, session, driver, proposed, online);
      if result == Err(DuplicateBid) {
        var fare := EffectiveProposal(sessions[session].offered, proposed);
        if other :| other in offers && Recovers(offers, session, driver, fare, other) {
          result := Ok(offers[other]);
        }
      }
    }

    /** Every check in the order of the service and then of the transaction. */
    method Screen(session: SessionId, driver: UserId, proposed: Int64, online: bool) returns (result: Result<Offer, Refusal>)
      ensures forall id :: id !in offers ==> (result.Ok? <==> CanPlace(View(), id, session, driver, proposed, online))
      ensures result.Ok? ==> session in sessions
      ensures result.Ok? ==> result.value == Offer(session, driver, EffectiveProposal(sessions[session].offered, proposed), Pending, now)
      ensures forall refusal :: result == Err(refusal) <==> RefusesOffer(View(), session, driver, proposed, online, refusal)
    {
      if driver == 0 || proposed < 0 {
        return Err(InvalidFare);
      }
      if session !in sessions {
        return Err(SessionNotFound);
      }
      var fare := EffectiveProposal(sessions[session].offered, proposed);
      if !AcceptableFare(sessions[session].offered, fare) || fare <= 0 {
        return Err(InvalidFare);
      }
      if !Biddable(sessions, session, now) {
        return Err(DriverUnavailable);
      }
      if sessions[session].target.Some? && sessions[session].target.value != driver {
        return Err(DriverUnavailable);
      }
      if !online {
        return Err(DriverUnavailable);
      }
      if |ActiveRides(rides, driver)| >= MAX_ACTIVE_RIDES {
        return Err(CapacityReached);
      }
      if HasPendingOffer(offers, session, driver) {
        return Err(DuplicateBid);
      }
      result := Ok(Offer(session, driver, fare, Pending, now));
    }

    /** The branch taken when the session cannot be locked as an open one. */
    method Replay(session: SessionId, offer: OfferId, passenger: UserId) returns (result: Result<Acceptance, Refusal>)
      ensures result.Ok? <==> exists found :: Replays(View(), session, offer, passenger, found)
      ensures result.Ok? ==> Replays(View(), session, offer, passenger, result.value.ride)
      ensures result.Ok? ==> result.value == Returned(View(), session, offer, result.value.ride)
      ensures result.Err? ==> result.error == SessionClosed
    {
      if session in sessions && sessions[session].status == Won && sessions[session].passenger == passenger
         && Listed(offers, session, offer) && offers[offer].status == Chosen
         && sessions[session].accepted == Some(offers[offer].driver) && RidesFor(rides, session) != {}
      {
        var found :| found in RidesFor(rides, session);
        assert Replays(View(), session, offer, passenger, found);
        return Ok(Acceptance(sessions[session], offers[offer], found, rides[found]));
      }
      result := Err(SessionClosed);
    }

    method AcceptOffer(session: SessionId, offer: OfferId, passenger: UserId, online: bool, ride: RideId)
      returns (result: Result<Acceptance, Refusal>)
      requires Valid() && ride !in rides && ride !in settlements
      modifies this
      ensures Valid() && history == old(history) + [Event.AcceptOffer(session, offer, passenger, online, ride)]
      ensures CanAccept(old(View()), session, offer, passenger, online, ride) ==>
        && session in sessions && offer in offers && ride in rides
        && result == Ok(Returned(View(), session, offer, ride))
      ensures CanAccept(old(View()), session, offer, passenger, online, ride)
              <==> MayAccept(old(View()), session, offer, passenger, online) && Payable(old(View()), offer, passenger)
      ensures forall refusal :: result == Err(refusal) && !refusal.Unsettled? ==>
        RefusesAcceptance(old(View()), session, offer, passenger, online, refusal)
      ensures forall refusal :: RefusesAcceptance(old(View()), session, offer, passenger, online, refusal) ==>
        result == Err(refusal) || (result.Ok? && refusal == SessionClosed)
      ensures result.Err? && result.error.Unsettled? <==>
        MayAccept(old(View()), session, offer, passenger, online) && !Payable(old(View()), offer, passenger)
      ensures !CanAccept(old(View()), session, offer, passenger, online, ride) ==>
        && View() == old(View())
        && (result.Ok? <==> exists found :: Replays(View(), session, offer, passenger, found))
        && (result.Ok? ==> Replays(View(), session, offer, passenger, result.value.ride))
        && (result.Ok? ==> result.value == Returned(View(), session, offer, result.value.ride))
    {
      AcceptanceCondition(View(), session, offer, passenger, online, ride);
      AcceptanceDecides(View(), session, offer, passenger, online, ride);
      result := Transact(session, offer, passenger, online, ride);
      Record(Event.AcceptOffer(session, offer, passenger, online, ride));
    }

    /** The transaction: the checks, then the replay or the writes. */
    method Transact(session: SessionId, offer: OfferId, passenger: UserId, online: bool, ride: RideId)
      returns (result: Result<Acceptance, Refusal>)
      modifies this`sessions, this`offers, this`rides, this`settlements, this`winner, this`rideOf
      ensures var goes := MayAccept(old(View()), session, offer, passenger, online) && Payable(old(View()), offer, passenger);
        && (goes ==>
              && NewAcceptedRide(passenger, Some(old(offers)[offer].driver), old(offers)[offer].fare, commissionBps).Ok?
              && View() == Accepted(old(View()), session, offer, passenger, ride)
              && session in sessions && offer in offers && ride in rides
              && result == Ok(Returned(View(), session, offer, ride)))
        && (!goes ==>
              && View() == old(View())
              && (result.Ok? <==> exists found :: Replays(View(), session, offer, passenger, found))
              && (result.Ok? ==> Replays(View(), session, offer, passenger, result.value.ride))
              && (result.Ok? ==> result.value == Returned(View(), session, offer, result.value.ride)))
      ensures forall refusal :: result == Err(refusal) && !refusal.Unsettled? ==>
        RefusesAcceptance(old(View()), session, offer, passenger, online, refusal)
      ensures forall refusal :: RefusesAcceptance(old(View()), session, offer, passenger, online, refusal) ==>
        result == Err(refusal) || (result.Ok? && refusal == SessionClosed)
      ensures result.Err? && result.error.Unsettled? <==>
        MayAccept(old(View()), session, offer, passenger, online) && !Payable(old(View()), offer, passenger)
    {
      var refusal := AcceptanceRefusal(session, offer, passenger, online);
      if refusal.Some? {
        if refusal.value == SessionClosed {
          result := Replay(session, offer, passenger);
        } else {
          NoReplayWhileOpen(View(), session, offer, passenger);
          result := Err(refusal.value);
        }
      } else {
        PayableMeansSettled(View(), offer, passenger);
        result := Award(session, offer, passenger, ride);
      }
    }

    /** The writes of the acceptance transaction, rolled back when the fare cannot be settled. */
    method Award(session: SessionId, offer: OfferId, passenger: UserId, ride: RideId) returns (result: Result<Acceptance, Refusal>)
      requires session in sessions && offer in offers && offers[offer].session == session
      modifies this`sessions, this`offers, this`rides, this`settlements, this`winner, this`rideOf
      ensures result.Err? <==> NewAcceptedRide(passenger, Some(old(offers)[offer].driver), old(offers)[offer].fare, commissionBps).Err?
      ensures result.Err? ==> View() == old(View()) && result.error.Unsettled?
      ensures result.Ok? ==> View() == Accepted(old(View()), session, offer, passenger, ride)
      ensures result.Ok? ==> session in sessions && offer in offers && ride in rides
      ensures result.Ok? ==> result.value == Returned(View(), session, offer, ride)
    {
      var savedSessions, savedOffers := sessions, offers;
      var driver, fare := offers[offer].driver, offers[offer].fare;
      MarkAccepted(session, offer);
      var settlement := NewAcceptedRide(passenger, Some(driver), fare, commissionBps);
      if settlement.Err? {
        sessions, offers := savedSessions, savedOffers;
        return Err(Unsettled(settlement.error));
      }
      rides := rides[ride := Ride(passenger, Some(driver), fare, Some(session), RidePolicy.Accepted)];
      settlements := settlements[ride := settlement.value];
      winner, rideOf := winner[session := offer], rideOf[session := ride];
      result := Ok(Acceptance(sessions[session], offers[offer], ride, rides[ride]));
    }

    /** The checks of the acceptance transaction before its first write, in order. */
    method AcceptanceRefusal(session: SessionId, offer: OfferId, passenger: UserId, online: bool)
      returns (refusal: Option<Refusal>)
      ensures forall error :: refusal == Some(error) <==> RefusesAcceptance(View(), session, offer, passenger, online, error)
      ensures refusal.None? <==> MayAccept(View(), session, offer, passenger, online)
    {
      ActiveRideMeansUnfinished(rides, passenger);
      if !Biddable(sessions, session, now) {
        return Some(SessionClosed);
      }
      if sessions[session].passenger != passenger {
        return Some(Unauthorized);
      }
      if !(offer in offers && offers[offer].session == session && offers[offer].status == Pending) {
        return Some(OfferNotFound);
      }
      if !online {
        return Some(DriverUnavailable);
      }
      if sessions[session].target.Some? && sessions[session].target.value != offers[offer].driver {
        return Some(Unauthorized);
      }
      if |ActiveRides(rides, offers[offer].driver)| >= MAX_ACTIVE_RIDES {
        return Some(CapacityReached);
      }
      if HasActiveRide(rides, passenger) {
        return Some(ActiveBooking);
      }
      refusal := None;
    }

    /** The updates of the offers and of the session, one statement each. */
    method MarkAccepted(session: SessionId, offer: OfferId)
      requires session in sessions && offer in offers && offers[offer].session == session
      modifies this`sessions, this`offers
      ensures offers == RejectOffers(old(offers), Losers(old(View()), session, offer))
                        [offer := old(offers)[offer].(status := Chosen)]
      ensures sessions == old(sessions)[session := old(sessions)[session].(status := Won, accepted := Some(old(offers)[offer].driver))]
    {
      ghost var before := offers;
      var driver := offers[offer].driver;
      var rivals := OffersIn(offers, {session}) - {offer};
      var others := OffersBy(offers, driver) - {offer};
      offers := offers[offer := offers[offer].(status := Chosen)];
      offers := RejectOffers(offers, rivals);
      if |ActiveRides(rides, driver)| + 1 >= MAX_ACTIVE_RIDES {
        offers := RejectOffers(offers, others);
        RejectInTwo(before, offer, rivals, others);
        assert rivals + others == Losers(old(View()), session, offer);
      } else {
        RejectInOne(before, offer, rivals);
        assert rivals == Losers(old(View()), session, offer);
      }
      sessions := sessions[session := sessions[session].(status := Won, accepted := Some(driver))];
    }

    /** Two separate statements; `between` is whatever other transactions commit between them. */
    method CancelSession(session: SessionId, passenger: UserId, between: seq<Event>) returns (result: Result<Session, Refusal>)
      requires Valid()
      modifies this
      ensures Valid()
      ensures history == old(history) + [Event.ExpireSessions(passenger)] + between + [Event.CancelBidSession(session, passenger)]
      ensures PendingOffers(offers, session) == {}
      ensures result.Ok? ==> session in sessions && result.value == sessions[session]
      ensures result.Ok? ==> sessions[session].passenger == passenger && sessions[session].status == Withdrawn
      ensures result.Err? ==> result.error == SessionNotFound
      ensures var before := Run(Step(old(View()), Event.ExpireSessions(passenger)), between);
        result.Ok? <==> session in before.sessions && before.sessions[session].passenger == passenger && before.sessions[session].status == Open
    {
      ExpireRows(passenger);
      Record(Event.ExpireSessions(passenger));
      Interfere(between);
      var found := session in sessions && sessions[session].passenger == passenger && sessions[session].status == Open;
      offers := RejectOffers(offers, OffersIn(offers, {session}));
      if found {
        sessions := sessions[session := sessions[session].(status := Withdrawn)];
      }
      Record(Event.CancelBidSession(session, passenger));
      result := if found then Ok(sessions[session]) else Err(SessionNotFound);
    }

    /** Transactions of other requests. */
    method Interfere(events: seq<Event>)
      requires Valid()
      modifies this
      ensures Valid() && history == old(history) + events
      ensures View() == Run(old(View()), events)
    {
      RunConcat(Empty(start, commissionBps), history, events);
      RunKeepsRate(View(), events);
      var after := Run(View(), events);
      now, sessions, offers, rides := after.now, after.sessions, after.offers, after.rides;
      settlements, winner, rideOf := after.settlements, after.winner, after.rideOf;
      history := history + events;
    }

    method CancelOffer(session: SessionId, driver: UserId) returns (result: Result<Offer, Refusal>)
      requires Valid()
      modifies this
      ensures Valid() && history == old(history) + [Event.CancelOffer(session, driver)]
      ensures session in sessions && sessions[session].status == Open ==> PendingOffers(offers, session) * OffersBy(offers, driver) == {}
      ensures result.Ok? <==>
        session in sessions && sessions[session].status == Open && HasPendingOffer(old(offers), session, driver)
      ensures result.Err? ==> result.error == OfferNotFound
      ensures result.Ok? ==> result.value.session == session && result.value.driver == driver && result.value.status == Rejected
      ensures result.Ok? ==> exists id :: id in old(offers) && id in offers && old(offers)[id].status == Pending && result.value == offers[id]
    {
      if session in sessions && sessions[session].status == Open && HasPendingOffer(offers, session, driver) {
        var id :| id in offers && offers[id].session == session && offers[id].driver == driver && offers[id].status == Pending;
        offers := RejectOffers(offers, OffersIn(offers, {session}) * OffersBy(offers, driver));
        result := Ok(offers[id]);
      } else {
        assert session in sessions && sessions[session].status == Open ==>
          RejectOffers(offers, OffersIn(offers, {session}) * OffersBy(offers, driver)) == offers;
        result := Err(OfferNotFound);
      }
      Record(Event.CancelOffer(session, driver));
    }

    method DeclineSession(session: SessionId, driver: UserId) returns (result: Result<Session, Refusal>)
      requires Valid()
      modifies this
      ensures Valid() && history == old(history) + [Event.Decline(session, driver)]
      ensures result.Ok? <==>
        && session in old(sessions) && old(sessions)[session].target == Some(driver)
        && (old(sessions)[session].status == Declined || (old(sessions)[session].status == Open && now < old(sessions)[session].expiresAt))
      ensures offers == old(offers)
      ensures result.Ok? ==> session in sessions && result.value == sessions[session]
      ensures result.Ok? ==> sessions[session].status == Declined && sessions[session].target == Some(driver)
      ensures result == Err(SessionNotFound) <==> session !in sessions
      ensures result == Err(Unauthorized) <==> session in sessions && sessions[session].target != Some(driver)
      ensures result.Err? ==> result.error in {SessionNotFound, Unauthorized, SessionClosed}
      ensures result.Err? ==> View() == old(View())
    {
      if session in sessions && sessions[session].target == Some(driver)
         && (sessions[session].status == Declined || Biddable(sessions, session, now))
      {
        sessions := sessions[session := sessions[session].(status := Declined)];
        result := Ok(sessions[session]);
      } else if session !in sessions {
        result := Err(SessionNotFound);
      } else if sessions[session].target != Some(driver) {
        result := Err(Unauthorized);
      } else {
        result := Err(SessionClosed);
      }
      Record(Event.Decline(session, driver));
    }
  }
}
