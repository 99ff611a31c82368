/** A reachable run in which a driver at the limit still has a pending offer. */
module DispatchStranding {

  import opened Common
  import opened Fares
  import RidePolicy
  import opened Dispatch
  import opened DispatchInvariant
  import opened DispatchSafety

  /** Driver 7 bids on the session of passenger 9, then takes `count` directly booked rides. */
  function StrandingRun(count: nat): seq<Event> {
    if count == 0 then
      [CreateSession(0, 9, 6_000, None, None, 60), PlaceOffer(0, 0, 7, 0, true)]
    else
      StrandingRun(count - 1) + [CreateRide(count, count, 1_000), AcceptRide(count, 7, true)]
  }

  function TakenRides(count: nat): (rides: Rides)
    ensures forall ride: RideId :: ride in rides <==> 1 <= ride <= count
    ensures forall ride :: ride in rides ==> rides[ride] == Ride(ride, Some(7), 1_000, None, RidePolicy.Accepted)
  {
    if count == 0 then map[] else TakenRides(count - 1)[count := Ride(count, Some(7), 1_000, None, RidePolicy.Accepted)]
  }

  function TakenSettlements(count: nat): (settlements: map<RideId, Settlement>)
    ensures forall ride: RideId :: ride in settlements <==> 1 <= ride <= count
  {
    if count == 0 then map[] else TakenSettlements(count - 1)[count := Settlement(1_000, 0, 0, 1_000)]
  }

  function Stranded(count: nat): State {
    State(0, 0, map[0 := NewSession(9, 6_000, None, 60)], map[0 := Offer(0, 7, 6_000, Pending, 0)],
          TakenRides(count), TakenSettlements(count), map[], map[])
  }

  function Booked(count: nat): State {
    Stranded(count).(rides := TakenRides(count)[count + 1 := Ride(count + 1, None, 1_000, None, RidePolicy.Requested)])
  }

  lemma NothingTimedOut(s: State, passenger: UserId)
    requires forall id :: id in s.sessions ==> s.now < s.sessions[id].expiresAt
    ensures ExpireStep(s, passenger) == s
  {
    assert TimedOutSessions(s.sessions, passenger, s.now) == {};
    assert OffersIn(s.offers, {}) == {};
    assert RejectOffers(s.offers, {}) == s.offers;
    assert ExpireSessionRows(s.sessions, passenger, s.now) == s.sessions;
  }

  lemma BookOneMore(count: nat)
    requires count < MAX_ACTIVE_RIDES
    ensures Step(Stranded(count), CreateRide(count + 1, count + 1, 1_000)) == Booked(count)
  {
    NothingTimedOut(Stranded(count), count + 1);
  }

  lemma TakeOneMore(count: nat)
    requires count < MAX_ACTIVE_RIDES
    ensures Step(Booked(count), AcceptRide(count + 1, 7, true)) == Stranded(count + 1)
  {
    CanTakeOneMore(count);
    assert NewSettlementSnapshot(1_000, 0) == Ok(Settlement(1_000, 0, 0, 1_000));
    var taken := Ride(count + 1, Some(7), 1_000, None, RidePolicy.Accepted);
    assert TakenRides(count)[count + 1 := Booked(count).rides[count + 1]][count + 1 := taken] == TakenRides(count + 1);
  }

  lemma CanTakeOneMore(count: nat)
    requires count < MAX_ACTIVE_RIDES
    ensures CanTake(Booked(count), count + 1, 7, true)
  {
    StrandedLoad(count);
    ActiveSize(TakenRides(count), count + 1, Booked(count).rides[count + 1], 7);
  }

  lemma {:induction false} StrandedLoad(count: nat)
    requires count <= MAX_ACTIVE_RIDES
    ensures |ActiveRides(TakenRides(count), 7)| == count
  {
    if count != 0 {
      StrandedLoad(count - 1);
      ActiveSize(TakenRides(count - 1), count, TakenRides(count)[count], 7);
    }
  }

  lemma {:induction false} StrandingReaches(count: nat)
    requires count <= MAX_ACTIVE_RIDES
    ensures Run(Empty(0, 0), StrandingRun(count)) == Stranded(count)
  {
    if count == 0 {
      StrandingStart();
    } else {
      StrandingReaches(count - 1);
      StrandingStep(count - 1, Run(Empty(0, 0), StrandingRun(count - 1)));
      RunPair(Empty(0, 0), StrandingRun(count - 1), CreateRide(count, count, 1_000), AcceptRide(count, 7, true));
    }
  }

  lemma StrandingStep(count: nat, s: State)
    requires count < MAX_ACTIVE_RIDES && s == Stranded(count)
    ensures Step(Step(s, CreateRide(count + 1, count + 1, 1_000)), AcceptRide(count + 1, 7, true)) == Stranded(count + 1)
  {
    BookOneMore(count);
    TakeOneMore(count);
  }

  lemma RunPair(s: State, events: seq<Event>, first: Event, second: Event)
    ensures Run(s, events + [first, second]) == Step(Step(Run(s, events), first), second)
  {
    var middle := Run(s, events);
    RunConcat(s, events, [first, second]);
    assert [first, second][1..] == [second];
    assert Run(Step(middle, first), [second]) == Run(Step(Step(middle, first), second), []);
  }

  lemma StrandingStart()
    ensures Run(Empty(0, 0), StrandingRun(0)) == Stranded(0)
  {
    var start := Empty(0, 0);
    var begun := Step(start, CreateSession(0, 9, 6_000, None, None, 60));
    NothingTimedOut(start, 9);
    assert ActiveRides(map[], 7) == {};
    OfferIsMatchable(6_000);
    assert begun == start.(sessions := map[0 := NewSession(9, 6_000, None, 60)]);
    assert Step(begun, PlaceOffer(0, 0, 7, 0, true)) == Stranded(0);
    RunPair(start, [], CreateSession(0, 9, 6_000, None, None, 60), PlaceOffer(0, 0, 7, 0, true));
    assert [] + StrandingRun(0) == StrandingRun(0);
  }

  /** Direct acceptances can strand a pending offer of a driver who has become full. */
  lemma DirectRidesStrandAnOffer()
    ensures var s := Run(Empty(0, 0), StrandingRun(MAX_ACTIVE_RIDES));
      0 in s.offers && s.offers[0].status == Pending && |ActiveRides(s.rides, s.offers[0].driver)| == MAX_ACTIVE_RIDES
      && !FullDriversIdle(s.offers, s.rides)
  {
    StrandingReaches(MAX_ACTIVE_RIDES);
    StrandedLoad(MAX_ACTIVE_RIDES);
  }

  /** A declined session can hold a pending offer, the only kind of closed session that can. */
  lemma DeclineStrandsAnOffer()
    ensures var s := Run(Empty(0, 0), [CreateSession(0, 9, 6_000, None, Some(7), 60), PlaceOffer(0, 0, 7, 0, true)] + [Decline(0, 7)]);
      0 in s.sessions && s.sessions[0].status == Declined && 0 in PendingOffers(s.offers, 0)
  {
    var start := Empty(0, 0);
    var first, second := CreateSession(0, 9, 6_000, None, Some(7), 60), PlaceOffer(0, 0, 7, 0, true);
    NothingTimedOut(start, 9);
    assert ActiveRides(map[], 7) == {};
    OfferIsMatchable(6_000);
    RunPair(start, [], first, second);
    assert [] + [first, second] == [first, second];
    RunOneMore(start, [first, second], Decline(0, 7));
    assert Step(start, first).sessions == map[0 := NewSession(9, 6_000, Some(7), 60)];
    assert Step(Step(start, first), second).offers == map[0 := Offer(0, 7, 6_000, Pending, 0)];
  }
}
