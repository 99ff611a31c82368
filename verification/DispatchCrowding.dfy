/** A reachable run in which one hundred offers come before the accepted one, so that repeating
    the acceptance finds nothing to replay. */
module DispatchCrowding {

  import opened Common
  import opened Fares
  import RidePolicy
  import opened Dispatch
  import opened DispatchInvariant
  import opened DispatchSafety
  import opened DispatchHistory
  import opened DispatchStranding

  /** Passenger 9 opens a session, on which drivers 10, 11, ... place `count` offers. */
  function CrowdingRun(count: nat): seq<Event> {
    if count == 0 then [CreateSession(0, 9, 6_000, None, None, 60)]
    else CrowdingRun(count - 1) + [PlaceOffer(count - 1, 0, 9 + count, 0, true)]
  }

  function PlacedOffers(count: nat): (offers: Offers)
    ensures forall id: OfferId :: id in offers <==> id < count
    ensures forall id :: id in offers ==> offers[id] == Offer(0, 10 + id, 6_000, Pending, 0)
  {
    if count == 0 then map[] else PlacedOffers(count - 1)[count - 1 := Offer(0, 9 + count, 6_000, Pending, 0)]
  }

  function Crowded(count: nat): State {
    Empty(0, 0).(sessions := map[0 := NewSession(9, 6_000, None, 60)], offers := PlacedOffers(count))
  }

  lemma NobodyDrives(driver: UserId)
    ensures ActiveRides(map[], driver) == {}
  {
  }

  lemma PlaceOneMore(count: nat)
    ensures Step(Crowded(count), PlaceOffer(count, 0, 10 + count, 0, true)) == Crowded(count + 1)
  {
    NobodyDrives(10 + count);
    OfferIsMatchable(6_000);
    assert CanPlace(Crowded(count), count, 0, 10 + count, 0, true);
    assert Crowded(count).offers[count := Offer(0, 10 + count, 6_000, Pending, 0)] == PlacedOffers(count + 1);
  }

  lemma SessionOpens()
    ensures Run(Empty(0, 0), CrowdingRun(0)) == Crowded(0)
  {
    var start, event := Empty(0, 0), CreateSession(0, 9, 6_000, None, None, 60);
    NothingTimedOut(start, 9);
    RunOneMore(start, [], event);
    assert [] + [event] == CrowdingRun(0);
    assert Step(start, event).sessions == map[0 := NewSession(9, 6_000, None, 60)];
  }

  lemma {:induction false} CrowdingReaches(count: nat)
    ensures Run(Empty(0, 0), CrowdingRun(count)) == Crowded(count)
  {
    if count == 0 {
      SessionOpens();
    } else {
      CrowdingReaches(count - 1);
      PlaceOneMore(count - 1);
      RunOneMore(Empty(0, 0), CrowdingRun(count - 1), PlaceOffer(count - 1, 0, 9 + count, 0, true));
    }
  }

  lemma {:induction false} OffersBefore(offer: OfferId, count: nat)
    requires offer < count
    ensures |Earlier(PlacedOffers(count), 0, offer)| == offer
  {
    var earlier := Earlier(PlacedOffers(count), 0, offer);
    if offer == 0 {
      assert earlier == {};
    } else {
      OffersBefore(offer - 1, count);
      assert earlier == Earlier(PlacedOffers(count), 0, offer - 1) + {offer - 1};
    }
  }

  /** The offer placed after one hundred others can be accepted, and whatever happens then, the
      same acceptance is not recognised again, although the session is still won by it. */
  lemma CrowdedAcceptanceIsForgotten(later: seq<Event>, found: RideId)
    ensures var s := Run(Empty(0, 0), CrowdingRun(100 + 1));
      && Inv(s) && CanAccept(s, 0, 100, 9, true, 0)
      && var now := Run(Accepted(s, 0, 100, 9, 0), later);
         && 0 in now.sessions && now.sessions[0].status == Won
         && 100 in now.offers && now.offers[OFFER_PAGE].status == Chosen
         && !Replays(now, 0, 100, 9, found)
  {
    var s := Crowded(OFFER_PAGE + 1);
    CrowdingReaches(OFFER_PAGE + 1);
    EmptyIsFine(0, 0);
    RunKeepsInv(Empty(0, 0), CrowdingRun(OFFER_PAGE + 1));
    NobodyDrives(10 + OFFER_PAGE);
    SettlementConserves(6_000, 0);
    OffersBefore(OFFER_PAGE, OFFER_PAGE + 1);
    RepeatedAcceptance(s, 0, OFFER_PAGE, 9, 0, later, found);
  }
}
