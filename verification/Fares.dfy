/** Fare bounds and settlement arithmetic, in centavos and in Go's int64. */
module Fares {

  import opened Common

  const MAX_INT64: int := 0x7FFF_FFFF_FFFF_FFFF
  const TWO_64: int := 0x1_0000_0000_0000_0000

  type Int64 = value: int | -MAX_INT64 - 1 <= value <= MAX_INT64

  /** Two's-complement wrap-around of an int64 result. */
  function Wrap64(value: int): Int64 {
    var low := value % TWO_64;
    if low <= MAX_INT64 then low else low - TWO_64
  }

  const MIN_PROPOSED_FARE: int := 5_000
  const MAX_PROPOSED_FARE: int := 500_000

  /** Rounds half away from zero. */
  function Round(value: real): int {
    if value < 0.0 then -((0.5 - value).Floor) else (value + 0.5).Floor
  }

  /** The result is a nearest integer; of two equally near ones, the one farther from zero. */
  lemma RoundIsNearest(value: real)
    ensures var rounded := Round(value) as real;
      && value - 0.5 <= rounded <= value + 0.5
      && (0.0 <= value ==> value - 0.5 < rounded)
      && (value < 0.0 ==> rounded < value + 0.5)
  {
  }

  function Min(left: int, right: int): int {
    if left < right then left else right
  }

  function Max(left: int, right: int): int {
    if left < right then right else left
  }

  function MinFare(offered: Int64): int {
    Min(offered, Max(MIN_PROPOSED_FARE, Round(0.7 * offered as real)))
  }

  function MaxFare(offered: Int64): int {
    Max(MinFare(offered), Min(MAX_PROPOSED_FARE, Round(2.0 * offered as real)))
  }

  /** What a driver's proposal of zero stands for. */
  function EffectiveProposal(offered: Int64, proposed: Int64): Int64 {
    if proposed == 0 then offered else proposed
  }

  /** The service's check of a proposal against the session's offered fare. */
  predicate AcceptableFare(offered: Int64, proposed: Int64) {
    if 0 < offered then MinFare(offered) <= proposed <= MaxFare(offered)
    else MIN_PROPOSED_FARE <= proposed <= MAX_PROPOSED_FARE
  }

  /** The bounds are never empty, stay positive, never ask less than seven tenths (rounded)
      of the offer unless the floor does, and never more than its double or the ceiling. */
  lemma BoundsAreSane(offered: Int64)
    requires 0 < offered
    ensures 0 < MinFare(offered) <= offered && MinFare(offered) <= MaxFare(offered)
    ensures MaxFare(offered) <= 2 * offered
    ensures MinFare(offered) < offered ==> 10 * MinFare(offered) >= 7 * offered - 5
    ensures MAX_PROPOSED_FARE < MaxFare(offered) ==> MaxFare(offered) == MinFare(offered)
    ensures AcceptableFare(offered, MinFare(offered)) && AcceptableFare(offered, MaxFare(offered))
    ensures offered <= 5_000 ==> MinFare(offered) == offered
    ensures 5_000 < offered ==> 5_000 <= MinFare(offered)
    ensures 5_000 < MinFare(offered) ==> 10 * MinFare(offered) <= 7 * offered + 5
    ensures MaxFare(offered) == Max(MinFare(offered), Min(500_000, 2 * offered))
    ensures forall proposed: Int64 :: AcceptableFare(offered, proposed) <==> MinFare(offered) <= proposed <= MaxFare(offered)
  {
  }

  /** A proposal of zero takes the offer; on a session without a fare only the fixed bounds count. */
  lemma ProposalCondition(offered: Int64, proposed: Int64)
    ensures EffectiveProposal(offered, 0) == offered
    ensures proposed != 0 ==> EffectiveProposal(offered, proposed) == proposed
    ensures offered <= 0 ==> (AcceptableFare(offered, proposed) <==> 5_000 <= proposed <= 500_000)
  {
  }

  /** A driver can match the passenger's offer exactly when it does not exceed the ceiling. */
  lemma OfferIsMatchable(offered: Int64)
    requires 0 < offered
    ensures AcceptableFare(offered, EffectiveProposal(offered, 0)) <==> offered <= MAX_PROPOSED_FARE
  {
  }

  datatype Settlement = Settlement(fare: Int64, commissionBps: Int64, commission: int, payout: int)

  datatype SettlementError = InvalidSettlement | InvalidTrip

  function NewSettlementSnapshot(fare: Int64, commissionBps: Int64): Result<Settlement, SettlementError> {
    if fare <= 0 || commissionBps < 0 || 10_000 < commissionBps then Err(InvalidSettlement)
    else if commissionBps != 0 && MAX_INT64 / commissionBps < fare then Err(InvalidSettlement)
    else
      var commission := Wrap64(fare * commissionBps) / 10_000;
      Ok(Settlement(fare, commissionBps, commission, Wrap64(fare - commission)))
  }

  /** The arguments for which a commission can be computed at all. */
  predicate Settleable(fare: Int64, commissionBps: Int64) {
    0 < fare && 0 <= commissionBps <= 10_000 && fare * commissionBps <= MAX_INT64
  }

  lemma DivisionGuardIsExact(fare: Int64, commissionBps: Int64)
    requires 0 < fare && 0 < commissionBps
    ensures MAX_INT64 / commissionBps < fare <==> MAX_INT64 < fare * commissionBps
  {
    var quotient := MAX_INT64 / commissionBps;
    assert MAX_INT64 == quotient * commissionBps + MAX_INT64 % commissionBps;
    if quotient < fare {
      assert (quotient + 1) * commissionBps <= fare * commissionBps;
      assert (quotient + 1) * commissionBps == quotient * commissionBps + commissionBps;
    } else {
      assert fare * commissionBps <= quotient * commissionBps;
    }
  }

  lemma CommissionSplits(fare: int, commissionBps: int)
    requires 0 < fare && 0 <= commissionBps <= 10_000
    ensures var commission := fare * commissionBps / 10_000;
      0 <= commission <= fare && commission * 10_000 <= fare * commissionBps < (commission + 1) * 10_000
  {
    assert 0 <= fare * commissionBps <= fare * 10_000;
  }

  lemma WrapFits(value: int)
    requires -MAX_INT64 - 1 <= value <= MAX_INT64
    ensures Wrap64(value) == value
  {
  }

  lemma GuardedSettlement(fare: Int64, commissionBps: Int64)
    requires 0 < fare && 0 <= commissionBps <= 10_000
    ensures var result := NewSettlementSnapshot(fare, commissionBps);
      && (result.Ok? <==> fare * commissionBps <= MAX_INT64)
      && (result.Ok? ==>
            var commission := fare * commissionBps / 10_000;
            result.value == Settlement(fare, commissionBps, commission, fare - commission))
  {
    if 0 < commissionBps {
      DivisionGuardIsExact(fare, commissionBps);
    }
    if fare * commissionBps <= MAX_INT64 {
      CommissionSplits(fare, commissionBps);
      WrapFits(fare * commissionBps);
      WrapFits(fare - fare * commissionBps / 10_000);
    }
  }

  /** The guard rejects exactly the products that would overflow, and what it lets through
      splits the fare into a commission rounded down and a payout, with nothing lost. */
  lemma SettlementConserves(fare: Int64, commissionBps: Int64)
    ensures var result := NewSettlementSnapshot(fare, commissionBps);
      && (result.Ok? <==> Settleable(fare, commissionBps))
      && (result.Ok? ==>
            var split := result.value;
            && split.fare == fare && split.commissionBps == commissionBps
            && split.commission + split.payout == fare
            && 0 <= split.commission <= fare
            && split.commission * 10_000 <= fare * commissionBps < (split.commission + 1) * 10_000)
  {
    if 0 < fare && 0 <= commissionBps <= 10_000 {
      GuardedSettlement(fare, commissionBps);
      CommissionSplits(fare, commissionBps);
    }
  }

  datatype CashOutcome = Paid | Partial | Refused | Unpaid | Disputed

  datatype CashSettlement = CashSettlement(
    outcome: CashOutcome, received: int, change: int, collected: int, paid: bool, snapshot: Settlement)

  const NO_SETTLEMENT := Settlement(0, 0, 0, 0)

  function NewCashSettlement(fare: Int64, received: Int64, change: Int64, outcome: CashOutcome, commissionBps: Int64)
    : Result<CashSettlement, SettlementError>
  {
    if fare <= 0 || received < 0 || change < 0 || received < change then Err(InvalidSettlement)
    else
      var collected := received - change;
      var consistent :=
        match outcome
        case Paid => collected == fare
        case Partial => 0 < collected < fare && change == 0
        case Refused => collected == 0
        case Unpaid => collected == 0
        case Disputed => false;
      if !consistent then Err(InvalidSettlement)
      else if collected <= 0 then Ok(CashSettlement(outcome, received, change, collected, outcome == Paid, NO_SETTLEMENT))
      else
        var snapshot := NewSettlementSnapshot(collected, commissionBps);
        if snapshot.Err? then Err(snapshot.error)
        else Ok(CashSettlement(outcome, received, change, collected, outcome == Paid, snapshot.value))
  }

  /** The CHECK constraints of the ride_settlements table. */
  predicate TableAccepts(gross: int, received: int, change: int, outcome: CashOutcome, paid: bool) {
    && 0 <= gross && 0 <= received && 0 <= change && change <= received
    && (paid <==> outcome == Paid)
    && match outcome
       case Paid => 0 < gross && received - change == gross
       case Partial => change == 0 && 0 < received && received < gross
       case Unpaid => received == change
       case Refused => received == change
       case Disputed => true
  }

  /** Cash is conserved, and for an undisputed ride the service accepts exactly the amounts
      that the table's constraints accept and whose commission can be computed. */
  lemma CashIsConserved(fare: Int64, received: Int64, change: Int64, outcome: CashOutcome, commissionBps: Int64)
    ensures var result := NewCashSettlement(fare, received, change, outcome, commissionBps);
      && (outcome != Disputed ==>
            (result.Ok? <==> 0 < fare && TableAccepts(fare, received, change, outcome, outcome == Paid)
                             && (change < received ==> Settleable(received - change, commissionBps))))
      && (outcome == Disputed ==> result.Err?)
      && (result.Ok? ==>
            var cash := result.value;
            && cash.collected == received - change
            && (forall paid :: TableAccepts(fare, cash.received, cash.change, cash.outcome, paid) <==> paid == cash.paid)
            && cash.received == received && cash.change == change && cash.outcome == outcome
            && received == change + cash.snapshot.commission + cash.snapshot.payout
            && (change == received ==> cash.snapshot == Settlement(0, 0, 0, 0))
            && (change < received ==> cash.snapshot.fare == cash.collected && cash.snapshot.commissionBps == commissionBps)
            && (cash.paid ==> cash.snapshot.commission + cash.snapshot.payout == fare))
  {
    if 0 <= change <= received {
      SettlementConserves(received - change, commissionBps);
    }
  }

  /** The accepted ride carries the settlement of its fare, or nothing is created. */
  function NewAcceptedRide(passenger: int, driver: Option<int>, fare: Int64, commissionBps: Int64)
    : Result<Settlement, SettlementError>
  {
    if passenger <= 0 || driver.None? || driver.value <= 0 || fare <= 0 then Err(InvalidTrip)
    else NewSettlementSnapshot(fare, commissionBps)
  }

  /** A ride is created exactly for a passenger, a driver and a fare that can be settled. */
  lemma AcceptedRideCondition(passenger: int, driver: Option<int>, fare: Int64, commissionBps: Int64)
    ensures var result := NewAcceptedRide(passenger, driver, fare, commissionBps);
      && (result.Ok? <==> 0 < passenger && driver.Some? && 0 < driver.value && Settleable(fare, commissionBps))
      && (result == Err(InvalidTrip) <==> passenger <= 0 || driver.None? || driver.value <= 0 || fare <= 0)
      && (result.Ok? ==> result == NewSettlementSnapshot(fare, commissionBps))
  {
    SettlementConserves(fare, commissionBps);
  }
}
