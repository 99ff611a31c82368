/** The ride state graph and the cancellation policy: pure decisions over statuses,
    actors and reasons, after normalisation of their spelling. */
module RidePolicy {

  import opened Common

  datatype Status = Requested | Assigned | Accepted | Arrived | InTransit | Completed | Cancelled

  predicate CanTransition(from: Status, to: Status) {
    match from
    case Requested => to == Assigned || to == Accepted || to == Cancelled
    case Assigned => to == Arrived || to == Cancelled
    case Accepted => to == Arrived || to == Cancelled
    case Arrived => to == InTransit || to == Cancelled
    case InTransit => to == Completed || to == Cancelled
    case _ => false
  }

  predicate CanEmergencyStop(status: Status) {
    status in {Assigned, Accepted, Arrived, InTransit}
  }

  predicate IsActive(status: Status) {
    status in {Requested, Assigned, Accepted, Arrived, InTransit}
  }

  predicate IsTerminal(status: Status) {
    status == Completed || status == Cancelled
  }

  /** Progress through the lifecycle. */
  function Rank(status: Status): (rank: nat)
    ensures rank <= 4
  {
    match status
    case Requested => 0
    case Assigned => 1
    case Accepted => 1
    case Arrived => 2
    case InTransit => 3
    case Completed => 4
    case Cancelled => 4
  }

  /** Consecutive statuses along a path of allowed transitions. */
  predicate IsPath(path: seq<Status>) {
    path != [] && forall i :: 0 <= i < |path| - 1 ==> CanTransition(path[i], path[i + 1])
  }

  /** Every transition makes progress, so no ride changes status more than four times. */
  lemma {:induction false} PathsAreShort(path: seq<Status>)
    requires IsPath(path)
    ensures |path| - 1 <= Rank(path[|path| - 1]) - Rank(path[0])
  {
    if 1 < |path| {
      var rest := path[1..];
      assert CanTransition(path[0], path[1]);
      forall i | 0 <= i < |rest| - 1
        ensures CanTransition(rest[i], rest[i + 1])
      {
        var j := i + 1;
        assert CanTransition(path[j], path[j + 1]);
      }
      PathsAreShort(rest);
    }
  }

  /** An active ride moves exactly one rank up, or is cancelled; nothing else moves. */
  lemma TransitionsAreSteps(from: Status, to: Status)
    ensures CanTransition(from, to) <==>
      from !in {Completed, Cancelled} && (to == Cancelled || Rank(to) == Rank(from) + 1)
    ensures Rank(Requested) == 0 && Rank(Assigned) == Rank(Accepted) == 1 && Rank(Arrived) == 2 && Rank(InTransit) == 3
    ensures Rank(Completed) == Rank(Cancelled) == 4
  {
  }

  /** A ride can still be cancelled exactly while it is active, and stopped in an
      emergency exactly while it is active and has a driver. */
  lemma ActiveMeansCancellable(status: Status)
    ensures IsActive(status) <==> CanTransition(status, Cancelled)
    ensures IsActive(status) <==> !IsTerminal(status)
    ensures CanEmergencyStop(status) <==> IsActive(status) && status != Requested
    ensures IsTerminal(status) <==> forall next :: !CanTransition(status, next)
  {
    if !IsTerminal(status) {
      assert CanTransition(status, Cancelled);
    }
  }

  datatype Actor = Passenger | Driver

  /** Cancellation and emergency codes share one column. */
  datatype Reason =
    | NoReason
    | PassengerChangedMind | FoundAnotherRide | WrongPickup
    | DriverTakingTooLong | DriverAskedToCancel | DriverNoShow
    | PassengerRequestedCancel | PassengerUnreachable | PassengerNoShow | PickupInaccessible
    | VehicleProblem | MedicalEmergency | RoadBlocked | UnsafePickup | PassengerBehaviorUnsafe
    | Accident | UnableToContinue
    | ThreatOrViolence | VehicleBreakdown | RoadHazard | PoliceOrDisaster
    | Other

  datatype Responsibility =
    | Unattributed | PassengerFault | DriverFault | SystemFault | NoFault | SafetyRelated | PendingReview | AdminOverride

  datatype PolicyError = InvalidTransition | InvalidCancellation | EmergencyNotAllowed | InvalidEmergency

  const MAX_DETAILS: nat := 500

  predicate IsPassengerReason(reason: Reason) {
    reason in {PassengerChangedMind, FoundAnotherRide, WrongPickup, DriverTakingTooLong,
               DriverAskedToCancel, DriverNoShow, Other}
  }

  predicate IsDriverReason(reason: Reason) {
    reason in {PassengerRequestedCancel, PassengerUnreachable, PassengerNoShow, PickupInaccessible,
               VehicleProblem, MedicalEmergency, RoadBlocked, UnsafePickup, PassengerBehaviorUnsafe,
               Accident, UnableToContinue, Other}
  }

  function PassengerResponsibility(reason: Reason): Responsibility {
    match reason
    case DriverTakingTooLong => PendingReview
    case DriverAskedToCancel => PendingReview
    case DriverNoShow => PendingReview
    case Other => PendingReview
    case _ => PassengerFault
  }

  function DriverResponsibility(reason: Reason): Responsibility {
    match reason
    case PassengerRequestedCancel => PendingReview
    case PassengerUnreachable => PendingReview
    case Other => PendingReview
    case VehicleProblem => DriverFault
    case MedicalEmergency => SafetyRelated
    case UnsafePickup => SafetyRelated
    case PassengerBehaviorUnsafe => SafetyRelated
    case Accident => SafetyRelated
    case RoadBlocked => NoFault
    case PickupInaccessible => NoFault
    case UnableToContinue => NoFault
    case _ => PendingReview
  }

  predicate DetailsFit(reason: Reason, details: string) {
    |details| <= MAX_DETAILS && (reason == Other ==> details != "")
  }

  function ValidateCancellation(actor: Actor, status: Status, reason: Reason, details: string)
    : Result<Responsibility, PolicyError>
  {
    if !CanTransition(status, Cancelled) then Err(InvalidTransition)
    else if !DetailsFit(reason, details) then Err(InvalidCancellation)
    else
      match actor
      case Passenger => if IsPassengerReason(reason) then Ok(PassengerResponsibility(reason)) else Err(InvalidCancellation)
      case Driver => if IsDriverReason(reason) then Ok(DriverResponsibility(reason)) else Err(InvalidCancellation)
  }

  /** The passenger's own reasons, as opposed to claims about the driver. */
  predicate OwnPassengerReason(reason: Reason) {
    reason in {PassengerChangedMind, FoundAnotherRide, WrongPickup}
  }

  /** An ordinary cancellation blames a participant only for the participant's own doing. */
  lemma CancellationBlame(actor: Actor, status: Status, reason: Reason, details: string)
    ensures var result := ValidateCancellation(actor, status, reason, details);
      result.Ok? ==>
        && (result.value == PassengerFault <==> actor == Passenger && OwnPassengerReason(reason))
        && (result.value == DriverFault <==> actor == Driver && reason == VehicleProblem)
        && result.value !in {Unattributed, SystemFault, AdminOverride}
  {
  }

  /** A cancellation is valid exactly for an active ride, with one of the actor's reasons, and
      with an explanation that fits and is not missing for an unlisted reason. */
  lemma CancellationCondition(actor: Actor, status: Status, reason: Reason, details: string)
    ensures ValidateCancellation(actor, status, reason, details).Ok? <==>
      && status !in {Completed, Cancelled}
      && |details| <= 500 && (reason == Other ==> details != "")
      && reason in (match actor
          case Passenger => {PassengerChangedMind, FoundAnotherRide, WrongPickup, DriverTakingTooLong,
                             DriverAskedToCancel, DriverNoShow, Other}
          case Driver => {PassengerRequestedCancel, PassengerUnreachable, PassengerNoShow, PickupInaccessible,
                          VehicleProblem, MedicalEmergency, RoadBlocked, UnsafePickup, PassengerBehaviorUnsafe,
                          Accident, UnableToContinue, Other})
    ensures ValidateCancellation(actor, status, reason, details) == Err(InvalidTransition) <==> status in {Completed, Cancelled}
  {
  }

  /** Who is blamed for a valid cancellation, reason by reason. */
  lemma CancellationVerdict(actor: Actor, status: Status, reason: Reason, details: string)
    requires ValidateCancellation(actor, status, reason, details).Ok?
    ensures ValidateCancellation(actor, status, reason, details).value ==
      if actor == Passenger then
        (if reason in {PassengerChangedMind, FoundAnotherRide, WrongPickup} then PassengerFault else PendingReview)
      else if reason == VehicleProblem then DriverFault
      else if reason in {MedicalEmergency, UnsafePickup, PassengerBehaviorUnsafe, Accident} then SafetyRelated
      else if reason in {RoadBlocked, PickupInaccessible, UnableToContinue} then NoFault
      else PendingReview
  {
  }

  /** An emergency stop is valid exactly on a ride under way with a driver, for an emergency. */
  lemma EmergencyCondition(status: Status, reason: Reason, details: string)
    ensures ValidateEmergencyStop(status, reason, details).Ok? <==>
      && status in {Assigned, Accepted, Arrived, InTransit}
      && |details| <= 500 && (reason == Other ==> details != "")
      && reason in {Accident, MedicalEmergency, ThreatOrViolence, VehicleBreakdown, RoadHazard, PoliceOrDisaster, Other}
    ensures ValidateEmergencyStop(status, reason, details) == Err(EmergencyNotAllowed) <==> status !in {Assigned, Accepted, Arrived, InTransit}
  {
  }

  function ValidateEmergencyStop(status: Status, reason: Reason, details: string): Result<(), PolicyError> {
    if !CanEmergencyStop(status) then Err(EmergencyNotAllowed)
    else if !DetailsFit(reason, details) then Err(InvalidEmergency)
    else if reason in {Accident, MedicalEmergency, ThreatOrViolence, VehicleBreakdown, RoadHazard, PoliceOrDisaster, Other}
    then Ok(())
    else Err(InvalidEmergency)
  }
}
