/** What each lifecycle command does, told from the command and the row alone: when it goes
    through, what the row becomes, and why it fails otherwise. */
module RideCommands {

  import opened Common
  import opened RidePolicy
  import opened RideLifecycle

  datatype Effect =
    | Unchanged              // the command has already had its effect
    | Fails(failure: Failure)
    | Becomes(row: Row)

  function CancelledRow(row: Row, canceller: UserId, reason: Reason, responsibility: Responsibility, details: string, now: Instant): Row {
    row.(status := Cancelled, completedAt := Some(now), cancelledBy := Some(canceller), reason := reason,
         responsibility := responsibility, details := details, writes := row.writes + 1)
  }

  function AcceptanceEffect(row: Row, driver: UserId, available: bool): Effect {
    if row.driver == Some(driver) && row.status in {Assigned, Accepted, Arrived, InTransit} then Unchanged
    else if !available then Fails(DriverUnavailable)
    else if row.status != Requested then Fails(Lost)
    else Becomes(row.(status := Accepted, driver := Some(driver), writes := row.writes + 1))
  }

  /** The driver has arrived at the pickup; the passenger's waiting time starts. */
  function ArrivalEffect(row: Row, driver: UserId, now: Instant, atPickup: bool, wait: nat): Effect {
    if row.driver != Some(driver) then Fails(Unauthorized)
    else if row.status == Arrived then Unchanged
    else if row.status !in {Assigned, Accepted} then Fails(InvalidStatus)
    else if !atPickup then Fails(LocationRejected)
    else Becomes(row.(status := Arrived, arrivedAt := Some(now), waitingUntil := Some(now + wait), writes := row.writes + 1))
  }

  /** The trip starts at the pickup, at least three seconds after the arrival. */
  function StartEffect(row: Row, driver: UserId, now: Instant, atPickup: bool): Effect {
    if row.driver != Some(driver) then Fails(Unauthorized)
    else if row.status == InTransit then Unchanged
    else if row.status != Arrived then Fails(InvalidStatus)
    else if !atPickup then Fails(LocationRejected)
    else if row.arrivedAt.Some? && now - row.arrivedAt.value < 3 then Fails(InvalidStatus)
    else Becomes(row.(status := InTransit, writes := row.writes + 1))
  }

  function CompletionEffect(row: Row, driver: UserId, now: Instant): Effect {
    if row.driver != Some(driver) then Fails(Unauthorized)
    else if row.status == Completed then Unchanged
    else if row.status != InTransit then Fails(InvalidStatus)
    else Becomes(row.(status := Completed, completedAt := Some(now), writes := row.writes + 1))
  }

  /** A no-show is accepted once the waiting time is up; within five seconds before that, the
      service lets it pass and the update turns it down. */
  function NoShowEffect(row: Row, driver: UserId, now: Instant): Effect {
    if row.driver != Some(driver) then Fails(Unauthorized)
    else if row.status == Cancelled then
      if row.cancelledBy == Some(driver) && row.reason == PassengerNoShow && row.responsibility == PassengerFault
      then Unchanged else Fails(InvalidStatus)
    else if row.status != Arrived then Fails(InvalidStatus)
    else if row.waitingUntil.None? || now < row.waitingUntil.value - 5 then Fails(NoShowNotReady)
    else if now < row.waitingUntil.value then Fails(Lost)
    else Becomes(CancelledRow(row, driver, PassengerNoShow, PassengerFault, "Driver completed the server-enforced pickup wait.", now))
  }

  /** Who bears a cancellation for one of the actor's own reasons. */
  function Blame(byPassenger: bool, reason: Reason): Responsibility {
    if byPassenger then
      (if reason in {PassengerChangedMind, FoundAnotherRide, WrongPickup} then PassengerFault else PendingReview)
    else if reason == VehicleProblem then DriverFault
    else if reason in {MedicalEmergency, UnsafePickup, PassengerBehaviorUnsafe, Accident} then SafetyRelated
    else if reason in {RoadBlocked, PickupInaccessible, UnableToContinue} then NoFault
    else PendingReview
  }

  predicate OwnReason(byPassenger: bool, reason: Reason) {
    if byPassenger then
      reason in {PassengerChangedMind, FoundAnotherRide, WrongPickup, DriverTakingTooLong, DriverAskedToCancel, DriverNoShow, Other}
    else
      reason in {PassengerRequestedCancel, PassengerUnreachable, PickupInaccessible, VehicleProblem, MedicalEmergency,
                 RoadBlocked, UnsafePickup, PassengerBehaviorUnsafe, Accident, UnableToContinue, Other}
  }

  predicate Explained(reason: Reason, details: string) {
    |details| <= 500 && (reason == Other ==> details != "")
  }

  /** A participant cancels an active ride for an own reason; a repetition changes nothing. */
  function CancellationEffect(row: Row, actor: UserId, reason: Reason, details: string, now: Instant): Effect {
    var byPassenger := row.passenger == actor;
    if !byPassenger && row.driver != Some(actor) then Fails(Unauthorized)
    else if row.status == Cancelled then
      if row.cancelledBy == Some(actor) && row.reason == reason && row.details == details then Unchanged else Fails(InvalidStatus)
    else if reason == PassengerNoShow then Fails(NoShowCommand)
    else if row.status == Completed then Fails(Policy(InvalidTransition))
    else if !OwnReason(byPassenger, reason) || !Explained(reason, details) then Fails(Policy(InvalidCancellation))
    else Becomes(CancelledRow(row, actor, reason, Blame(byPassenger, reason), details, now))
  }

  predicate EmergencyReason(reason: Reason) {
    reason in {Accident, MedicalEmergency, ThreatOrViolence, VehicleBreakdown, RoadHazard, PoliceOrDisaster, Other}
  }

  /** A participant stops a ride under way in an emergency. */
  function EmergencyEffect(row: Row, actor: UserId, reason: Reason, details: string, now: Instant): Effect {
    if row.passenger != actor && row.driver != Some(actor) then Fails(Unauthorized)
    else if row.status == Cancelled && row.cancelledBy == Some(actor) && row.reason == reason then Unchanged
    else if row.status !in {Assigned, Accepted, Arrived, InTransit} then Fails(Policy(EmergencyNotAllowed))
    else if EmergencyReason(reason) && Explained(reason, details)
    then Becomes(CancelledRow(row, actor, reason, SafetyRelated, details, now))
    else Fails(Policy(InvalidEmergency))
  }

  /** The generic command only ever confirms the status that is there. */
  function StatusEffect(row: Row, actor: UserId, next: Status): Effect {
    if row.passenger != actor && row.driver != Some(actor) then Fails(Unauthorized)
    else if row.status == next then Unchanged
    else match next
      case Cancelled => Fails(CancellationCommand)
      case Arrived => Fails(ArrivalCommand)
      case InTransit => Fails(TripStartCommand)
      case Completed => Fails(TripCompletionCommand)
      case Requested => Fails(InvalidStatus)
      case _ => Fails(if row.status == Requested then Unauthorized else InvalidStatus) // no one may assign by this command
  }

  function EffectOf(row: Row, command: Command, now: Instant, located: bool, wait: nat): Effect {
    match command
    case AcceptRide(driver, available) => AcceptanceEffect(row, driver, available)
    case UpdateStatus(actor, next) => StatusEffect(row, actor, next)
    case MarkArrived(driver) => ArrivalEffect(row, driver, now, located, wait)
    case StartTrip(driver) => StartEffect(row, driver, now, located)
    case CompleteTrip(driver) => CompletionEffect(row, driver, now)
    case MarkNoShow(driver) => NoShowEffect(row, driver, now)
    case Cancel(actor, reason, details) => CancellationEffect(row, actor, reason, details, now)
    case EmergencyStop(actor, reason, details) => EmergencyEffect(row, actor, reason, details, now)
  }

  /** Which of the driver's own commands go on to a write, and to which. */
  lemma DriverWrites(row: Row, driver: UserId, now: Instant, located: bool)
    ensures var arrival := Decide(row, MarkArrived(driver), now, located);
      && (arrival.Issue? <==> row.driver == Some(driver) && row.status in {Assigned, Accepted} && located)
      && (arrival.Issue? ==> arrival.write == SetArrived(driver, row.status))
    ensures var start := Decide(row, StartTrip(driver), now, located);
      && (start.Issue? <==>
            && row.driver == Some(driver) && row.status == Arrived && located
            && (row.arrivedAt.Some? ==> 3 <= now - row.arrivedAt.value))
      && (start.Issue? ==> start.write == SetInTransit(driver))
    ensures var completion := Decide(row, CompleteTrip(driver), now, located);
      && (completion.Issue? <==> row.driver == Some(driver) && row.status == InTransit)
      && (completion.Issue? ==> completion.write == SetCompleted(driver))
    ensures var noShow := Decide(row, MarkNoShow(driver), now, located);
      && (noShow.Issue? <==>
            && row.driver == Some(driver) && row.status == Arrived
            && row.waitingUntil.Some? && row.waitingUntil.value - 5 <= now)
      && (noShow.Issue? ==> noShow.write == SetNoShow(driver))
  {
  }

  /** Acceptance is tried by any available driver who does not already have the ride; an
      emergency stop by a participant of a ride under way, for a listed reason. */
  lemma OtherWrites(row: Row, actor: UserId, available: bool, reason: Reason, details: string, now: Instant, located: bool)
    ensures var acceptance := Decide(row, AcceptRide(actor, available), now, located);
      && (acceptance.Issue? <==>
            available && !(row.driver == Some(actor) && row.status in {Assigned, Accepted, Arrived, InTransit}))
      && (acceptance.Issue? ==> acceptance.write == SetAccepted(actor))
    ensures var stop := Decide(row, EmergencyStop(actor, reason, details), now, located);
      && (stop.Issue? <==>
            && (row.passenger == actor || row.driver == Some(actor))
            && row.status in {Assigned, Accepted, Arrived, InTransit} && EmergencyReason(reason) && Explained(reason, details))
      && (stop.Issue? ==> stop.write == SetStatus(actor, row.status, Cancelled, Evidence(reason, SafetyRelated, details)))
  {
    EmergencyCondition(row.status, reason, details);
  }

  /** A cancellation is read again exactly when a participant gives an own reason, other than
      the no-show, for an active ride; the evidence then names who is to blame. */
  lemma CancellationWrites(row: Row, actor: UserId, reason: Reason, details: string, now: Instant, located: bool)
    ensures var first := Decide(row, Cancel(actor, reason, details), now, located);
      var byPassenger := row.passenger == actor;
      && (first.Reload? <==>
            && (byPassenger || row.driver == Some(actor)) && row.status !in {Completed, Cancelled}
            && OwnReason(byPassenger, reason) && Explained(reason, details))
      && (first.Reload? ==>
            && first.evidence == Evidence(reason, Blame(byPassenger, reason), details)
            && DecideTransition(row, actor, Cancelled, Some(first.evidence)) == Issue(SetStatus(actor, row.status, Cancelled, first.evidence)))
  {
    var role := if row.passenger == actor then Passenger else Driver;
    CancellationCondition(role, row.status, reason, details);
    if ValidateCancellation(role, row.status, reason, details).Ok? {
      CancellationVerdict(role, row.status, reason, details);
    }
    TransitionsAreSteps(row.status, Cancelled);
  }

  /** The generic command gets as far as a write only for a driver, not the passenger, of a ride
      still requested; no such ride has a driver. */
  lemma StatusWrites(row: Row, actor: UserId, next: Status, now: Instant, located: bool)
    ensures var decision := Decide(row, UpdateStatus(actor, next), now, located);
      && (decision.Issue? <==>
            row.driver == Some(actor) && row.passenger != actor && row.status == Requested && next in {Assigned, Accepted})
      && (decision.Issue? ==> decision.write == SetStatus(actor, Requested, next, Evidence(NoReason, Unattributed, "")))
  {
    TransitionsAreSteps(row.status, next);
  }

  /** The generic update sets the end of the ride when it ends, and the evidence when it is cancelled. */
  lemma StatusUpdateIsExact(row: Row, actor: UserId, next: Status, evidence: Evidence, now: Instant, wait: nat)
    ensures Updated(row, SetStatus(actor, row.status, next, evidence), now, wait) ==
      if next == Cancelled then CancelledRow(row, actor, evidence.reason, evidence.responsibility, evidence.details, now)
      else row.(status := next, writes := row.writes + 1, completedAt := if next == Completed then Some(now) else row.completedAt)
  {
  }

  /** What a decision on the current row comes to when it is carried out at once. */
  function Carried(row: Row, decision: Decision, now: Instant, wait: nat): Effect
    requires !decision.Reload?
  {
    match decision
    case Reply(_) => Unchanged
    case Refuse(failure) => Fails(failure)
    case Issue(write) => if Matches(row, write, now) then Becomes(Updated(row, write, now, wait)) else Fails(Lost)
  }

  /** Arrival, start, completion and no-show: the service's decision, the guard and the update
      together have exactly the command's effect. */
  lemma DriverCommandsDecide(row: Row, command: Command, now: Instant, located: bool, wait: nat)
    requires RowOk(row, wait)
    requires command.MarkArrived? || command.StartTrip? || command.CompleteTrip? || command.MarkNoShow?
    ensures var decision := Decide(row, command, now, located);
      !decision.Reload? && Carried(row, decision, now, wait) == EffectOf(row, command, now, located, wait)
      && (decision.Reply? ==> decision.row == row)
  {
  }

  lemma AcceptanceDecides(row: Row, driver: UserId, available: bool, now: Instant, located: bool, wait: nat)
    requires RowOk(row, wait)
    ensures var decision := Decide(row, AcceptRide(driver, available), now, located);
      !decision.Reload? && Carried(row, decision, now, wait) == AcceptanceEffect(row, driver, available)
      && (decision.Reply? ==> decision.row == row)
  {
  }

  lemma EmergencyDecides(row: Row, actor: UserId, reason: Reason, details: string, now: Instant, located: bool, wait: nat)
    requires RowOk(row, wait)
    ensures var decision := Decide(row, EmergencyStop(actor, reason, details), now, located);
      !decision.Reload? && Carried(row, decision, now, wait) == EmergencyEffect(row, actor, reason, details, now)
      && (decision.Reply? ==> decision.row == row)
  {
    EmergencyCondition(row.status, reason, details);
  }

  lemma StatusDecides(row: Row, actor: UserId, next: Status, now: Instant, located: bool, wait: nat)
    requires RowOk(row, wait)
    ensures var decision := Decide(row, UpdateStatus(actor, next), now, located);
      !decision.Reload? && Carried(row, decision, now, wait) == StatusEffect(row, actor, next)
      && (decision.Reply? ==> decision.row == row)
  {
    TransitionsAreSteps(row.status, next);
  }

  /** A cancellation reads the row twice; on an unchanged row the second decision issues the write. */
  lemma CancellationDecides(row: Row, actor: UserId, reason: Reason, details: string, now: Instant, located: bool, wait: nat)
    requires RowOk(row, wait)
    ensures var decision := Decide(row, Cancel(actor, reason, details), now, located);
      var effect := CancellationEffect(row, actor, reason, details, now);
      && (decision.Reply? ==> decision.row == row && effect == Unchanged)
      && (decision.Refuse? ==> effect == Fails(decision.failure))
      && !decision.Issue?
      && (decision.Reload? ==>
            var again := DecideTransition(row, actor, Cancelled, Some(decision.evidence));
            again.Issue? && Carried(row, again, now, wait) == effect)
  {
    var role := if row.passenger == actor then Passenger else Driver;
    CancellationCondition(role, row.status, reason, details);
    if ValidateCancellation(role, row.status, reason, details).Ok? {
      CancellationVerdict(role, row.status, reason, details);
    }
    TransitionsAreSteps(row.status, Cancelled);
  }

  /** One reading and the decision on it; nothing happens once the command is past them. */
  function Consider(s: State, id: CommandId, located: bool): State {
    ThinkStep(LoadStep(s, id), id, located)
  }

  /** The steps of a command; those it does not need do nothing. */
  function Script(id: CommandId, ride: RideId, command: Command, located: bool): seq<Event> {
    [Begin(id, ride, command), Load(id), Think(id, located), Load(id), Think(id, located), Commit(id)]
  }

  /** The whole command, with no step of another command in between. */
  function Alone(s: State, id: CommandId, ride: RideId, command: Command, located: bool): State {
    Run(s, Script(id, ride, command, located))
  }

  lemma AloneInSteps(s: State, id: CommandId, ride: RideId, command: Command, located: bool)
    ensures Alone(s, id, ride, command, located)
            == CommitStep(Consider(Consider(Step(s, Begin(id, ride, command)), id, located), id, located), id)
  {
    var begin, load, think, commit := Begin(id, ride, command), Load(id), Think(id, located), Commit(id);
    var first := Consider(Step(s, begin), id, located);
    assert Script(id, ride, command, located) == [begin, load, think] + [load, think, commit];
    RunThree(s, begin, load, think, [load, think, commit]);
    assert [load, think, commit] + [] == [load, think, commit];
    RunThree(first, load, think, commit, []);
  }

  lemma RunFirst(s: State, event: Event, rest: seq<Event>)
    ensures Run(s, [event] + rest) == Run(Step(s, event), rest)
  {
    assert ([event] + rest)[1..] == rest;
  }

  lemma RunThree(s: State, first: Event, second: Event, third: Event, rest: seq<Event>)
    ensures Run(s, [first, second, third] + rest) == Run(Step(Step(Step(s, first), second), third), rest)
  {
    assert [first, second, third] + rest == [first] + ([second] + ([third] + rest));
    RunFirst(s, first, [second] + ([third] + rest));
    RunFirst(Step(s, first), second, [third] + rest);
    RunFirst(Step(Step(s, first), second), third, rest);
  }

  /** What a command leaves behind: its answer, and the ride's row if that has changed. */
  function Answer(row: Row, effect: Effect): Result<Row, Failure> {
    match effect
    case Unchanged => Ok(row)
    case Fails(failure) => Err(failure)
    case Becomes(after) => Ok(after)
  }

  function RowAfter(row: Row, effect: Effect): Row {
    if effect.Becomes? then effect.row else row
  }

  /** A reading and a decision move the command's own thread only. */
  lemma ConsiderFirst(s: State, id: CommandId, located: bool)
    requires id in s.threads && s.threads[id].pc.Started?
    ensures var thread := s.threads[id];
      Consider(s, id, located) == Goto(s, id,
        if thread.ride !in s.rows then Finished(Err(NotFound))
        else AfterDecision(Decide(s.rows[thread.ride], thread.command, s.now, located)))
  {
  }

  lemma ConsiderAgain(s: State, id: CommandId, located: bool)
    requires id in s.threads && s.threads[id].pc.Validated? && s.threads[id].ride in s.rows
    ensures var thread := s.threads[id];
      Consider(s, id, located) == Goto(s, id,
        AfterDecision(DecideTransition(s.rows[thread.ride], thread.command.actor, Cancelled, Some(thread.pc.evidence))))
  {
  }

  /** The decision the command ends with, when the row does not change under it. */
  function LastDecision(row: Row, command: Command, now: Instant, located: bool): Decision {
    var first := Decide(row, command, now, located);
    if first.Reload? then DecideTransition(row, command.actor, Cancelled, Some(first.evidence)) else first
  }

  lemma LastDecisionDecides(row: Row, command: Command, now: Instant, located: bool, wait: nat)
    requires RowOk(row, wait)
    ensures var decision := LastDecision(row, command, now, located);
      !decision.Reload? && Carried(row, decision, now, wait) == EffectOf(row, command, now, located, wait)
      && (decision.Reply? ==> decision.row == row)
  {
    match command
    case AcceptRide(driver, available) => AcceptanceDecides(row, driver, available, now, located, wait);
    case UpdateStatus(actor, next) => StatusDecides(row, actor, next, now, located, wait);
    case Cancel(actor, reason, details) => CancellationDecides(row, actor, reason, details, now, located, wait);
    case EmergencyStop(actor, reason, details) => EmergencyDecides(row, actor, reason, details, now, located, wait);
    case _ => DriverCommandsDecide(row, command, now, located, wait);
  }

  lemma AloneDecides(s: State, id: CommandId, ride: RideId, command: Command, located: bool)
    requires id !in s.threads && ride in s.rows
    requires !LastDecision(s.rows[ride], command, s.now, located).Reload?
    ensures var decision := LastDecision(s.rows[ride], command, s.now, located);
      Alone(s, id, ride, command, located)
      == CommitStep(s.(threads := s.threads[id := Thread(ride, command, AfterDecision(decision))]), id)
  {
    AloneInSteps(s, id, ride, command, located);
    var begun := Step(s, Begin(id, ride, command));
    ConsiderFirst(begun, id, located);
    var considered := Consider(begun, id, located);
    assert considered.threads == s.threads[id := considered.threads[id]];
    if considered.threads[id].pc.Validated? {
      ConsiderAgain(considered, id, located);
    }
    var again := Consider(considered, id, located);
    assert again.threads == s.threads[id := again.threads[id]];
  }

  /** An undisturbed command on a ride has exactly its effect: the answer, and the row. */
  lemma AloneHasItsEffect(s: State, id: CommandId, ride: RideId, command: Command, located: bool)
    requires id !in s.threads && ride in s.rows && RowOk(s.rows[ride], s.wait)
    ensures var effect := EffectOf(s.rows[ride], command, s.now, located, s.wait);
      var end := Alone(s, id, ride, command, located);
      && id in end.threads && end.threads[id] == Thread(ride, command, Finished(Answer(s.rows[ride], effect)))
      && end.rows == s.rows[ride := RowAfter(s.rows[ride], effect)]
  {
    LastDecisionDecides(s.rows[ride], command, s.now, located, s.wait);
    AloneDecides(s, id, ride, command, located);
  }

  lemma AloneOnNothing(s: State, id: CommandId, ride: RideId, command: Command, located: bool)
    requires id !in s.threads && ride !in s.rows
    ensures var end := Alone(s, id, ride, command, located);
      id in end.threads && end.threads[id] == Thread(ride, command, Finished(Err(NotFound))) && end.rows == s.rows
  {
    AloneInSteps(s, id, ride, command, located);
    ConsiderFirst(Step(s, Begin(id, ride, command)), id, located);
  }

  /** A ride begins requested without a driver, or accepted when it comes out of an accepted offer;
      a ride that is there is left alone. */
  lemma RidesBegin(s: State, ride: RideId, passenger: UserId, driver: UserId)
    ensures var requested := Step(s, Request(ride, passenger));
      var booked := Step(s, Book(ride, passenger, driver));
      && (ride in s.rows ==> requested == s && booked == s)
      && (ride !in s.rows ==>
            && requested.rows == s.rows[ride := Row(passenger, None, Requested, None, None, None, None, NoReason, Unattributed, "", 0)]
            && booked.rows == s.rows[ride := Row(passenger, Some(driver), Accepted, None, None, None, None, NoReason, Unattributed, "", 0)])
    ensures forall seconds: nat :: Step(s, Tick(seconds)) == s.(now := s.now + seconds)
  {
  }
}
