/** Lifecycle commands as concurrent threads: each reads a snapshot of the ride, decides on
    it, and later issues a guarded UPDATE against whatever the row has become. */
module RideLifecycle {

  import opened Common
  import opened RidePolicy

  type RideId = nat
  type UserId = nat
  type CommandId = nat

  /** `writes` counts the status changes committed since the row was inserted. */
  datatype Row = Row(
    passenger: UserId,
    driver: Option<UserId>,
    status: Status,
    arrivedAt: Option<Instant>,
    waitingUntil: Option<Instant>,
    completedAt: Option<Instant>,
    cancelledBy: Option<UserId>,
    reason: Reason,
    responsibility: Responsibility,
    details: string,
    writes: nat)

  datatype Command =
    | AcceptRide(actor: UserId, available: bool) // whether the driver is online and has capacity
    | UpdateStatus(actor: UserId, next: Status)
    | MarkArrived(actor: UserId)
    | StartTrip(actor: UserId)
    | CompleteTrip(actor: UserId)
    | MarkNoShow(actor: UserId)
    | Cancel(actor: UserId, reason: Reason, details: string)
    | EmergencyStop(actor: UserId, reason: Reason, details: string)

  datatype Failure =
    | NotFound | Unauthorized | InvalidStatus | CancellationCommand | ArrivalCommand | TripStartCommand
    | TripCompletionCommand | NoShowCommand | NoShowNotReady | LocationRejected | DriverUnavailable
    | Lost // the guarded UPDATE matched no row
    | Policy(error: PolicyError)

  /** The evidence stored together with a status change. */
  datatype Evidence = Evidence(reason: Reason, responsibility: Responsibility, details: string)

  /** The guarded UPDATE statements. */
  datatype Write =
    | SetAccepted(driver: UserId)
    | SetArrived(driver: UserId, current: Status)
    | SetInTransit(driver: UserId)
    | SetCompleted(driver: UserId)
    | SetNoShow(driver: UserId)
    | SetStatus(actor: UserId, current: Status, next: Status, evidence: Evidence)

  datatype Decision =
    | Reply(row: Row)
    | Refuse(failure: Failure)
    | Reload(evidence: Evidence) // a validated cancellation reads the ride once more
    | Issue(write: Write)

  const ARRIVAL_SETTLING: nat := 3
  const NO_SHOW_TOLERANCE: nat := 5

  /** The shared tail of UpdateStatus (no evidence) and Cancel. */
  function DecideTransition(snap: Row, actor: UserId, next: Status, evidence: Option<Evidence>): Decision {
    var isPassenger := snap.passenger == actor;
    var isDriver := snap.driver == Some(actor);
    if !isPassenger && !isDriver then Refuse(Unauthorized)
    else if snap.status == next then Reply(snap)
    else if next == Cancelled && evidence.None? then Refuse(CancellationCommand)
    else if next == Arrived then Refuse(ArrivalCommand)
    else if next == InTransit then Refuse(TripStartCommand)
    else if next == Completed then Refuse(TripCompletionCommand)
    else if !CanTransition(snap.status, next) then Refuse(InvalidStatus)
    else if isPassenger && next != Cancelled then Refuse(Unauthorized)
    else if snap.driver.None? && next != Cancelled then Refuse(Unauthorized)
    else Issue(SetStatus(actor, snap.status, next,
                         if evidence.Some? then evidence.value else Evidence(NoReason, Unattributed, "")))
  }

  function DecideCancel(snap: Row, actor: UserId, reason: Reason, details: string): Decision {
    var isPassenger := snap.passenger == actor;
    if !isPassenger && snap.driver != Some(actor) then Refuse(Unauthorized)
    else if snap.status == Cancelled then
      if snap.cancelledBy == Some(actor) && snap.reason == reason && snap.details == details
      then Reply(snap) else Refuse(InvalidStatus)
    else if reason == PassengerNoShow then Refuse(NoShowCommand)
    else
      var verdict := ValidateCancellation(if isPassenger then Passenger else Driver, snap.status, reason, details);
      if verdict.Err? then Refuse(Policy(verdict.error)) else Reload(Evidence(reason, verdict.value, details))
  }

  function DecideEmergency(snap: Row, actor: UserId, reason: Reason, details: string): Decision {
    if snap.passenger != actor && snap.driver != Some(actor) then Refuse(Unauthorized)
    else if snap.status == Cancelled && snap.cancelledBy == Some(actor) && snap.reason == reason then Reply(snap)
    else
      var verdict := ValidateEmergencyStop(snap.status, reason, details);
      if verdict.Err? then Refuse(Policy(verdict.error))
      else Issue(SetStatus(actor, snap.status, Cancelled, Evidence(reason, SafetyRelated, details)))
  }

  /** Commands of the assigned driver alone; `located` says whether the location checks pass. */
  function DecideDriver(snap: Row, command: Command, now: Instant, located: bool): Decision
    requires command.MarkArrived? || command.StartTrip? || command.CompleteTrip? || command.MarkNoShow?
  {
    if snap.driver != Some(command.actor) then Refuse(Unauthorized)
    else
      match command
      case MarkArrived(driver) =>
        if snap.status == Arrived then Reply(snap)
        else if snap.status != Assigned && snap.status != Accepted then Refuse(InvalidStatus)
        else if !located then Refuse(LocationRejected)
        else Issue(SetArrived(driver, snap.status))
      case StartTrip(driver) =>
        if snap.status == InTransit then Reply(snap)
        else if snap.status != Arrived then Refuse(InvalidStatus)
        else if !located then Refuse(LocationRejected)
        else if snap.arrivedAt.Some? && now < snap.arrivedAt.value + ARRIVAL_SETTLING then Refuse(InvalidStatus)
        else Issue(SetInTransit(driver))
      case CompleteTrip(driver) =>
        if snap.status == Completed then Reply(snap)
        else if snap.status != InTransit then Refuse(InvalidStatus)
        else Issue(SetCompleted(driver))
      case MarkNoShow(driver) =>
        if snap.status == Cancelled then
          if snap.cancelledBy == Some(driver) && snap.reason == PassengerNoShow && snap.responsibility == PassengerFault
          then Reply(snap) else Refuse(InvalidStatus)
        else if snap.status != Arrived then Refuse(InvalidStatus)
        else if snap.waitingUntil.None? || now + NO_SHOW_TOLERANCE < snap.waitingUntil.value then Refuse(NoShowNotReady)
        else Issue(SetNoShow(driver))
  }

  function Decide(snap: Row, command: Command, now: Instant, located: bool): Decision {
    match command
    case AcceptRide(driver, available) =>
      if snap.driver == Some(driver) && IsActive(snap.status) && snap.status != Requested then Reply(snap)
      else if !available then Refuse(DriverUnavailable)
      else Issue(SetAccepted(driver))
    case UpdateStatus(actor, next) => DecideTransition(snap, actor, next, None)
    case Cancel(actor, reason, details) => DecideCancel(snap, actor, reason, details)
    case EmergencyStop(actor, reason, details) => DecideEmergency(snap, actor, reason, details)
    case _ => DecideDriver(snap, command, now, located)
  }

  /** The WHERE clause. */
  predicate Matches(row: Row, write: Write, now: Instant) {
    match write
    case SetAccepted(_) => row.status == Requested
    case SetArrived(driver, current) => row.driver == Some(driver) && row.status == current && current in {Assigned, Accepted}
    case SetInTransit(driver) => row.driver == Some(driver) && row.status == Arrived
    case SetCompleted(driver) => row.driver == Some(driver) && row.status == InTransit
    case SetNoShow(driver) =>
      row.driver == Some(driver) && row.status == Arrived && row.waitingUntil.Some? && row.waitingUntil.value <= now
    case SetStatus(actor, current, _, _) => row.status == current && (row.passenger == actor || row.driver == Some(actor))
  }

  function Coalesce<T>(first: Option<T>, second: T): Option<T> {
    if first.Some? then first else Some(second)
  }

  /** The SET clause; `wait` is the configured pickup wait in seconds. */
  function Updated(row: Row, write: Write, now: Instant, wait: nat): Row {
    var counted := row.(writes := row.writes + 1);
    match write
    case SetAccepted(driver) => counted.(status := Accepted, driver := Some(driver))
    case SetArrived(_, _) =>
      counted.(status := Arrived, arrivedAt := Coalesce(row.arrivedAt, now), waitingUntil := Coalesce(row.waitingUntil, now + wait))
    case SetInTransit(_) => counted.(status := InTransit)
    case SetCompleted(_) => counted.(status := Completed, completedAt := Coalesce(row.completedAt, now))
    case SetNoShow(driver) =>
      counted.(status := Cancelled, completedAt := Some(now), cancelledBy := Some(driver), reason := PassengerNoShow,
               responsibility := PassengerFault, details := "Driver completed the server-enforced pickup wait.",
               arrivedAt := Coalesce(row.arrivedAt, now), waitingUntil := Coalesce(row.waitingUntil, now))
    case SetStatus(actor, _, next, evidence) =>
      var moved := counted.(status := next, completedAt := if IsTerminal(next) then Some(now) else row.completedAt);
      if next != Cancelled then moved
      else moved.(cancelledBy := Some(actor), reason := evidence.reason,
                  responsibility := evidence.responsibility, details := evidence.details)
  }

  datatype Pc =
    | Started
    | Loaded(snap: Row)
    | Validated(evidence: Evidence)
    | Reloaded(again: Row, checked: Evidence)
    | Ready(write: Write)
    | Finished(result: Result<Row, Failure>)

  datatype Thread = Thread(ride: RideId, command: Command, pc: Pc)

  datatype State = State(now: Instant, wait: nat, rows: map<RideId, Row>, threads: map<CommandId, Thread>)

  datatype Event =
    | Tick(seconds: nat)
    | Request(newRide: RideId, passenger: UserId)                  // a ride without a driver
    | Book(newRide: RideId, passenger: UserId, driver: UserId)     // a ride born from an accepted offer
    | Begin(id: CommandId, ride: RideId, command: Command)
    | Load(id: CommandId)
    | Think(id: CommandId, located: bool)
    | Commit(id: CommandId)

  function NewRow(passenger: UserId, driver: Option<UserId>): Row {
    Row(passenger, driver, if driver.Some? then Accepted else Requested, None, None, None, None, NoReason, Unattributed, "", 0)
  }

  function Goto(s: State, id: CommandId, pc: Pc): State
    requires id in s.threads
  {
    s.(threads := s.threads[id := s.threads[id].(pc := pc)])
  }

  function LoadStep(s: State, id: CommandId): State {
    if id !in s.threads then s
    else
      var thread := s.threads[id];
      if !thread.pc.Started? && !thread.pc.Validated? then s
      else if thread.ride !in s.rows then Goto(s, id, Finished(Err(NotFound)))
      else if thread.pc.Started? then Goto(s, id, Loaded(s.rows[thread.ride]))
      else Goto(s, id, Reloaded(s.rows[thread.ride], thread.pc.evidence))
  }

  function AfterDecision(decision: Decision): Pc {
    match decision
    case Reply(row) => Finished(Ok(row))
    case Refuse(failure) => Finished(Err(failure))
    case Reload(evidence) => Validated(evidence)
    case Issue(write) => Ready(write)
  }

  function ThinkStep(s: State, id: CommandId, located: bool): State {
    if id !in s.threads then s
    else
      var thread := s.threads[id];
      match thread.pc
      case Loaded(snap) => Goto(s, id, AfterDecision(Decide(snap, thread.command, s.now, located)))
      case Reloaded(snap, evidence) =>
        Goto(s, id, AfterDecision(DecideTransition(snap, thread.command.actor, Cancelled, Some(evidence))))
      case _ => s
  }

  function CommitStep(s: State, id: CommandId): State {
    if id !in s.threads || !s.threads[id].pc.Ready? then s
    else
      var ride := s.threads[id].ride;
      var write := s.threads[id].pc.write;
      if ride !in s.rows || !Matches(s.rows[ride], write, s.now) then Goto(s, id, Finished(Err(Lost)))
      else
        var row := Updated(s.rows[ride], write, s.now, s.wait);
        Goto(s, id, Finished(Ok(row))).(rows := s.rows[ride := row])
  }

  function Step(s: State, event: Event): State {
    match event
    case Tick(seconds) => s.(now := s.now + seconds)
    case Request(ride, passenger) => if ride in s.rows then s else s.(rows := s.rows[ride := NewRow(passenger, None)])
    case Book(ride, passenger, driver) =>
      if ride in s.rows then s else s.(rows := s.rows[ride := NewRow(passenger, Some(driver))])
    case Begin(id, ride, command) =>
      if id in s.threads then s else s.(threads := s.threads[id := Thread(ride, command, Started)])
    case Load(id) => LoadStep(s, id)
    case Think(id, located) => ThinkStep(s, id, located)
    case Commit(id) => CommitStep(s, id)
  }

  function Run(s: State, events: seq<Event>): State
    decreases |events|
  {
    if events == [] then s else Run(Step(s, events[0]), events[1..])
  }

  /** Who may be blamed, and on what evidence. */
  predicate FairlyAttributed(row: Row, wait: nat) {
    && (row.responsibility == PassengerFault ==>
          || (row.cancelledBy == Some(row.passenger) && OwnPassengerReason(row.reason))
          || (&& row.reason == PassengerNoShow && row.driver.Some? && row.cancelledBy == row.driver
              && row.arrivedAt.Some? && row.completedAt.Some? && row.arrivedAt.value + wait <= row.completedAt.value))
    && (row.responsibility == DriverFault ==>
          row.driver.Some? && row.cancelledBy == row.driver && row.reason == VehicleProblem)
  }

  predicate RowOk(row: Row, wait: nat) {
    && (row.status == Requested ==> row.driver.None?)
    && (row.status != Requested && row.status != Cancelled ==> row.driver.Some?)
    && (row.status in {Requested, Assigned, Accepted} ==> row.arrivedAt.None?)
    && (row.arrivedAt.None? <==> row.waitingUntil.None?)
    && (row.arrivedAt.Some? ==> row.waitingUntil.value == row.arrivedAt.value + wait)
    && (row.status in {Arrived, InTransit, Completed} ==> row.arrivedAt.Some?)
    && (row.completedAt.Some? <==> IsTerminal(row.status))
    && (row.status != Cancelled ==> row.cancelledBy.None? && row.responsibility == Unattributed)
    && FairlyAttributed(row, wait)
    && row.writes <= Rank(row.status)
  }

  /** A snapshot never disagrees with the row about who the participants are. */
  predicate SnapshotOf(snap: Row, row: Row, wait: nat) {
    RowOk(snap, wait) && snap.passenger == row.passenger && (snap.driver.Some? ==> snap.driver == row.driver)
  }

  predicate EvidenceOk(evidence: Evidence, actor: UserId, row: Row) {
    && (evidence.responsibility == PassengerFault ==> actor == row.passenger && OwnPassengerReason(evidence.reason))
    && (evidence.responsibility == DriverFault ==> row.driver == Some(actor) && evidence.reason == VehicleProblem)
  }

  predicate WriteOk(write: Write, row: Row) {
    write.SetStatus? ==>
      write.next == Cancelled && CanTransition(write.current, Cancelled) && EvidenceOk(write.evidence, write.actor, row)
  }

  predicate ThreadOk(thread: Thread, rows: map<RideId, Row>, wait: nat) {
    match thread.pc
    case Loaded(snap) => thread.ride in rows && SnapshotOf(snap, rows[thread.ride], wait)
    case Validated(evidence) =>
      thread.command.Cancel? && thread.ride in rows && EvidenceOk(evidence, thread.command.actor, rows[thread.ride])
    case Reloaded(snap, evidence) =>
      thread.command.Cancel? && thread.ride in rows && SnapshotOf(snap, rows[thread.ride], wait)
      && EvidenceOk(evidence, thread.command.actor, rows[thread.ride])
    case Ready(write) => !thread.command.UpdateStatus? && thread.ride in rows && WriteOk(write, rows[thread.ride])
    case _ => true
  }

  predicate RowsOk(s: State) {
    forall ride :: ride in s.rows ==> RowOk(s.rows[ride], s.wait)
  }

  predicate ThreadsOk(s: State) {
    forall id :: id in s.threads ==> ThreadOk(s.threads[id], s.rows, s.wait)
  }

  predicate Inv(s: State) {
    RowsOk(s) && ThreadsOk(s)
  }

  /** What a committed write does to a row: one allowed edge, the same participants. */
  predicate Advances(before: Row, after: Row) {
    && CanTransition(before.status, after.status)
    && after.passenger == before.passenger
    && (before.driver.Some? ==> after.driver == before.driver)
    && after.writes == before.writes + 1
  }

  lemma WriteKeepsRow(row: Row, write: Write, now: Instant, wait: nat)
    requires RowOk(row, wait) && WriteOk(write, row) && Matches(row, write, now)
    ensures RowOk(Updated(row, write, now, wait), wait) && Advances(row, Updated(row, write, now, wait))
  {
  }

  lemma DecisionOk(thread: Thread, rows: map<RideId, Row>, wait: nat, now: Instant, located: bool)
    requires thread.pc.Loaded? && ThreadOk(thread, rows, wait)
    ensures ThreadOk(thread.(pc := AfterDecision(Decide(thread.pc.snap, thread.command, now, located))), rows, wait)
  {
  }

  /** On an unchanged row the guard agrees with the decision, with two exceptions: the no-show
      check tolerates five seconds that the UPDATE does not, and acceptance leaves the status
      test to the UPDATE. */
  lemma FreshDecisionsCommit(row: Row, command: Command, now: Instant, located: bool, wait: nat)
    requires RowOk(row, wait)
    ensures var decision := Decide(row, command, now, located);
      decision.Issue? ==>
        (Matches(row, decision.write, now) <==>
           match decision.write
           case SetNoShow(_) => row.waitingUntil.Some? && row.waitingUntil.value <= now
           case SetAccepted(_) => row.status == Requested
           case _ => true)
  {
  }

  lemma CommitKeepsInv(s: State, id: CommandId)
    requires Inv(s)
    ensures Inv(CommitStep(s, id))
  {
    if id in s.threads && s.threads[id].pc.Ready? {
      var ride := s.threads[id].ride;
      var write := s.threads[id].pc.write;
      if Matches(s.rows[ride], write, s.now) {
        WriteKeepsRow(s.rows[ride], write, s.now, s.wait);
      }
    }
  }

  lemma ThinkKeepsInv(s: State, id: CommandId, located: bool)
    requires Inv(s)
    ensures Inv(ThinkStep(s, id, located))
  {
    if id in s.threads && s.threads[id].pc.Loaded? {
      DecisionOk(s.threads[id], s.rows, s.wait, s.now, located);
    }
  }

  lemma StepKeepsInv(s: State, event: Event)
    requires Inv(s)
    ensures Inv(Step(s, event))
  {
    match event
    case Think(id, located) => ThinkKeepsInv(s, id, located);
    case Commit(id) => CommitKeepsInv(s, id);
    case _ =>
  }

  lemma {:induction false} RunKeepsInv(s: State, events: seq<Event>)
    requires Inv(s)
    ensures Inv(Run(s, events))
    decreases |events|
  {
    if events != [] {
      StepKeepsInv(s, events[0]);
      RunKeepsInv(Step(s, events[0]), events[1..]);
    }
  }

  function Empty(now: Instant, wait: nat): State {
    State(now, wait, map[], map[])
  }

  /** However stale the snapshot a command decided on, the write it commits is an allowed
      edge from the row's real status, and no other step touches an existing row. */
  lemma CommitsAreEdges(s: State, event: Event, ride: RideId)
    requires Inv(s) && ride in s.rows
    ensures ride in Step(s, event).rows
    ensures var after := Step(s, event).rows[ride];
      after == s.rows[ride] || (event.Commit? && Advances(s.rows[ride], after))
  {
    if event.Commit? && event.id in s.threads && s.threads[event.id].pc.Ready? && s.threads[event.id].ride == ride
       && Matches(s.rows[ride], s.threads[event.id].pc.write, s.now) {
      WriteKeepsRow(s.rows[ride], s.threads[event.id].pc.write, s.now, s.wait);
    }
  }

  /** Over any run a ride's rank rises with every write, so a terminal ride is left alone. */
  lemma {:induction false} RidesOnlyAdvance(s: State, events: seq<Event>, ride: RideId)
    requires Inv(s) && ride in s.rows
    ensures ride in Run(s, events).rows
    ensures var after := Run(s, events).rows[ride];
      && s.rows[ride].writes <= after.writes
      && after.writes - s.rows[ride].writes <= Rank(after.status) - Rank(s.rows[ride].status)
      && (after.writes == s.rows[ride].writes ==> after == s.rows[ride])
      && after.passenger == s.rows[ride].passenger
    decreases |events|
  {
    if events != [] {
      CommitsAreEdges(s, events[0], ride);
      StepKeepsInv(s, events[0]);
      RidesOnlyAdvance(Step(s, events[0]), events[1..], ride);
    }
  }

  lemma TerminalIsFinal(s: State, events: seq<Event>, ride: RideId)
    requires Inv(s) && ride in s.rows && IsTerminal(s.rows[ride].status)
    ensures ride in Run(s, events).rows && Run(s, events).rows[ride] == s.rows[ride]
  {
    RidesOnlyAdvance(s, events, ride);
  }

  /** At most four status changes per ride, blame only where it is due, and the generic
      status command never gets as far as a write: true after every run. */
  lemma PolicySurvivesInterleaving(now: Instant, wait: nat, events: seq<Event>, ride: RideId, id: CommandId)
    ensures var end := Run(Empty(now, wait), events);
      && (ride in end.rows ==> end.rows[ride].writes <= 4 && FairlyAttributed(end.rows[ride], wait))
      && (id in end.threads && end.threads[id].command.UpdateStatus? ==> !end.threads[id].pc.Ready?)
  {
    RunKeepsInv(Empty(now, wait), events);
    RunKeepsWait(Empty(now, wait), events);
  }

  lemma {:induction false} RunKeepsWait(s: State, events: seq<Event>)
    ensures Run(s, events).wait == s.wait
    decreases |events|
  {
    if events != [] {
      RunKeepsWait(Step(s, events[0]), events[1..]);
    }
  }
}
