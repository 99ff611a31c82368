/** The in-memory assignment index: two maps kept in step, refining a single map from ride
    to assignment. Identifiers and statuses are strings after normalisation. */
module AssignmentProjection {

  type Id = string

  datatype Assignment = Assignment(ride: Id, driver: Id, passenger: Id, status: string)

  datatype Scope = Scope(ride: Id, driver: Id, passenger: Id)

  datatype Event =
    | RideMatched(scope: Scope, status: string)
    | RideStatusChanged(scope: Scope, status: string)
    | OtherEvent

  datatype Operation =
    | Publish(event: Event)
    | Remember(driver: Id, values: seq<Assignment>)

  type Rides = map<Id, Assignment>
  type Drivers = map<Id, set<Id>>

  predicate IsTerminal(status: string) {
    status in {"completed", "canceled", "cancelled"}
  }

  predicate Complete(scope: Scope) {
    scope.ride != "" && scope.driver != "" && scope.passenger != ""
  }

  function Placed(rides: Rides, scope: Scope, status: string): Rides {
    if Complete(scope) then rides[scope.ride := Assignment(scope.ride, scope.driver, scope.passenger, status)] else rides
  }

  function AfterEvent(rides: Rides, event: Event): Rides {
    match event
    case RideMatched(scope, status) => Placed(rides, scope, if status == "" then "assigned" else status)
    case RideStatusChanged(scope, status) =>
      if IsTerminal(status) then rides - {scope.ride}
      else if status == "" then rides
      else Placed(rides, scope, status)
    case OtherEvent => rides
  }

  predicate Usable(value: Assignment, driver: Id) {
    value.ride != "" && value.driver == driver && value.passenger != ""
  }

  function WithoutDriver(rides: Rides, driver: Id): Rides {
    map ride | ride in rides && rides[ride].driver != driver :: rides[ride]
  }

  function WithAll(rides: Rides, driver: Id, values: seq<Assignment>): Rides {
    if values == [] then rides
    else
      var last := values[|values| - 1];
      var before := WithAll(rides, driver, values[..|values| - 1]);
      if Usable(last, driver) then before[last.ride := last] else before
  }

  function AfterRemember(rides: Rides, driver: Id, values: seq<Assignment>): Rides {
    if driver == "" then rides else WithAll(WithoutDriver(rides, driver), driver, values)
  }

  function Apply(rides: Rides, operation: Operation): Rides {
    match operation
    case Publish(event) => AfterEvent(rides, event)
    case Remember(driver, values) => AfterRemember(rides, driver, values)
  }

  function Replay(operations: seq<Operation>): Rides {
    if operations == [] then map[]
    else Apply(Replay(operations[..|operations| - 1]), operations[|operations| - 1])
  }

  /** The value names the ride for this driver, and a passenger. */
  predicate Names(value: Assignment, driver: Id, ride: Id) {
    value.ride == ride && ride != "" && value.driver == driver && value.passenger != ""
  }

  /** `index` is the last value that names the ride. */
  predicate LastNaming(values: seq<Assignment>, driver: Id, ride: Id, index: nat) {
    && index < |values| && Names(values[index], driver, ride)
    && forall i :: index < i < |values| ==> !Names(values[i], driver, ride)
  }

  predicate Named(values: seq<Assignment>, driver: Id, ride: Id) {
    exists i :: 0 <= i < |values| && Names(values[i], driver, ride)
  }

  lemma {:induction false} LastNamedWins(rides: Rides, driver: Id, values: seq<Assignment>, ride: Id, index: nat)
    requires LastNaming(values, driver, ride, index)
    ensures ride in WithAll(rides, driver, values) && WithAll(rides, driver, values)[ride] == values[index]
  {
    var before := values[..|values| - 1];
    if index < |before| {
      assert forall i :: index < i < |before| ==> before[i] == values[i];
      LastNamedWins(rides, driver, before, ride, index);
    }
  }

  lemma {:induction false} UnnamedStays(rides: Rides, driver: Id, values: seq<Assignment>, ride: Id)
    requires !Named(values, driver, ride)
    ensures ride in WithAll(rides, driver, values) <==> ride in rides
    ensures ride in rides ==> WithAll(rides, driver, values)[ride] == rides[ride]
  {
    if values != [] {
      var before := values[..|values| - 1];
      assert forall i :: 0 <= i < |before| ==> before[i] == values[i];
      UnnamedStays(rides, driver, before, ride);
      assert !Names(values[|values| - 1], driver, ride);
    }
  }

  /** Remember replaces the driver's slice: what its input names is there, as last named; a
      ride it does not name stays exactly when another driver owns it. */
  lemma RememberReplacesSlice(rides: Rides, driver: Id, values: seq<Assignment>, ride: Id)
    requires driver != ""
    ensures var after := Apply(rides, Remember(driver, values));
      if Named(values, driver, ride) then
        exists index: nat :: LastNaming(values, driver, ride, index) && ride in after && after[ride] == values[index]
      else if ride in rides && rides[ride].driver != driver then
        ride in after && after[ride] == rides[ride]
      else
        ride !in after
  {
    if Named(values, driver, ride) {
      var index := FindLast(values, driver, ride);
      LastNamedWins(WithoutDriver(rides, driver), driver, values, ride, index);
    } else {
      UnnamedStays(WithoutDriver(rides, driver), driver, values, ride);
    }
  }

  /** Any other ride is where it was. */
  predicate OthersStay(before: Rides, after: Rides, ride: Id) {
    after - {ride} == before - {ride}
  }

  /** A match files the ride under its driver, "assigned" unless it says otherwise, when ride,
      driver and passenger are all named; nothing else changes. */
  lemma MatchFiles(rides: Rides, scope: Scope, status: string)
    ensures var after := Apply(rides, Publish(RideMatched(scope, status)));
      && OthersStay(rides, after, scope.ride)
      && if "" in {scope.ride, scope.driver, scope.passenger} then after == rides
         else
           && scope.ride in after
           && after[scope.ride].ride == scope.ride && after[scope.ride].driver == scope.driver
           && after[scope.ride].passenger == scope.passenger
           && after[scope.ride].status == if status == "" then "assigned" else status
  {
  }

  /** A status change to an end of the ride removes it; any other status refiles the ride, when
      all three are named; an empty status, like any other event, changes nothing. */
  lemma StatusChangeFiles(rides: Rides, scope: Scope, status: string)
    ensures var after := Apply(rides, Publish(RideStatusChanged(scope, status)));
      && OthersStay(rides, after, scope.ride)
      && if status == "completed" || status == "canceled" || status == "cancelled" then scope.ride !in after
         else if status == "" || "" in {scope.ride, scope.driver, scope.passenger} then after == rides
         else
           && scope.ride in after
           && after[scope.ride].ride == scope.ride && after[scope.ride].driver == scope.driver
           && after[scope.ride].passenger == scope.passenger && after[scope.ride].status == status
    ensures Apply(rides, Publish(OtherEvent)) == rides
    ensures forall values :: Apply(rides, Remember("", values)) == rides
  {
  }

  lemma ReplayAppends(operations: seq<Operation>, operation: Operation)
    ensures Replay([]) == map[]
    ensures Replay(operations + [operation]) == Apply(Replay(operations), operation)
  {
    assert (operations + [operation])[..|operations|] == operations;
  }

  /** No run of operations ever files an assignment under another ride's key, or one that
      names no driver. */
  lemma {:induction false} ReplayIsKeyed(operations: seq<Operation>, ride: Id)
    requires ride in Replay(operations)
    ensures ride != "" && Replay(operations)[ride].ride == ride && Replay(operations)[ride].driver != ""
  {
    var before := operations[..|operations| - 1];
    var last := operations[|operations| - 1];
    if ride in Replay(before) {
      ReplayIsKeyed(before, ride);
    }
    match last
    case Publish(_) =>
    case Remember(driver, values) =>
      if driver != "" {
        RememberReplacesSlice(Replay(before), driver, values, ride);
      }
  }

  lemma {:induction false} FindLast(values: seq<Assignment>, driver: Id, ride: Id) returns (index: nat)
    requires Named(values, driver, ride)
    ensures LastNaming(values, driver, ride, index)
  {
    index := |values| - 1;
    if !Names(values[index], driver, ride) {
      var i :| 0 <= i < |values| && Names(values[i], driver, ride);
      var before := values[..|values| - 1];
      assert Names(before[i], driver, ride);
      index := FindLast(before, driver, ride);
    }
  }

  /** Byte-wise string order. */
  predicate Precedes(left: string, right: string) {
    if right == "" then false
    else if left == "" then true
    else left[0] < right[0] || (left[0] == right[0] && Precedes(left[1..], right[1..]))
  }

  lemma {:induction false} OrderIsTotal(left: string, right: string)
    ensures left == right || Precedes(left, right) || Precedes(right, left)
    ensures !(Precedes(left, right) && Precedes(right, left)) && !Precedes(left, left)
  {
    if left != "" && right != "" {
      OrderIsTotal(left[1..], right[1..]);
      assert left == [left[0]] + left[1..] && right == [right[0]] + right[1..];
    }
    if left != "" {
      OrderIsTotal(left[1..], left[1..]);
    }
  }

  lemma {:induction false} OrderIsTransitive(first: string, second: string, third: string)
    requires Precedes(first, second) && Precedes(second, third)
    ensures Precedes(first, third)
  {
    if first != "" && first[0] == second[0] && second[0] == third[0] {
      OrderIsTransitive(first[1..], second[1..], third[1..]);
    }
  }

  predicate Ascending(ids: seq<Id>) {
    forall i, j :: 0 <= i < j < |ids| ==> Precedes(ids[i], ids[j])
  }

  method Least(ids: set<Id>) returns (least: Id)
    requires ids != {}
    ensures least in ids && forall id :: id in ids && id != least ==> Precedes(least, id)
  {
    least :| least in ids;
    var rest := ids - {least};
    while rest != {}
      invariant least in ids && rest <= ids
      invariant forall id :: id in ids && id !in rest && id != least ==> Precedes(least, id)
      decreases |rest|
    {
      var id :| id in rest;
      rest := rest - {id};
      OrderIsTotal(least, id);
      if Precedes(id, least) {
        forall other | other in ids && other !in rest && other != id
          ensures Precedes(id, other)
        {
          if other != least {
            OrderIsTransitive(id, least, other);
          }
        }
        least := id;
      }
    }
  }

  method Sorted(ids: set<Id>) returns (order: seq<Id>)
    ensures Ascending(order) && forall id :: id in order <==> id in ids
  {
    order := [];
    var rest := ids;
    while rest != {}
      invariant rest <= ids && Ascending(order)
      invariant forall id :: id in ids <==> id in order || id in rest
      invariant forall id, other :: id in order && other in rest ==> Precedes(id, other)
      decreases |rest|
    {
      var least := Least(rest);
      order, rest := order + [least], rest - {least};
    }
  }

  predicate Lists(byDriver: Drivers, driver: Id, ride: Id) {
    driver in byDriver && ride in byDriver[driver]
  }

  predicate Owns(byRide: Rides, driver: Id, ride: Id) {
    ride in byRide && byRide[ride].driver == driver
  }

  predicate NoEmptySets(byDriver: Drivers) {
    forall driver :: driver in byDriver ==> byDriver[driver] != {}
  }

  /** The driver index lists exactly the rides of each driver, and no driver without one. */
  ghost predicate InStep(byRide: Rides, byDriver: Drivers) {
    NoEmptySets(byDriver) && forall driver, ride :: Lists(byDriver, driver, ride) <==> Owns(byRide, driver, ride)
  }

  function Unlisted(byDriver: Drivers, driver: Id, ride: Id): Drivers {
    if driver !in byDriver then byDriver
    else if byDriver[driver] - {ride} == {} then byDriver - {driver}
    else byDriver[driver := byDriver[driver] - {ride}]
  }

  lemma UnlistedLists(byDriver: Drivers, driver: Id, ride: Id)
    requires NoEmptySets(byDriver)
    ensures NoEmptySets(Unlisted(byDriver, driver, ride))
    ensures forall other, id :: Lists(Unlisted(byDriver, driver, ride), other, id)
                                <==> Lists(byDriver, other, id) && !(other == driver && id == ride)
  {
    forall id | Lists(byDriver, driver, id) && id != ride
      ensures Lists(Unlisted(byDriver, driver, ride), driver, id)
    {
      assert id in byDriver[driver] - {ride};
    }
  }

  class Projection {
    var byRide: Rides
    var byDriver: Drivers
    ghost var operations: seq<Operation>

    /** The ride index is the single map that the operations so far describe. */
    ghost predicate Valid()
      reads this
    {
      byRide == Replay(operations) && InStep(byRide, byDriver)
    }

    constructor ()
      ensures Valid() && operations == []
    {
      byRide, byDriver, operations := map[], map[], [];
    }

    ghost method Record(operation: Operation)
      requires byRide == Apply(Replay(operations), operation) && InStep(byRide, byDriver)
      modifies this`operations
      ensures Valid() && operations == old(operations) + [operation]
    {
      var before := operations;
      operations := operations + [operation];
      assert operations[..|operations| - 1] == before;
    }

    method RemoveDriverAssignment(driver: Id, ride: Id)
      requires NoEmptySets(byDriver)
      modifies this`byDriver
      ensures NoEmptySets(byDriver)
      ensures forall other, id :: Lists(byDriver, other, id) <==> Lists(old(byDriver), other, id) && !(other == driver && id == ride)
    {
      UnlistedLists(byDriver, driver, ride);
      if driver in byDriver {
        var rides := byDriver[driver] - {ride};
        if rides == {} {
          byDriver := byDriver - {driver};
        } else {
          byDriver := byDriver[driver := rides];
        }
      }
    }

    method Upsert(value: Assignment)
      requires InStep(byRide, byDriver)
      modifies this`byRide, this`byDriver
      ensures InStep(byRide, byDriver) && byRide == old(byRide)[value.ride := value]
    {
      if value.ride in byRide && byRide[value.ride].driver != value.driver {
        RemoveDriverAssignment(byRide[value.ride].driver, value.ride);
      }
      ghost var listed := byDriver;
      byRide := byRide[value.ride := value];
      var rides := if value.driver in byDriver then byDriver[value.driver] else {};
      byDriver := byDriver[value.driver := rides + {value.ride}];
      assert forall other, id :: Lists(byDriver, other, id) <==> Lists(listed, other, id) || (other == value.driver && id == value.ride);
    }

    method Remove(ride: Id)
      requires InStep(byRide, byDriver)
      modifies this`byRide, this`byDriver
      ensures InStep(byRide, byDriver) && byRide == old(byRide) - {ride}
    {
      if ride in byRide {
        RemoveDriverAssignment(byRide[ride].driver, ride);
        byRide := byRide - {ride};
      }
    }

    method Place(scope: Scope, status: string)
      requires InStep(byRide, byDriver)
      modifies this`byRide, this`byDriver
      ensures InStep(byRide, byDriver) && byRide == Placed(old(byRide), scope, status)
    {
      if scope.ride == "" || scope.driver == "" || scope.passenger == "" {
        return;
      }
      Upsert(Assignment(scope.ride, scope.driver, scope.passenger, status));
    }

    method Publish(event: Event)
      requires Valid()
      modifies this
      ensures Valid() && operations == old(operations) + [Operation.Publish(event)]
    {
      match event {
        case RideMatched(scope, status) =>
          Place(scope, if status == "" then "assigned" else status);
        case RideStatusChanged(scope, status) =>
          if IsTerminal(status) {
            RemoveNamed(scope.ride);
          } else if status != "" {
            Place(scope, status);
          }
        case OtherEvent =>
      }
      Record(Operation.Publish(event));
    }

    /** An event without a ride id removes nothing: no key is ever empty. */
    method RemoveNamed(ride: Id)
      requires Valid()
      modifies this`byRide, this`byDriver
      ensures InStep(byRide, byDriver) && byRide == old(byRide) - {ride}
    {
      if ride == "" {
        if ride in byRide {
          ReplayIsKeyed(operations, ride);
        }
        return;
      }
      Remove(ride);
    }

    method Remember(driver: Id, values: seq<Assignment>)
      requires Valid()
      modifies this
      ensures Valid() && operations == old(operations) + [Operation.Remember(driver, values)]
    {
      if driver != "" {
        Forget(driver);
        ghost var cleared := byRide;
        for i := 0 to |values|
          invariant InStep(byRide, byDriver) && byRide == WithAll(cleared, driver, values[..i])
          invariant operations == old(operations)
        {
          assert values[..i + 1][..i] == values[..i];
          if !(values[i].ride == "" || values[i].driver != driver || values[i].passenger == "") {
            Upsert(values[i]);
          }
        }
        assert values[..|values|] == values;
      }
      Record(Operation.Remember(driver, values));
    }

    /** Clears the driver's slice of both maps. */
    method Forget(driver: Id)
      requires InStep(byRide, byDriver)
      modifies this`byRide, this`byDriver
      ensures InStep(byRide, byDriver) && byRide == WithoutDriver(old(byRide), driver)
    {
      var rest := if driver in byDriver then byDriver[driver] else {};
      ghost var before := byRide;
      assert forall ride :: ride in rest <==> Owns(before, driver, ride) by {
        assert forall ride :: ride in rest <==> Lists(byDriver, driver, ride);
      }
      while rest != {}
        invariant byDriver == old(byDriver)
        invariant forall ride :: ride in rest ==> Owns(before, driver, ride)
        invariant forall ride :: ride in byRide <==> ride in before && (!Owns(before, driver, ride) || ride in rest)
        invariant forall ride :: ride in byRide ==> byRide[ride] == before[ride]
        decreases |rest|
      {
        var ride :| ride in rest;
        rest := rest - {ride};
        if ride in byRide && byRide[ride].driver == driver {
          byRide := byRide - {ride};
        }
      }
      assert byRide == WithoutDriver(before, driver);
      byDriver := byDriver - {driver};
      assert forall other, ride :: Lists(byDriver, other, ride) <==> other != driver && Lists(old(byDriver), other, ride);
    }

    method ForRide(ride: Id) returns (value: Assignment, found: bool)
      requires Valid()
      ensures found <==> ride in Replay(operations)
      ensures found ==> value == Replay(operations)[ride]
    {
      found := ride in byRide;
      value := if found then byRide[ride] else Assignment("", "", "", "");
    }

    /** Exactly the driver's assignments, in ascending order of their ride ids. */
    method ForDriver(driver: Id) returns (values: seq<Assignment>)
      requires Valid()
      ensures forall i, j :: 0 <= i < j < |values| ==> Precedes(values[i].ride, values[j].ride)
      ensures forall value: Assignment :: value in values <==>
        value.ride in Replay(operations) && Replay(operations)[value.ride] == value && value.driver == driver
    {
      var order := Sorted(if driver in byDriver then byDriver[driver] else {});
      assert forall ride :: ride in order <==> Lists(byDriver, driver, ride);
      values := [];
      for i := 0 to |order|
        invariant |values| == i
        invariant forall j :: 0 <= j < i ==> order[j] in byRide && values[j] == byRide[order[j]] && values[j].ride == order[j] && values[j].driver == driver
      {
        assert Owns(byRide, driver, order[i]);
        ReplayIsKeyed(operations, order[i]);
        values := values + [byRide[order[i]]];
      }
      forall value: Assignment | value.ride in byRide && byRide[value.ride] == value && value.driver == driver
        ensures value in values
      {
        assert Owns(byRide, driver, value.ride);
        assert value.ride in order;
        var j :| 0 <= j < |order| && order[j] == value.ride;
        assert values[j] == value;
      }
    }
  }
}
