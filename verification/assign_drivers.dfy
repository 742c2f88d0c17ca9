/** The admin's assignment table (src/app/admin/orders/AssignDrivers.tsx): a
    list of open orders and a list of available drivers; assigning a driver
    writes both rows and, only if both writes succeed, drops the pair from
    the lists. */
module AssignDrivers {
  import opened Base
  import opened Lists

  datatype Order = Order(id: int, pickup: string, drop: string, vehicle: string)

  datatype Driver = Driver(id: int, name: string, available: bool)

  /** The remote writes `assignDriver` issues. */
  datatype Write =
    | AssignOrder(orderId: int, driverId: int)   // orders.assigned_driver_id := driverId
    | MarkUnavailable(driverId: int)             // drivers.available := false

  /** The drivers the table offers: the available ones, in input order. */
  function AvailableDrivers(ds: seq<Driver>): (r: seq<Driver>)
    ensures forall i :: 0 <= i < |r| ==> r[i].available
  {
    Filter(ds, (d: Driver) => d.available)
  }

  function OrderId(o: Order): int { o.id }

  function DriverId(d: Driver): int { d.id }

  /** The orders without the ones whose id is `id`. */
  function WithoutOrder(os: seq<Order>, id: int): (r: seq<Order>)
    ensures forall i :: 0 <= i < |r| ==> r[i].id != id
  {
    WithoutKey(os, OrderId, id)
  }

  /** The drivers without the ones whose id is `id`. */
  function WithoutDriver(ds: seq<Driver>, id: int): (r: seq<Driver>)
    ensures forall i :: 0 <= i < |r| ==> r[i].id != id
  {
    WithoutKey(ds, DriverId, id)
  }

  class AssignBoard {
    var orders: seq<Order>
    var drivers: seq<Driver>
    /** `assigning`: the order whose assignment is in flight. */
    var assigning: Option<int>

    /** Every driver the table offers is available. */
    ghost predicate Valid()
      reads this
    {
      forall i :: 0 <= i < |drivers| ==> drivers[i].available
    }

    /** The initial state: the given orders and the available drivers. */
    constructor (initialOrders: seq<Order>, initialDrivers: seq<Driver>)
      ensures Valid()
      ensures orders == initialOrders
      ensures drivers == AvailableDrivers(initialDrivers)
      ensures assigning == None
    {
      orders := initialOrders;
      drivers := AvailableDrivers(initialDrivers);
      assigning := None;
    }

    /** `assignDriver`: both writes are issued, the second even when the first
        failed; `busy` is the value of `assigning` while they are in flight.
        On success of both the order and the driver leave the lists, on any
        failure nothing changes; `assigning` is cleared either way. */
    method AssignDriver(orderId: int, driverId: int, orderFails: bool, driverFails: bool)
      returns (issued: seq<Write>, busy: Option<int>)
      requires Valid()
      modifies this`orders, this`drivers, this`assigning
      ensures Valid()
      ensures issued == [AssignOrder(orderId, driverId), MarkUnavailable(driverId)]
      ensures busy == Some(orderId)
      ensures assigning == None
      ensures !orderFails && !driverFails ==>
        orders == WithoutOrder(old(orders), orderId) && drivers == WithoutDriver(old(drivers), driverId)
      ensures orderFails || driverFails ==> orders == old(orders) && drivers == old(drivers)
    {
      assigning := Some(orderId);
      issued := [AssignOrder(orderId, driverId)];
      issued := issued + [MarkUnavailable(driverId)];
      busy := assigning;
      if !orderFails && !driverFails {
        orders := WithoutOrder(orders, orderId);
        drivers := WithoutDriver(drivers, driverId);
      }
      assigning := None;
    }
  }

  /** The initial driver list is exactly the available input drivers, in
      their input order: it keeps every available driver and only those. */
  lemma AvailableDriversExact(ds: seq<Driver>, d: Driver)
    ensures d in AvailableDrivers(ds) <==> d in ds && d.available
  {
    FilterMember(ds, (d: Driver) => d.available, d);
  }

  /** Removing an order keeps every other order and the relative order of
      the rest: removing from a concatenation removes from each part. */
  lemma WithoutOrderKeepsOthers(a: seq<Order>, b: seq<Order>, id: int, o: Order)
    ensures WithoutOrder(a + b, id) == WithoutOrder(a, id) + WithoutOrder(b, id)
    ensures o in a + b && o.id != id ==> o in WithoutOrder(a + b, id)
  {
    WithoutKeyKeepsOthers(a, b, OrderId, id, o);
  }

  /** Removing a driver keeps every other driver and the relative order of
      the rest. */
  lemma WithoutDriverKeepsOthers(a: seq<Driver>, b: seq<Driver>, id: int, d: Driver)
    ensures WithoutDriver(a + b, id) == WithoutDriver(a, id) + WithoutDriver(b, id)
    ensures d in a + b && d.id != id ==> d in WithoutDriver(a + b, id)
  {
    WithoutKeyKeepsOthers(a, b, DriverId, id, d);
  }

  /** With unique ids a successful assignment removes at most one order, and
      exactly one when the order is listed. */
  lemma OrderListShrinksByAtMostOne(os: seq<Order>, id: int)
    requires UniqueKeys(os, OrderId)
    ensures |os| - 1 <= |WithoutOrder(os, id)| <= |os|
    ensures (exists i :: 0 <= i < |os| && os[i].id == id) ==> |WithoutOrder(os, id)| == |os| - 1
    ensures (forall i :: 0 <= i < |os| ==> os[i].id != id) ==> WithoutOrder(os, id) == os
  {
    WithoutKeyShrinksByAtMostOne(os, OrderId, id);
  }

  /** With unique ids a successful assignment removes at most one driver, and
      exactly one when the driver is listed. */
  lemma DriverListShrinksByAtMostOne(ds: seq<Driver>, id: int)
    requires UniqueKeys(ds, DriverId)
    ensures |ds| - 1 <= |WithoutDriver(ds, id)| <= |ds|
    ensures (exists i :: 0 <= i < |ds| && ds[i].id == id) ==> |WithoutDriver(ds, id)| == |ds| - 1
    ensures (forall i :: 0 <= i < |ds| ==> ds[i].id != id) ==> WithoutDriver(ds, id) == ds
  {
    WithoutKeyShrinksByAtMostOne(ds, DriverId, id);
  }
}
