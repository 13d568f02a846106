/**
  The business entities shared by every part of the model: technicians, work
  orders, locks, published schedules and the route entries of a replan.
  Identifiers are only ever compared for equality and order, so an identifier
  is known by its rank: the order of the ranks stands for the order of the
  strings.
 */
module Domain {

  datatype Option<+T> = None | Some(value: T)

  datatype Id = Id(rank: int)

  /** Identifiers in the order of their strings. */
  predicate RankOrder(a: Id, b: Id) {
    a.rank <= b.rank
  }

  datatype Point = Point(x: real, y: real)

  /** Travel minutes between two places; no shipped provider looks at the departure time. */
  type Travel = (Point, Point) -> nat

  datatype Status = Pending | Started | Completed

  datatype Priority = Urgent | High | Normal | Low

  datatype Technician = Technician(
    id: Id,
    skills: set<nat>,
    shiftStart: nat,
    shiftEnd: nat,
    depot: Point,
    overtimeLimit: nat,
    rate: nat)

  datatype WorkOrder = WorkOrder(
    id: Id,
    skills: set<nat>,
    location: Point,
    duration: nat,
    windowStart: nat,
    windowEnd: nat,
    slaDeadline: nat,
    priority: Priority,
    vip: bool,
    dropPenalty: nat,
    status: Status,
    reportedAt: Option<nat>)

  datatype Lock = Lock(orderId: Id, techId: Id)

  datatype Scenario = Scenario(technicians: seq<Technician>, orders: seq<WorkOrder>, locks: seq<Lock>)

  datatype Assignment = Assignment(
    orderId: Id,
    techId: Id,
    sequence: int,
    arrival: int,
    start: int,
    finish: int,
    travel: int,
    slaLate: int)

  datatype Schedule = Schedule(assignments: seq<Assignment>, unassigned: seq<Id>)

  /** Where a technician resumes after a publication, and where the route must end. */
  datatype RouteEntry = RouteEntry(location: Point, availableAt: nat, returnTo: Point, firstFuture: Option<Id>)

  function Max(a: int, b: int): (r: int)
    ensures r >= a && r >= b && (r == a || r == b)
  {
    if a >= b then a else b
  }

  function Min(a: int, b: int): (r: int)
    ensures r <= a && r <= b && (r == a || r == b)
  {
    if a <= b then a else b
  }

  /** The earliest legal service start: the first minute of the window at which the order has been reported. */
  function ReadyAt(o: WorkOrder): (r: nat)
    ensures r >= o.windowStart && (o.reportedAt.Some? ==> r >= o.reportedAt.value)
    ensures r == o.windowStart || o.reportedAt == Some(r)
  {
    if o.reportedAt.Some? && o.reportedAt.value > o.windowStart then o.reportedAt.value else o.windowStart
  }

  predicate CanServe(t: Technician, o: WorkOrder) {
    o.skills <= t.skills
  }

  /** `{item.id: item for item in orders}`: a later duplicate would replace an earlier one. */
  function OrderIndex(orders: seq<WorkOrder>): map<Id, WorkOrder> {
    if orders == [] then map[]
    else OrderIndex(orders[..|orders| - 1])[orders[|orders| - 1].id := orders[|orders| - 1]]
  }

  function TechnicianIndex(ts: seq<Technician>): map<Id, Technician> {
    if ts == [] then map[]
    else TechnicianIndex(ts[..|ts| - 1])[ts[|ts| - 1].id := ts[|ts| - 1]]
  }

  function LockIndex(locks: seq<Lock>): map<Id, Id> {
    if locks == [] then map[]
    else LockIndex(locks[..|locks| - 1])[locks[|locks| - 1].orderId := locks[|locks| - 1].techId]
  }

  /** The work orders that still need service, in list order. */
  function NotCompleted(orders: seq<WorkOrder>): seq<WorkOrder> {
    if orders == [] then []
    else NotCompleted(orders[..|orders| - 1])
         + (if orders[|orders| - 1].status.Completed? then [] else [orders[|orders| - 1]])
  }

  function ActiveOrders(sc: Scenario): map<Id, WorkOrder> {
    OrderIndex(NotCompleted(sc.orders))
  }

  function OrderIds(orders: seq<WorkOrder>): seq<Id> {
    seq(|orders|, i requires 0 <= i < |orders| => orders[i].id)
  }

  function TechnicianIds(ts: seq<Technician>): seq<Id> {
    seq(|ts|, i requires 0 <= i < |ts| => ts[i].id)
  }

  function LockedIds(locks: seq<Lock>): seq<Id> {
    seq(|locks|, i requires 0 <= i < |locks| => locks[i].orderId)
  }

  predicate Distinct<T(==)>(s: seq<T>) {
    forall i, j :: 0 <= i < j < |s| ==> s[i] != s[j]
  }

  /** What the aggregate validators of the scenario model enforce. */
  ghost predicate ValidScenario(sc: Scenario) {
    && Distinct(TechnicianIds(sc.technicians))
    && Distinct(OrderIds(sc.orders))
    && Distinct(LockedIds(sc.locks))
    && (forall o :: o in sc.orders ==> ValidOrder(o))
    && (forall t :: t in sc.technicians ==> ValidTechnician(t))
    && (forall l :: l in sc.locks ==> ValidLock(sc, l))
  }

  predicate ValidTechnician(t: Technician) {
    t.shiftStart < t.shiftEnd <= 1800 && t.overtimeLimit <= 240
  }

  predicate ValidOrder(o: WorkOrder) {
    && o.duration > 0
    && o.windowStart <= o.windowEnd
    && o.windowStart <= o.slaDeadline
    && (o.reportedAt.Some? ==> o.reportedAt.value <= o.windowEnd)
  }

  predicate ValidLock(sc: Scenario, l: Lock) {
    && l.orderId in ActiveOrders(sc)
    && l.techId in TechnicianIndex(sc.technicians)
    && CanServe(TechnicianIndex(sc.technicians)[l.techId], ActiveOrders(sc)[l.orderId])
  }

  // ----- what the dictionaries contain -----

  lemma {:induction false} OrderIndexSound(orders: seq<WorkOrder>, id: Id)
    ensures id in OrderIndex(orders) ==> OrderIndex(orders)[id] in orders && OrderIndex(orders)[id].id == id
    ensures id in OrderIndex(orders) <==> exists o :: o in orders && o.id == id
  {
    if orders != [] {
      var front, last := orders[..|orders| - 1], orders[|orders| - 1];
      OrderIndexSound(front, id);
      assert orders == front + [last];
    }
  }

  lemma {:induction false} TechnicianIndexSound(ts: seq<Technician>, id: Id)
    ensures id in TechnicianIndex(ts) ==> TechnicianIndex(ts)[id] in ts && TechnicianIndex(ts)[id].id == id
    ensures id in TechnicianIndex(ts) <==> exists t :: t in ts && t.id == id
  {
    if ts != [] {
      var front, last := ts[..|ts| - 1], ts[|ts| - 1];
      TechnicianIndexSound(front, id);
      assert ts == front + [last];
    }
  }

  lemma {:induction false} NotCompletedMembers(orders: seq<WorkOrder>, o: WorkOrder)
    ensures o in NotCompleted(orders) <==> o in orders && !o.status.Completed?
  {
    if orders != [] {
      var front, last := orders[..|orders| - 1], orders[|orders| - 1];
      NotCompletedMembers(front, o);
      assert orders == front + [last];
    }
  }

  /** With unique ids a dictionary of orders returns exactly the listed order. */
  lemma OrderIndexComplete(orders: seq<WorkOrder>, o: WorkOrder)
    requires Distinct(OrderIds(orders)) && o in orders
    ensures o.id in OrderIndex(orders) && OrderIndex(orders)[o.id] == o
  {
    OrderIndexSound(orders, o.id);
    var p := OrderIndex(orders)[o.id];
    var i :| 0 <= i < |orders| && orders[i] == o;
    var j :| 0 <= j < |orders| && orders[j] == p;
    assert OrderIds(orders)[i] == OrderIds(orders)[j];
  }

  lemma TechnicianIndexComplete(ts: seq<Technician>, t: Technician)
    requires Distinct(TechnicianIds(ts)) && t in ts
    ensures t.id in TechnicianIndex(ts) && TechnicianIndex(ts)[t.id] == t
  {
    TechnicianIndexSound(ts, t.id);
    var p := TechnicianIndex(ts)[t.id];
    var i :| 0 <= i < |ts| && ts[i] == t;
    var j :| 0 <= j < |ts| && ts[j] == p;
    assert TechnicianIds(ts)[i] == TechnicianIds(ts)[j];
  }

  lemma ActiveOrderFacts(sc: Scenario, id: Id)
    ensures id in ActiveOrders(sc) ==>
              ActiveOrders(sc)[id] in sc.orders && ActiveOrders(sc)[id].id == id
              && !ActiveOrders(sc)[id].status.Completed?
  {
    OrderIndexSound(NotCompleted(sc.orders), id);
    if id in ActiveOrders(sc) {
      NotCompletedMembers(sc.orders, ActiveOrders(sc)[id]);
    }
  }

  /** In a valid scenario the active dictionary agrees with the dictionary of all orders. */
  lemma ActiveOrdersComplete(sc: Scenario, o: WorkOrder)
    requires ValidScenario(sc) && o in sc.orders && !o.status.Completed?
    ensures o.id in ActiveOrders(sc) && ActiveOrders(sc)[o.id] == o
  {
    NotCompletedMembers(sc.orders, o);
    OrderIndexSound(NotCompleted(sc.orders), o.id);
    ActiveOrderFacts(sc, o.id);
    OrderIndexComplete(sc.orders, o);
    OrderIndexComplete(sc.orders, ActiveOrders(sc)[o.id]);
  }
}
