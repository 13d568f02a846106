/**
  The integer part of `calculate_kpis`, and what it is worth on a checked plan:
  travel, waiting and service telescope to the time between the first departure
  and the return.
 */
module Kpi {
  import opened Domain
  import opened Routes
  import opened Feasibility

  datatype TechnicianKpi =
    TechnicianKpi(tech: Id, service: int, travel: int, overtime: int, waiting: int, occupied: int, visits: nat)

  datatype ScheduleKpi = ScheduleKpi(
    technicians: seq<TechnicianKpi>,
    totalTravel: int,
    totalService: int,
    totalOvertime: int,
    totalWaiting: int,
    onTime: int,
    late: int,
    totalLate: int,
    highMissed: int,
    unassigned: nat)

  ghost predicate AllKnown(orders: map<Id, WorkOrder>, r: seq<Assignment>) {
    forall a :: a in r ==> a.orderId in orders
  }

  // ----- sums over a route -----

  function ServiceSum(orders: map<Id, WorkOrder>, r: seq<Assignment>): int
    requires AllKnown(orders, r)
  {
    if r == [] then 0 else ServiceSum(orders, r[..|r| - 1]) + orders[r[|r| - 1].orderId].duration
  }

  function TravelSum(r: seq<Assignment>): int {
    if r == [] then 0 else TravelSum(r[..|r| - 1]) + r[|r| - 1].travel
  }

  function WaitingSum(r: seq<Assignment>): int {
    if r == [] then 0 else WaitingSum(r[..|r| - 1]) + Max(0, r[|r| - 1].start - r[|r| - 1].arrival)
  }

  function ReturnLeg(orders: map<Id, WorkOrder>, m: Travel, t: Technician, r: seq<Assignment>): int
    requires AllKnown(orders, r) && r != []
  {
    m(orders[r[|r| - 1].orderId].location, t.depot)
  }

  /** When the route ends: back at the depot, or never having left. */
  function RouteEnd(orders: map<Id, WorkOrder>, m: Travel, t: Technician, r: seq<Assignment>): int
    requires AllKnown(orders, r)
  {
    if r == [] then t.shiftStart else r[|r| - 1].finish + ReturnLeg(orders, m, t, r)
  }

  function RouteKpi(orders: map<Id, WorkOrder>, m: Travel, t: Technician, r: seq<Assignment>): TechnicianKpi
    requires AllKnown(orders, r)
  {
    var travel := TravelSum(r) + if r == [] then 0 else ReturnLeg(orders, m, t, r);
    TechnicianKpi(t.id, ServiceSum(orders, r), travel, Max(0, RouteEnd(orders, m, t, r) - t.shiftEnd), WaitingSum(r),
                  travel + ServiceSum(orders, r) + WaitingSum(r), |r|)
  }

  method TechnicianFigures(orders: map<Id, WorkOrder>, m: Travel, t: Technician, r: seq<Assignment>)
    returns (k: TechnicianKpi)
    requires AllKnown(orders, r)
    ensures k == RouteKpi(orders, m, t, r)
  {
    var service, travel, waiting := 0, 0, 0;
    for i := 0 to |r|
      invariant service == ServiceSum(orders, r[..i]) && travel == TravelSum(r[..i]) && waiting == WaitingSum(r[..i])
    {
      assert r[..i + 1][..i] == r[..i];
      service := service + orders[r[i].orderId].duration;
      travel := travel + r[i].travel;
      waiting := waiting + Max(0, r[i].start - r[i].arrival);
    }
    assert r[..|r|] == r;
    var end: int := t.shiftStart;
    if r != [] {
      var home := m(orders[r[|r| - 1].orderId].location, t.depot);
      travel := travel + home;
      end := r[|r| - 1].finish + home;
    }
    k := TechnicianKpi(t.id, service, travel, Max(0, end - t.shiftEnd), waiting, travel + service + waiting, |r|);
  }

  // ----- sums over the technicians and the assignments -----

  ghost predicate VisitsKnown(orders: map<Id, WorkOrder>, s: seq<Assignment>) {
    forall t :: AllKnown(orders, Route(s, t))
  }

  function Figures(orders: map<Id, WorkOrder>, m: Travel, ts: seq<Technician>, s: seq<Assignment>): (r: seq<TechnicianKpi>)
    requires VisitsKnown(orders, s)
    ensures |r| == |ts|
    ensures forall i :: 0 <= i < |ts| ==> r[i] == RouteKpi(orders, m, ts[i], Route(s, ts[i].id))
  {
    if ts == [] then []
    else Figures(orders, m, ts[..|ts| - 1], s)
         + [RouteKpi(orders, m, ts[|ts| - 1], Route(s, ts[|ts| - 1].id))]
  }

  function OvertimeSum(ks: seq<TechnicianKpi>): int {
    if ks == [] then 0 else OvertimeSum(ks[..|ks| - 1]) + ks[|ks| - 1].overtime
  }

  function TravelTotal(ks: seq<TechnicianKpi>): int {
    if ks == [] then 0 else TravelTotal(ks[..|ks| - 1]) + ks[|ks| - 1].travel
  }

  function ServiceTotal(ks: seq<TechnicianKpi>): int {
    if ks == [] then 0 else ServiceTotal(ks[..|ks| - 1]) + ks[|ks| - 1].service
  }

  function WaitingTotal(ks: seq<TechnicianKpi>): int {
    if ks == [] then 0 else WaitingTotal(ks[..|ks| - 1]) + ks[|ks| - 1].waiting
  }

  /** Visits of orders that are listed and not completed. */
  predicate Counts(orders: map<Id, WorkOrder>, a: Assignment) {
    a.orderId in orders && !orders[a.orderId].status.Completed?
  }

  function LateSum(orders: map<Id, WorkOrder>, s: seq<Assignment>): int {
    if s == [] then 0
    else LateSum(orders, s[..|s| - 1]) + if Counts(orders, s[|s| - 1]) then s[|s| - 1].slaLate else 0
  }

  function OnTimeCount(orders: map<Id, WorkOrder>, s: seq<Assignment>): nat {
    if s == [] then 0
    else OnTimeCount(orders, s[..|s| - 1])
         + if Counts(orders, s[|s| - 1]) && s[|s| - 1].slaLate <= 0 then 1 else 0
  }

  function LateCount(orders: map<Id, WorkOrder>, s: seq<Assignment>): nat {
    if s == [] then 0
    else LateCount(orders, s[..|s| - 1])
         + if Counts(orders, s[|s| - 1]) && s[|s| - 1].slaLate > 0 then 1 else 0
  }

  /** `active_assigned_count`. */
  function ActiveCount(orders: map<Id, WorkOrder>, s: seq<Assignment>): nat {
    if s == [] then 0 else ActiveCount(orders, s[..|s| - 1]) + if Counts(orders, s[|s| - 1]) then 1 else 0
  }

  /** The program derives the on-time count by subtraction; it is the number of counted visits that are not late. */
  lemma {:induction false} OnTimeIsTheRest(orders: map<Id, WorkOrder>, s: seq<Assignment>)
    ensures OnTimeCount(orders, s) == ActiveCount(orders, s) - LateCount(orders, s)
  {
    if s != [] {
      OnTimeIsTheRest(orders, s[..|s| - 1]);
    }
  }

  function HighMissed(orders: map<Id, WorkOrder>, ids: seq<Id>): nat {
    if ids == [] then 0
    else
      var last := ids[|ids| - 1];
      HighMissed(orders, ids[..|ids| - 1])
      + if last in orders && (orders[last].priority.Urgent? || orders[last].priority.High?) then 1 else 0
  }

  /** The integer figures of a schedule. */
  function KpisOf(sc: Scenario, m: Travel, s: Schedule): ScheduleKpi
    requires VisitsKnown(OrderIndex(sc.orders), s.assignments)
  {
    var orders := OrderIndex(sc.orders);
    var ks := Figures(orders, m, sc.technicians, s.assignments);
    ScheduleKpi(ks, TravelTotal(ks), ServiceTotal(ks), OvertimeSum(ks), WaitingTotal(ks),
                OnTimeCount(orders, s.assignments), LateCount(orders, s.assignments), LateSum(orders, s.assignments),
                HighMissed(orders, s.unassigned), |s.unassigned|)
  }

  lemma TotalsGrow(ks: seq<TechnicianKpi>, f: TechnicianKpi)
    ensures TravelTotal(ks + [f]) == TravelTotal(ks) + f.travel && ServiceTotal(ks + [f]) == ServiceTotal(ks) + f.service
    ensures OvertimeSum(ks + [f]) == OvertimeSum(ks) + f.overtime && WaitingTotal(ks + [f]) == WaitingTotal(ks) + f.waiting
  {
    assert (ks + [f])[..|ks|] == ks;
  }

  method CalculateKpis(sc: Scenario, m: Travel, s: Schedule) returns (k: ScheduleKpi)
    requires VisitsKnown(OrderIndex(sc.orders), s.assignments)
    ensures k == KpisOf(sc, m, s)
  {
    var orders, ts := OrderIndex(sc.orders), sc.technicians;
    var ks: seq<TechnicianKpi> := [];
    var travel, service, overtime, waiting := 0, 0, 0, 0;
    for i := 0 to |ts|
      invariant ks == Figures(orders, m, ts[..i], s.assignments)
      invariant travel == TravelTotal(ks) && service == ServiceTotal(ks)
      invariant overtime == OvertimeSum(ks) && waiting == WaitingTotal(ks)
    {
      hide RouteKpi, Route, OrderIndex, TravelTotal, ServiceTotal, OvertimeSum, WaitingTotal;
      assert ts[..i + 1][..i] == ts[..i];
      var f := TechnicianFigures(orders, m, ts[i], Route(s.assignments, ts[i].id));
      TotalsGrow(ks, f);
      travel, service := travel + f.travel, service + f.service;
      overtime, waiting := overtime + f.overtime, waiting + f.waiting;
      ks := ks + [f];
    }
    assert ts[..|ts|] == ts;
    var onTime, late, lateMinutes, missed := AssignmentFigures(orders, s);
    k := ScheduleKpi(ks, travel, service, overtime, waiting, onTime, late, lateMinutes, missed, |s.unassigned|);
  }

  method AssignmentFigures(orders: map<Id, WorkOrder>, s: Schedule)
    returns (onTime: nat, late: nat, lateMinutes: int, missed: nat)
    ensures onTime == OnTimeCount(orders, s.assignments) && late == LateCount(orders, s.assignments)
    ensures lateMinutes == LateSum(orders, s.assignments) && missed == HighMissed(orders, s.unassigned)
  {
    var active: nat := 0;
    late, lateMinutes, missed := 0, 0, 0;
    for i := 0 to |s.assignments|
      invariant active == ActiveCount(orders, s.assignments[..i]) && late == LateCount(orders, s.assignments[..i])
      invariant lateMinutes == LateSum(orders, s.assignments[..i])
    {
      assert s.assignments[..i + 1][..i] == s.assignments[..i];
      var a := s.assignments[i];
      if a.orderId in orders && !orders[a.orderId].status.Completed? {
        active, lateMinutes := active + 1, lateMinutes + a.slaLate;
        if a.slaLate > 0 {
          late := late + 1;
        }
      }
    }
    assert s.assignments[..|s.assignments|] == s.assignments;
    OnTimeIsTheRest(orders, s.assignments);
    onTime := active - late;
    for i := 0 to |s.unassigned|
      invariant missed == HighMissed(orders, s.unassigned[..i])
    {
      assert s.unassigned[..i + 1][..i] == s.unassigned[..i];
      var id := s.unassigned[i];
      if id in orders && (orders[id].priority.Urgent? || orders[id].priority.High?) {
        missed := missed + 1;
      }
    }
    assert s.unassigned[..|s.unassigned|] == s.unassigned;
  }

  // ----- figures only depend on the visited orders -----

  lemma {:induction false} SameService(o: map<Id, WorkOrder>, p: map<Id, WorkOrder>, r: seq<Assignment>)
    requires AllKnown(o, r) && AllKnown(p, r)
    requires forall id :: id in o ==> id in p && p[id] == o[id]
    ensures ServiceSum(o, r) == ServiceSum(p, r)
  {
    if r != [] {
      assert r[|r| - 1] in r;
      SameService(o, p, r[..|r| - 1]);
    }
  }

  lemma SameFigures(o: map<Id, WorkOrder>, p: map<Id, WorkOrder>, m: Travel, t: Technician, r: seq<Assignment>)
    requires AllKnown(o, r) && AllKnown(p, r)
    requires forall id :: id in o ==> id in p && p[id] == o[id]
    ensures RouteKpi(o, m, t, r) == RouteKpi(p, m, t, r)
  {
    SameService(o, p, r);
    if r != [] {
      assert r[|r| - 1] in r;
    }
  }

  // ----- telescoping -----

  /** A checked route without history: no frozen visits, and an entry that opens the route or does not name an order. */
  ghost predicate PlainRoute(u: Rules, t: Technician, r: seq<Assignment>) {
    && RouteAccepted(u, t, r) && u.frozen * u.orders.Keys == {} && !u.startedFirst
    && (forall i, j :: 0 <= i < j < |r| ==> r[i].orderId != r[j].orderId)
    && (t.id in u.entries && r != [] ==>
          u.entries[t.id].firstFuture == None || u.entries[t.id].firstFuture == Some(r[0].orderId))
  }

  /** The time the technician becomes available, at the shift start or at the route entry. */
  function Departure(u: Rules, t: Technician): int {
    if t.id in u.entries then u.entries[t.id].availableAt else t.shiftStart
  }

  function DeparturePlace(u: Rules, t: Technician): Point {
    if t.id in u.entries then u.entries[t.id].location else t.depot
  }

  /** On a plain route every visit is judged from its neighbour. */
  lemma PlainOrigin(u: Rules, t: Technician, r: seq<Assignment>, k: nat)
    requires PlainRoute(u, t, r) && k < |r|
    ensures r[k].orderId in u.orders
    ensures k == 0 ==> Origin(u, t, r, k) == Cursor(Departure(u, t), DeparturePlace(u, t))
    ensures k > 0 ==> r[k - 1].orderId in u.orders
                      && Origin(u, t, r, k) == Cursor(r[k - 1].finish, u.orders[r[k - 1].orderId].location)
    ensures CursorAt(u, t, r, k + 1) == Cursor(r[k].finish, u.orders[r[k].orderId].location)
  {
    assert VisitOk(u, t, r, k);
    assert r[k].orderId !in u.frozen * u.orders.Keys;
    if k > 0 {
      assert VisitOk(u, t, r, k - 1);
      assert r[k - 1].orderId !in u.frozen * u.orders.Keys;
      assert r[0].orderId != r[k].orderId;
    }
  }

  /** The times of a visit on a plain route. */
  lemma PlainVisit(u: Rules, t: Technician, r: seq<Assignment>, k: nat)
    requires PlainRoute(u, t, r) && k < |r|
    ensures r[k].orderId in u.orders
    ensures var o, c := u.orders[r[k].orderId], Origin(u, t, r, k);
            && r[k].arrival == c.at + u.travel(c.place, o.location) && r[k].travel == u.travel(c.place, o.location)
            && r[k].arrival <= r[k].start && ReadyAt(o) <= r[k].start <= o.windowEnd
            && r[k].finish == r[k].start + o.duration && r[k].slaLate == Late(r[k].finish, o)
  {
    hide CursorAt, Enter;
    assert VisitOk(u, t, r, k);
    assert r[k].orderId !in u.frozen * u.orders.Keys;
  }

  /** Travel, waiting and service up to a visit add up to the time since departure. */
  lemma {:induction false} PrefixTelescopes(u: Rules, t: Technician, r: seq<Assignment>, k: nat)
    requires PlainRoute(u, t, r) && k <= |r| && AllKnown(u.orders, r[..k])
    ensures TravelSum(r[..k]) + ServiceSum(u.orders, r[..k]) + WaitingSum(r[..k])
         == (if k == 0 then 0 else r[k - 1].finish - Departure(u, t))
  {
    hide PlainRoute, Origin;
    if k > 0 {
      assert r[..k][..k - 1] == r[..k - 1];
      PrefixTelescopes(u, t, r, k - 1);
      PlainOrigin(u, t, r, k - 1);
      PlainVisit(u, t, r, k - 1);
    }
  }

  lemma PlainKnown(u: Rules, t: Technician, r: seq<Assignment>)
    requires PlainRoute(u, t, r)
    ensures AllKnown(u.orders, r)
  {
    forall a | a in r ensures a.orderId in u.orders {
      var k :| 0 <= k < |r| && r[k] == a;
      PlainOrigin(u, t, r, k);
    }
  }

  /**
    Telescoping: on a checked route the occupied minutes are exactly the time
    from departure to return, and the overtime never exceeds the limit.
   */
  lemma OccupiedTelescopes(u: Rules, t: Technician, r: seq<Assignment>)
    requires PlainRoute(u, t, r) && Terminal(u, t) == t.depot
    ensures AllKnown(u.orders, r)
    ensures var k := RouteKpi(u.orders, u.travel, t, r);
            && k.occupied == (if r == [] then 0 else RouteEnd(u.orders, u.travel, t, r) - Departure(u, t))
            && (t.shiftStart <= t.shiftEnd ==> k.overtime <= t.overtimeLimit)
  {
    PlainKnown(u, t, r);
    assert r[..|r|] == r;
    PrefixTelescopes(u, t, r, |r|);
    if r != [] {
      PlainOrigin(u, t, r, |r| - 1);
    }
  }
}
