/**
  What the figures of a plan count: minutes on the road along the chain of
  places, minutes of service and of waiting between the times of the visits, and
  money per order and per hour of overtime. Each figure is compared with a sum
  taken over something else than the program takes it over.
 */
module PlanFigures {
  import opened Domain
  import opened Sorting
  import opened Routes
  import opened Feasibility
  import opened Kpi
  import opened Cost
  import C = Capacity
  import opened CapacityTheorems
  import P = PlainPlans
  import Z = ZeroNoise

  // ----- one route -----

  /** The minutes along a chain of places. */
  function Along(m: Travel, places: seq<Point>): nat {
    if |places| < 2 then 0
    else Along(m, places[..|places| - 1]) + m(places[|places| - 2], places[|places| - 1])
  }

  lemma AlongOneMore(m: Travel, places: seq<Point>, p: Point)
    requires places != []
    ensures Along(m, places + [p]) == Along(m, places) + m(places[|places| - 1], p)
  {
    assert (places + [p])[..|places|] == places;
  }

  function Doors(orders: map<Id, WorkOrder>, r: seq<Assignment>): (p: seq<Point>)
    requires AllKnown(orders, r)
    ensures |p| == |r|
  {
    seq(|r|, i requires 0 <= i < |r| => DoorOf(orders, r, i))
  }

  function DoorOf(orders: map<Id, WorkOrder>, r: seq<Assignment>, i: nat): Point
    requires AllKnown(orders, r) && i < |r|
  {
    orders[r[i].orderId].location
  }

  function ServiceMinutes(a: Assignment): int {
    a.finish - a.start
  }

  function WaitingMinutes(a: Assignment): int {
    a.start - a.arrival
  }

  function DrivenMinutes(a: Assignment): int {
    a.travel
  }

  /** Up to the k-th visit: service and waiting from the times, travel from the places. */
  lemma {:induction false} PrefixFigures(u: Rules, t: Technician, r: seq<Assignment>, k: nat)
    requires PlainRoute(u, t, r) && k <= |r| && AllKnown(u.orders, r) && AllKnown(u.orders, r[..k])
    ensures ServiceSum(u.orders, r[..k]) == Z.SumOf(r[..k], ServiceMinutes)
    ensures WaitingSum(r[..k]) == Z.SumOf(r[..k], WaitingMinutes)
    ensures TravelSum(r[..k]) == Along(u.travel, [DeparturePlace(u, t)] + Doors(u.orders, r)[..k])
  {
    hide PlainRoute, Origin, CursorAt, RouteAccepted;
    if k > 0 {
      assert r[..k][..k - 1] == r[..k - 1];
      PrefixFigures(u, t, r, k - 1);
      PlainOrigin(u, t, r, k - 1);
      PlainVisit(u, t, r, k - 1);
      var before := [DeparturePlace(u, t)] + Doors(u.orders, r)[..k - 1];
      AlongOneMore(u.travel, before, DoorOf(u.orders, r, k - 1));
      assert [DeparturePlace(u, t)] + Doors(u.orders, r)[..k] == before + [DoorOf(u.orders, r, k - 1)];
    }
  }

  /**
    The KPI row of a checked route: travel is the way from the departure along
    the doors and home, service and waiting are what lies between the times.
   */
  lemma RowOfRoute(u: Rules, t: Technician, r: seq<Assignment>)
    requires PlainRoute(u, t, r) && r != [] && AllKnown(u.orders, r)
    ensures var k := RouteKpi(u.orders, u.travel, t, r);
            && k.tech == t.id && k.visits == |r|
            && k.travel == Along(u.travel, [DeparturePlace(u, t)] + Doors(u.orders, r) + [t.depot])
            && k.service == Z.SumOf(r, ServiceMinutes)
            && k.waiting == Z.SumOf(r, WaitingMinutes)
            && k.occupied == k.travel + k.service + k.waiting
  {
    hide PlainRoute, Along, ServiceSum, TravelSum, WaitingSum, Z.SumOf, Doors, RouteEnd, DeparturePlace, ReturnLeg;
    WholeRoute(u, t, r);
    WayHome(u, t, r);
  }

  lemma WholeRoute(u: Rules, t: Technician, r: seq<Assignment>)
    requires PlainRoute(u, t, r) && AllKnown(u.orders, r)
    ensures ServiceSum(u.orders, r) == Z.SumOf(r, ServiceMinutes) && WaitingSum(r) == Z.SumOf(r, WaitingMinutes)
    ensures TravelSum(r) == Along(u.travel, [DeparturePlace(u, t)] + Doors(u.orders, r))
  {
    hide PlainRoute;
    assert r[..|r|] == r && Doors(u.orders, r)[..|r|] == Doors(u.orders, r);
    PrefixFigures(u, t, r, |r|);
  }

  lemma WayHome(u: Rules, t: Technician, r: seq<Assignment>)
    requires AllKnown(u.orders, r) && r != []
    ensures var places := [DeparturePlace(u, t)] + Doors(u.orders, r);
            Along(u.travel, places + [t.depot]) == Along(u.travel, places) + ReturnLeg(u.orders, u.travel, t, r)
  {
    var places := [DeparturePlace(u, t)] + Doors(u.orders, r);
    AlongOneMore(u.travel, places, t.depot);
    assert places[|places| - 1] == DoorOf(u.orders, r, |r| - 1);
  }

  // ----- the totals, over the flat list of assignments -----

  lemma {:induction false} RouteSums(orders: map<Id, WorkOrder>, r: seq<Assignment>)
    requires AllKnown(orders, r)
    requires forall a :: a in r ==> a.finish == a.start + orders[a.orderId].duration && a.arrival <= a.start
    ensures ServiceSum(orders, r) == Z.SumOf(r, ServiceMinutes) && WaitingSum(r) == Z.SumOf(r, WaitingMinutes)
    ensures TravelSum(r) == Z.SumOf(r, DrivenMinutes)
  {
    if r != [] {
      assert r[|r| - 1] in r;
      RouteSums(orders, r[..|r| - 1]);
    }
  }

  /** The way home of every technician with a route. */
  function HomeTotal(orders: map<Id, WorkOrder>, m: Travel, ts: seq<Technician>, s: seq<Assignment>): int
    requires VisitsKnown(orders, s)
  {
    if ts == [] then 0
    else
      var r := Route(s, ts[|ts| - 1].id);
      HomeTotal(orders, m, ts[..|ts| - 1], s) + if r == [] then 0 else ReturnLeg(orders, m, ts[|ts| - 1], r)
  }

  function RouteSum(s: seq<Assignment>, f: Assignment -> int): Id -> int {
    t => Z.SumOf(Route(s, t), f)
  }

  lemma {:induction false} TotalsByRoute(orders: map<Id, WorkOrder>, m: Travel, ts: seq<Technician>, s: seq<Assignment>)
    requires VisitsKnown(orders, s)
    requires forall a :: a in s ==> a.orderId in orders && a.finish == a.start + orders[a.orderId].duration && a.arrival <= a.start
    ensures var ks := Figures(orders, m, ts, s);
            && ServiceTotal(ks) == Z.SumOf(TechnicianIds(ts), RouteSum(s, ServiceMinutes))
            && WaitingTotal(ks) == Z.SumOf(TechnicianIds(ts), RouteSum(s, WaitingMinutes))
            && TravelTotal(ks) == Z.SumOf(TechnicianIds(ts), RouteSum(s, DrivenMinutes)) + HomeTotal(orders, m, ts, s)
  {
    hide Route, ServiceTotal, WaitingTotal, TravelTotal, RouteKpi, Z.SumOf, RouteSum, TechnicianIds, ReturnLeg;
    if ts == [] {
      NoTotals();
      NoIds(RouteSum(s, ServiceMinutes));
      NoIds(RouteSum(s, WaitingMinutes));
      NoIds(RouteSum(s, DrivenMinutes));
    } else {
      var front, last := ts[..|ts| - 1], ts[|ts| - 1];
      TotalsByRoute(orders, m, front, s);
      TotalsGrow(Figures(orders, m, front, s), RouteKpi(orders, m, last, Route(s, last.id)));
      RowSums(orders, m, last, s);
      OneMoreId(ts, s, ServiceMinutes);
      OneMoreId(ts, s, WaitingMinutes);
      OneMoreId(ts, s, DrivenMinutes);
    }
  }

  lemma NoIds(f: Id -> int)
    ensures Z.SumOf(TechnicianIds([]), f) == 0
  {
  }

  lemma OneMoreId(ts: seq<Technician>, s: seq<Assignment>, f: Assignment -> int)
    requires ts != []
    ensures var front, last := ts[..|ts| - 1], ts[|ts| - 1];
            Z.SumOf(TechnicianIds(ts), RouteSum(s, f))
            == Z.SumOf(TechnicianIds(front), RouteSum(s, f)) + Z.SumOf(Route(s, last.id), f)
  {
    hide Route;
    assert TechnicianIds(ts)[..|ts| - 1] == TechnicianIds(ts[..|ts| - 1]);
  }

  lemma NoTotals()
    ensures ServiceTotal([]) == WaitingTotal([]) == TravelTotal([]) == 0
  {
  }

  lemma RowSums(orders: map<Id, WorkOrder>, m: Travel, t: Technician, s: seq<Assignment>)
    requires VisitsKnown(orders, s)
    requires forall a :: a in s ==> a.orderId in orders && a.finish == a.start + orders[a.orderId].duration && a.arrival <= a.start
    ensures var k, r := RouteKpi(orders, m, t, Route(s, t.id)), Route(s, t.id);
            && k.service == Z.SumOf(r, ServiceMinutes) && k.waiting == Z.SumOf(r, WaitingMinutes)
            && k.travel == Z.SumOf(r, DrivenMinutes) + if r == [] then 0 else ReturnLeg(orders, m, t, r)
  {
    hide Route, ServiceSum, TravelSum, WaitingSum, Z.SumOf;
    forall a | a in Route(s, t.id) ensures a in s {
      RouteMembers(s, t.id, a);
    }
    RouteSums(orders, Route(s, t.id));
  }

  /**
    The totals of a committed plan, summed over its assignments in whatever order
    they are listed: service is finish minus start, waiting is start minus
    arrival, and travel is the legs of the visits and one way home per route.
   */
  lemma TotalsOfPlan(sc: Scenario, m: Travel, entries: map<Id, RouteEntry>, frozen: set<Id>, s: Schedule)
    requires CommittedPlan(sc, m, entries, frozen, s) && P.EntriesOpen(s, entries)
    ensures VisitsKnown(OrderIndex(sc.orders), s.assignments)
    ensures var k := KpisOf(sc, m, s);
            && k.totalService == Z.SumOf(s.assignments, ServiceMinutes)
            && k.totalWaiting == Z.SumOf(s.assignments, WaitingMinutes)
            && k.totalTravel == Z.SumOf(s.assignments, DrivenMinutes)
                                + HomeTotal(OrderIndex(sc.orders), m, sc.technicians, s.assignments)
  {
    hide OnTimeCount, LateCount, LateSum, HighMissed, Route, ActiveOrders, OrderIndex, CommittedPlan;
    P.CommittedVisits(sc, m, entries, frozen, s);
    forall a | a in s.assignments
      ensures a.orderId in OrderIndex(sc.orders) && a.arrival <= a.start
              && a.finish == a.start + OrderIndex(sc.orders)[a.orderId].duration
    {
      CommittedTimes(sc, m, entries, frozen, s, a);
    }
    TotalsByRoute(OrderIndex(sc.orders), m, sc.technicians, s.assignments);
    RosterDistinctOf(sc, m, entries, frozen, s);
    SumsByAssignment(sc, s, ServiceMinutes);
    SumsByAssignment(sc, s, WaitingMinutes);
    SumsByAssignment(sc, s, DrivenMinutes);
  }

  lemma RosterDistinctOf(sc: Scenario, m: Travel, entries: map<Id, RouteEntry>, frozen: set<Id>, s: Schedule)
    requires CommittedPlan(sc, m, entries, frozen, s)
    ensures Distinct(TechnicianIds(sc.technicians))
    ensures forall a :: a in s.assignments ==> a.techId in TechnicianIndex(sc.technicians)
  {
  }

  lemma SumsByAssignment(sc: Scenario, s: Schedule, f: Assignment -> int)
    requires Distinct(TechnicianIds(sc.technicians))
    requires forall a :: a in s.assignments ==> a.techId in TechnicianIndex(sc.technicians)
    ensures Z.SumOf(TechnicianIds(sc.technicians), RouteSum(s.assignments, f)) == Z.SumOf(s.assignments, f)
  {
    var ids, g := TechnicianIds(sc.technicians), RouteSum(s.assignments, f);
    Z.SumSort(RankOrder, ids, g);
    Z.RosterSums(sc, s, Sort(RankOrder, ids), f, g);
  }

  lemma CommittedTimes(sc: Scenario, m: Travel, entries: map<Id, RouteEntry>, frozen: set<Id>, s: Schedule, a: Assignment)
    requires CommittedPlan(sc, m, entries, frozen, s) && P.EntriesOpen(s, entries) && a in s.assignments
    ensures a.orderId in OrderIndex(sc.orders) && a.arrival <= a.start
            && a.finish == a.start + OrderIndex(sc.orders)[a.orderId].duration
  {
    P.CommittedVisits(sc, m, entries, frozen, s);
    TechnicianIndexSound(sc.technicians, a.techId);
    var u, t := Day(sc, m, entries, frozen), TechnicianIndex(sc.technicians)[a.techId];
    P.CommittedRoute(sc, m, entries, frozen, s, t);
    var k := RoutePosition(s.assignments, a);
    hide PlainRoute, Route;
    PlainVisit(u, t, Route(s.assignments, t.id), k);
  }

  // ----- missed demand and money -----

  /** The visits of orders that are listed and not completed. */
  function ActiveVisits(orders: map<Id, WorkOrder>, s: seq<Assignment>): seq<Assignment> {
    if s == [] then []
    else
      var a := s[|s| - 1];
      ActiveVisits(orders, s[..|s| - 1])
      + if a.orderId in orders && (orders[a.orderId].status.Pending? || orders[a.orderId].status.Started?) then [a] else []
  }

  function LateVisits(s: seq<Assignment>): nat {
    if s == [] then 0 else LateVisits(s[..|s| - 1]) + if s[|s| - 1].slaLate > 0 then 1 else 0
  }

  /** Punctuality counts the active visits only: their number, those late, and the minutes. */
  lemma {:induction false} OnlyActiveCount(orders: map<Id, WorkOrder>, s: seq<Assignment>)
    ensures var active := ActiveVisits(orders, s);
            && OnTimeCount(orders, s) == |active| - LateVisits(active) && LateCount(orders, s) == LateVisits(active)
            && LateSum(orders, s) == Z.SumOf(active, Z.LateMinutes)
  {
    if s != [] {
      var front, a := ActiveVisits(orders, s[..|s| - 1]), s[|s| - 1];
      OnlyActiveCount(orders, s[..|s| - 1]);
      assert (front + [a])[..|front|] == front && front + [] == front;
    }
  }

  predicate Pressing(orders: map<Id, WorkOrder>, id: Id) {
    id in orders && (orders[id].priority.Urgent? || orders[id].priority.High?)
  }

  function PressingAmong(orders: map<Id, WorkOrder>, ids: seq<Id>): set<Id> {
    set id | id in ids && Pressing(orders, id)
  }

  /** The missed urgent and high orders, each counted once. */
  lemma {:induction false} HighMissedCounts(orders: map<Id, WorkOrder>, ids: seq<Id>)
    requires Distinct(ids)
    ensures HighMissed(orders, ids) == |PressingAmong(orders, ids)|
  {
    if ids != [] {
      var front, last := ids[..|ids| - 1], ids[|ids| - 1];
      HighMissedCounts(orders, front);
      OneMorePressing(orders, front, last);
      assert ids == front + [last];
    }
  }

  lemma OneMorePressing(orders: map<Id, WorkOrder>, ids: seq<Id>, id: Id)
    requires id !in ids
    ensures |PressingAmong(orders, ids + [id])| == |PressingAmong(orders, ids)| + if Pressing(orders, id) then 1 else 0
  {
    var before, after := PressingAmong(orders, ids), PressingAmong(orders, ids + [id]);
    hide Pressing;
    if Pressing(orders, id) {
      assert after == before + {id};
    } else {
      assert after == before;
    }
  }

  lemma {:induction false} SlaIsLate(s: seq<Assignment>)
    ensures SlaMinutes(s) == Z.SumOf(s, Z.LateMinutes)
  {
    if s != [] {
      SlaIsLate(s[..|s| - 1]);
    }
  }

  /** The minutes a committed plan is penalised for are its published lateness. */
  lemma PenaltyIsTotalLate(sc: Scenario, m: Travel, entries: map<Id, RouteEntry>, frozen: set<Id>, s: Schedule)
    requires CommittedPlan(sc, m, entries, frozen, s)
    ensures VisitsKnown(OrderIndex(sc.orders), s.assignments)
    ensures SlaMinutes(s.assignments) == KpisOf(sc, m, s).totalLate
  {
    P.CommittedVisits(sc, m, entries, frozen, s);
    hide OrderIndex, ActiveOrders, Route, Counts, CommittedPlan;
    SlaIsLate(s.assignments);
    Z.CountedSums(OrderIndex(sc.orders), s.assignments);
  }

  /** The listed orders of one priority. */
  function OfPriority(orders: map<Id, WorkOrder>, ids: seq<Id>, p: Priority): nat {
    if ids == [] then 0
    else
      var last := ids[|ids| - 1];
      OfPriority(orders, ids[..|ids| - 1], p) + if last in orders && orders[last].priority == p then 1 else 0
  }

  function Vips(orders: map<Id, WorkOrder>, ids: seq<Id>): nat {
    if ids == [] then 0
    else
      var last := ids[|ids| - 1];
      Vips(orders, ids[..|ids| - 1]) + if last in orders && orders[last].vip then 1 else 0
  }

  /** Lost revenue is the number of orders of each priority at its rate, and the premium of every VIP. */
  lemma {:induction false} LostByPriority(p: Policy, orders: map<Id, WorkOrder>, ids: seq<Id>)
    ensures LostRevenue(p, orders, ids)
         == OfPriority(orders, ids, Low) * p.revenueLow + OfPriority(orders, ids, Normal) * p.revenueNormal
            + OfPriority(orders, ids, High) * p.revenueHigh + OfPriority(orders, ids, Urgent) * p.revenueUrgent
            + Vips(orders, ids) * p.vipPremium
  {
    if ids != [] {
      var front := ids[..|ids| - 1];
      LostByPriority(p, orders, front);
      OneMore(OfPriority(orders, front, Low), p.revenueLow);
      OneMore(OfPriority(orders, front, Normal), p.revenueNormal);
      OneMore(OfPriority(orders, front, High), p.revenueHigh);
      OneMore(OfPriority(orders, front, Urgent), p.revenueUrgent);
      OneMore(Vips(orders, front), p.vipPremium);
    }
  }

  lemma OneMore(n: nat, rate: nat)
    ensures (n + 1) * rate == n * rate + rate
  {
  }

  /**
    The overtime of a technician is charged at the wage, in the paid shift, and
    at the premium rounded down to the cent; each component only if its source is on.
   */
  lemma OvertimeCharge(e: Terms, t: Technician, k: TechnicianKpi)
    requires k.overtime >= 0
    ensures var c, s := ChargeOf(e, t, k), SourceOf(e, t.id);
            && (s.overtimePremium ==>
                  c.premium * 10000 <= k.overtime * t.rate * e.policy.premiumBasisPoints < (c.premium + 1) * 10000)
            && (!s.overtimePremium ==> c.premium == 0)
            && (e.policy.mode.PaidShift? && s.overtimeBase && s.overtimePremium && e.policy.premiumBasisPoints == 10000 ==>
                  c.premium == c.base)
            && (!e.policy.mode.PaidShift? || !s.overtimeBase ==> c.base == 0)
            && (!s.regular ==> c.regular == 0)
  {
    var amount := k.overtime * t.rate * e.policy.premiumBasisPoints;
    assert amount / 10000 * 10000 <= amount < amount / 10000 * 10000 + 10000;
    if e.policy.premiumBasisPoints == 10000 {
      WholePremium(k.overtime * t.rate);
    }
  }

  lemma WholePremium(x: int)
    ensures x * 10000 / 10000 == x
  {
  }

  /** The paid part of a shift that counts from minute `from`. */
  ghost predicate PaidPart(t: Technician, from: int, minutes: int) {
    && (from <= t.shiftStart ==> minutes == t.shiftEnd - t.shiftStart)
    && (t.shiftStart <= from <= t.shiftEnd ==> minutes == t.shiftEnd - from)
    && (t.shiftEnd <= from ==> minutes == 0)
  }

  /**
    Regular minutes are the occupied minutes, or in the paid shift the part of
    it from the technician's own start, else from the common one, else all of
    it; a technician the scope leaves out is paid nothing.
   */
  lemma RegularMinutesAre(e: Terms, t: Technician, k: TechnicianKpi)
    requires ValidTechnician(t)
    ensures var m, c := RegularMinutes(e, t, k), e.scope;
            && (!e.policy.mode.PaidShift? ==> m == k.occupied)
            && (e.policy.mode.PaidShift? && c.onlyIfScheduled && t.id !in e.scheduled ==> m == 0)
            && (e.policy.mode.PaidShift? && (c.onlyIfScheduled ==> t.id in e.scheduled) ==>
                  && (c.starts.Some? && t.id in c.starts.value ==> PaidPart(t, c.starts.value[t.id], m))
                  && ((c.starts.Some? ==> t.id !in c.starts.value) && c.defaultStart.Some? ==>
                        PaidPart(t, c.defaultStart.value, m))
                  && ((c.starts.Some? ==> t.id !in c.starts.value) && c.defaultStart.None? ==> m == t.shiftEnd - t.shiftStart))
  {
  }

  /** For a full plan in the paid shift the committed day is what the regular labour costs. */
  lemma {:induction false} CommittedIsRegular(e: Terms, ks: seq<TechnicianKpi>)
    requires e.policy.mode.PaidShift? && e.scope == Scope(None, None, false)
    ensures BillOf(e, ks).committed == BillOf(e, ks).charge.regular
  {
    hide ChargeOf, CommittedOf, ChargeLines, Paid;
    if ks != [] {
      var k := ks[|ks| - 1];
      CommittedIsRegular(e, ks[..|ks| - 1]);
      if k.tech in e.technicians {
        CommittedShift(e, e.technicians[k.tech], k);
      }
    }
  }

  lemma CommittedShift(e: Terms, t: Technician, k: TechnicianKpi)
    requires e.policy.mode.PaidShift? && e.scope == Scope(None, None, false)
    ensures CommittedOf(e, t) == ChargeOf(e, t, k).regular
  {
  }

  /** What a longer shift and more overtime are worth: an hour each, up to six in the morning and up to four hours. */
  lemma AnHourMore(t: Technician)
    requires ValidTechnician(t)
    ensures var a, b := C.Adjust(C.ExtendShift, t), C.Adjust(C.AllowOvertime, t);
            && ValidTechnician(a) && (Limit(a) == Limit(t) + 60 || a.shiftEnd == 1800) && Limit(a) <= Limit(t) + 60
            && a == t.(shiftEnd := a.shiftEnd)
            && ValidTechnician(b) && (Limit(b) == Limit(t) + 60 || b.overtimeLimit == 240) && Limit(b) <= Limit(t) + 60
            && b == t.(overtimeLimit := b.overtimeLimit)
  {
  }
}
