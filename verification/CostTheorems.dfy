/**
  Paying for the shift against paying for the occupied minutes: on a checked
  plan the two labour costs differ by the idle part of each shift and by
  nothing else, because a route's travel, waiting and service telescope to the
  time between departure and return.
 */
module CostTheorems {
  import opened Domain
  import opened Routes
  import opened Feasibility
  import opened CapacityTheorems
  import opened Kpi
  import opened Cost
  import opened PlainPlans

  function InMode(e: Terms, mode: LaborMode): Terms {
    e.(policy := e.policy.(mode := mode))
  }

  /** How much more a technician costs by the paid shift than by occupied minutes. */
  function ModeGap(e: Terms, t: Technician, k: TechnicianKpi): int {
    Paid(ChargeOf(InMode(e, PaidShift), t, k)) - Paid(ChargeOf(InMode(e, OccupiedMinutes), t, k))
  }

  predicate FullWage(e: Terms, t: Id) {
    SourceOf(e, t).regular && SourceOf(e, t).overtimeBase
  }

  lemma GapIsMinutes(e: Terms, t: Technician, k: TechnicianKpi)
    requires FullWage(e, t.id)
    ensures ModeGap(e, t, k) == (RegularMinutes(InMode(e, PaidShift), t, k) + k.overtime - k.occupied) * t.rate
  {
    var m := RegularMinutes(InMode(e, PaidShift), t, k);
    assert RegularMinutes(InMode(e, OccupiedMinutes), t, k) == k.occupied;
    assert (m + k.overtime - k.occupied) * t.rate == m * t.rate + k.overtime * t.rate - k.occupied * t.rate;
  }

  /** Paid minutes, plus overtime, less the minutes on the road or at work: the plain arithmetic. */
  lemma ShiftArithmetic(end: int, from: int, departure: int, back: int)
    ensures Max(0, end - from) + Max(0, back - end) - (back - departure)
         == Max(0, end - back) + Max(0, from - end) - (from - departure)
  {
  }

  lemma IdleArithmetic(start: int, end: int, back: int)
    requires start <= end
    ensures (end - start) + Max(0, back - end) - (back - start) == Max(0, (end - start) - (back - start))
  {
  }

  /** What a route adds up to, in the words of the cost analysis. */
  lemma RouteTimes(u: Rules, t: Technician, r: seq<Assignment>)
    requires PlainRoute(u, t, r) && Terminal(u, t) == t.depot && t.shiftStart <= t.shiftEnd
    ensures AllKnown(u.orders, r)
    ensures var k, end := RouteKpi(u.orders, u.travel, t, r), RouteEnd(u.orders, u.travel, t, r);
            && k.occupied == (if r == [] then 0 else end - Departure(u, t))
            && k.overtime == Max(0, end - t.shiftEnd) && (r == [] ==> end == t.shiftStart)
  {
    hide PlainRoute;
    OccupiedTelescopes(u, t, r);
  }

  /** The part of the shift from where the scope counts it. */
  function CountedMinutes(e: Terms, t: Technician): int {
    Max(0, t.shiftEnd - Max(t.shiftStart, CountedFrom(e.scope, t)))
  }

  lemma PaidMinutes(e: Terms, t: Technician, k: TechnicianKpi)
    ensures e.scope == Scope(None, None, false) ==> RegularMinutes(InMode(e, PaidShift), t, k) == t.shiftEnd - t.shiftStart
    ensures e.scope.onlyIfScheduled && t.id !in e.scheduled ==> RegularMinutes(InMode(e, PaidShift), t, k) == 0
    ensures (e.scope.onlyIfScheduled ==> t.id in e.scheduled) && (e.scope.starts.Some? || e.scope.defaultStart.Some?) ==>
              RegularMinutes(InMode(e, PaidShift), t, k) == CountedMinutes(e, t)
  {
  }

  /**
    A full plan: the difference is the rate times the minutes of the shift that
    the route does not occupy, never a saving.
   */
  lemma FullShiftGap(u: Rules, e: Terms, t: Technician, r: seq<Assignment>)
    requires PlainRoute(u, t, r) && t.id !in u.entries && t.shiftStart <= t.shiftEnd && FullWage(e, t.id)
    requires e.scope == Scope(None, None, false)
    ensures AllKnown(u.orders, r)
    ensures var k := RouteKpi(u.orders, u.travel, t, r);
            ModeGap(e, t, k) == Max(0, ShiftLength(t) - k.occupied) * t.rate
  {
    hide PlainRoute, ModeGap, FullWage, RegularMinutes, RouteKpi, RouteEnd;
    RouteTimes(u, t, r);
    var k := RouteKpi(u.orders, u.travel, t, r);
    GapIsMinutes(e, t, k);
    PaidMinutes(e, t, k);
    IdleArithmetic(t.shiftStart, t.shiftEnd, if r == [] then t.shiftStart else RouteEnd(u.orders, u.travel, t, r));
  }

  /** The minutes by which counting paid time from `from` differs from occupying a route since `departure`. */
  function RemainingMinutes(t: Technician, from: int, departure: int, back: int): int {
    Max(0, t.shiftEnd - back) + Max(0, from - t.shiftEnd) - (from - departure)
  }

  /**
    A remaining plan. Paid time counts from the later of the shift start and the
    time the scope names, the entry of the technician or the time of the
    analysis; the route is occupied since its departure. Idle minutes before the
    end of the shift are paid, a counted start past it is worked at overtime
    only, and minutes between departure and the counted start are occupied but
    not paid.
   */
  lemma RemainingGap(u: Rules, e: Terms, t: Technician, r: seq<Assignment>)
    requires PlainRoute(u, t, r) && Terminal(u, t) == t.depot && t.shiftStart <= t.shiftEnd && FullWage(e, t.id)
    requires e.scope.onlyIfScheduled && (t.id in e.scheduled <==> r != [])
    requires e.scope.starts.Some? || e.scope.defaultStart.Some?
    ensures AllKnown(u.orders, r)
    ensures var k, end := RouteKpi(u.orders, u.travel, t, r), RouteEnd(u.orders, u.travel, t, r);
            var from := Max(t.shiftStart, CountedFrom(e.scope, t));
            ModeGap(e, t, k) == (if r == [] then 0 else RemainingMinutes(t, from, Departure(u, t), end)) * t.rate
  {
    hide PlainRoute, ModeGap, FullWage, RegularMinutes, RouteKpi, RouteEnd, CountedFrom;
    RouteTimes(u, t, r);
    var k, end := RouteKpi(u.orders, u.travel, t, r), RouteEnd(u.orders, u.travel, t, r);
    GapIsMinutes(e, t, k);
    PaidMinutes(e, t, k);
    ShiftArithmetic(t.shiftEnd, Max(t.shiftStart, CountedFrom(e.scope, t)), Departure(u, t), end);
  }

  // ----- the whole plan -----

  /** The cost of the shift minutes that no route occupies. */
  function IdleCost(ts: seq<Technician>, ks: seq<TechnicianKpi>): int
    requires |ts| == |ks|
  {
    if ts == [] then 0
    else
      var t, k := ts[|ts| - 1], ks[|ks| - 1];
      IdleCost(ts[..|ts| - 1], ks[..|ks| - 1]) + Max(0, ShiftLength(t) - k.occupied) * t.rate
  }

  /** How much more the labour of a plan costs by the paid shift than by occupied minutes. */
  function BillGap(e: Terms, ks: seq<TechnicianKpi>): int {
    Paid(BillOf(InMode(e, PaidShift), ks).charge) - Paid(BillOf(InMode(e, OccupiedMinutes), ks).charge)
  }

  lemma BillGrows(e: Terms, ks: seq<TechnicianKpi>, k: TechnicianKpi)
    requires k.tech in e.technicians
    ensures BillGap(e, ks + [k]) == BillGap(e, ks) + ModeGap(e, e.technicians[k.tech], k)
  {
    hide ChargeOf;
    assert (ks + [k])[..|ks|] == ks;
  }

  /** A technician on full wage whose route has no history. */
  ghost predicate FullPlan(u: Rules, e: Terms, t: Technician, s: seq<Assignment>) {
    && t.id in e.technicians && e.technicians[t.id] == t && FullWage(e, t.id)
    && t.shiftStart <= t.shiftEnd && t.id !in u.entries && PlainRoute(u, t, Route(s, t.id))
  }

  ghost predicate Lists(u: Rules, orders: map<Id, WorkOrder>) {
    forall o :: o in u.orders ==> o in orders && orders[o] == u.orders[o]
  }

  lemma TechnicianGap(u: Rules, orders: map<Id, WorkOrder>, e: Terms, t: Technician, s: seq<Assignment>)
    requires AllKnown(orders, Route(s, t.id)) && e.scope == Scope(None, None, false)
    requires Lists(u, orders) && FullPlan(u, e, t, s)
    ensures var k := RouteKpi(orders, u.travel, t, Route(s, t.id));
            && k.tech == t.id
            && ModeGap(e, t, k) == Max(0, ShiftLength(t) - k.occupied) * t.rate
  {
    hide Route, PlainRoute, FullWage, ModeGap;
    var r := Route(s, t.id);
    FullShiftGap(u, e, t, r);
    SameFigures(u.orders, orders, u.travel, t, r);
  }

  lemma IdleGrows(ts: seq<Technician>, t: Technician, ks: seq<TechnicianKpi>, k: TechnicianKpi)
    requires |ts| == |ks|
    ensures IdleCost(ts + [t], ks + [k]) == IdleCost(ts, ks) + Max(0, ShiftLength(t) - k.occupied) * t.rate
  {
    assert (ks + [k])[..|ks|] == ks && (ts + [t])[..|ts|] == ts;
  }

  lemma FiguresGrow(orders: map<Id, WorkOrder>, m: Travel, ts: seq<Technician>, t: Technician, s: seq<Assignment>)
    requires VisitsKnown(orders, s)
    ensures Figures(orders, m, ts + [t], s) == Figures(orders, m, ts, s) + [RouteKpi(orders, m, t, Route(s, t.id))]
  {
    hide Route, RouteKpi;
    assert (ts + [t])[..|ts|] == ts;
  }

  lemma {:induction false} GapsAddUp(u: Rules, orders: map<Id, WorkOrder>, e: Terms, ts: seq<Technician>, s: seq<Assignment>)
    requires VisitsKnown(orders, s) && e.scope == Scope(None, None, false) && Lists(u, orders)
    requires forall t :: t in ts ==> FullPlan(u, e, t, s)
    ensures var ks := Figures(orders, u.travel, ts, s);
            BillGap(e, ks) == IdleCost(ts, ks)
  {
    hide Route, FullPlan, ModeGap, RouteKpi, BillGap, Lists;
    if ts == [] {
      NoGap(e);
    } else {
      hide IdleCost, Figures;
      var front, t := ts[..|ts| - 1], ts[|ts| - 1];
      assert ts == front + [t] && t in ts;
      GapsAddUp(u, orders, e, front, s);
      var ks, k := Figures(orders, u.travel, front, s), RouteKpi(orders, u.travel, t, Route(s, t.id));
      TechnicianGap(u, orders, e, t, s);
      FiguresGrow(orders, u.travel, front, t, s);
      IdleGrows(front, t, ks, k);
      KnownTechnician(u, e, t, s);
      BillGrows(e, ks, k);
    }
  }

  lemma KnownTechnician(u: Rules, e: Terms, t: Technician, s: seq<Assignment>)
    requires FullPlan(u, e, t, s)
    ensures t.id in e.technicians && e.technicians[t.id] == t
  {
  }

  lemma NoGap(e: Terms)
    ensures BillGap(e, []) == 0
  {
    NoBill(InMode(e, PaidShift));
    NoBill(InMode(e, OccupiedMinutes));
    hide BillOf;
  }

  lemma NoBill(e: Terms)
    ensures BillOf(e, []).charge == Charge(0, 0, 0)
  {
  }

  /**
    Paid shifts against occupied minutes for a checked full plan: the labour
    costs differ by exactly the cost of the unoccupied shift minutes.
   */
  lemma PaidShiftCostsTheIdleTime(sc: Scenario, m: Travel, s: Schedule, p: Policy, sources: map<Id, WageSource>)
    requires CommittedPlan(sc, m, map[], {}, s)
    requires forall t :: t in sources ==> sources[t].regular && sources[t].overtimeBase
    ensures VisitsKnown(OrderIndex(sc.orders), s.assignments)
    ensures var e, ks := TermsOf(sc, s, p, Scope(None, None, false), sources), KpisOf(sc, m, s).technicians;
            BillGap(e, ks) == IdleCost(sc.technicians, ks) >= 0
  {
    var u, e := Day(sc, m, map[], {}), TermsOf(sc, s, p, Scope(None, None, false), sources);
    var orders := OrderIndex(sc.orders);
    CommittedVisits(sc, m, map[], {}, s);
    forall t | t in sc.technicians ensures FullPlan(u, e, t, s.assignments) {
      CommittedRoute(sc, m, map[], {}, s, t);
    }
    GapsAddUp(u, orders, e, sc.technicians, s.assignments);
    IdleIsPaid(sc.technicians, KpisOf(sc, m, s).technicians);
  }

  lemma {:induction false} IdleIsPaid(ts: seq<Technician>, ks: seq<TechnicianKpi>)
    requires |ts| == |ks|
    ensures IdleCost(ts, ks) >= 0
  {
    if ts != [] {
      IdleIsPaid(ts[..|ts| - 1], ks[..|ks| - 1]);
    }
  }
}
