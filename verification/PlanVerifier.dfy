/**
  The structural half of `verify_schedule`: coverage and lock bookkeeping over
  counters, per-visit checks, and pairwise checks of neighbouring visits on each
  route, the first of them against what is known about the execution.
 */
module PlanVerifier {
  import opened Domain
  import opened Sorting
  import opened Routes
  import F = Feasibility
  import V = Verifier

  datatype IssueCode =
    | DuplicateAssignment | DuplicateUnassigned | AssignedAndUnassigned | MissingWorkOrder | UnknownWorkOrder
    | InactiveUnassigned | CompletedAssigned | LockedMissing | LockedUnassigned | StartedUnassigned
    | UnknownTechnician | SkillMismatch | TimeWindow | BeforeReported | ArrivalAfterStart | ServiceDuration
    | SlaLateness | BeforeShift | OvertimeLimit | LockedTechnicianChanged
    | NonContiguous | TravelTime | ImpossibleArrival | RouteOverlap | FirstLegTravel | ImpossibleDeparture
    | ReturnOvertime

  datatype Issue = Issue(code: IssueCode, subject: Id)

  /**
    What a route's first visit is judged by: the orders frozen as started, whose
    first leg is history, and where the technicians are free by the execution facts.
   */
  datatype Execution = Execution(started: set<Id>, projections: map<Id, F.Cursor>)

  const NOTHING_KNOWN := Execution({}, map[])

  // ----- what each group of checks demands -----

  ghost predicate CoverageSound(sc: Scenario, s: Schedule) {
    var orders, active := OrderIndex(sc.orders), ActiveOrders(sc);
    var placed, left := F.Elements(Ids(s.assignments)), F.Elements(s.unassigned);
    && Distinct(Ids(s.assignments)) && Distinct(s.unassigned) && placed * left == {}
    && active.Keys - (placed + left) == {}
    && placed + left - orders.Keys == {}
    && (left - active.Keys) * orders.Keys == {} && (placed - active.Keys) * orders.Keys == {}
  }

  ghost predicate PlacementSound(sc: Scenario, s: Schedule) {
    var placed, left := F.Elements(Ids(s.assignments)), F.Elements(s.unassigned);
    && (forall w :: w in LockIndex(sc.locks) ==>
          w in OrderIndex(sc.orders) && w !in left && (w in ActiveOrders(sc) ==> w in placed))
    && (forall o :: o in sc.orders && o.status.Started? ==> o.id in placed)
  }

  predicate VisitSound(sc: Scenario, a: Assignment)
    requires a.orderId in OrderIndex(sc.orders)
  {
    var o := OrderIndex(sc.orders)[a.orderId];
    a.techId in TechnicianIndex(sc.technicians) &&
    var t := TechnicianIndex(sc.technicians)[a.techId];
    && CanServe(t, o)
    && o.windowStart <= a.start <= o.windowEnd
    && ReadyAt(o) <= a.start
    && a.arrival <= a.start
    && a.finish == a.start + o.duration
    && a.slaLate == Max(0, a.finish - o.slaDeadline)
    && t.shiftStart <= a.start
    && a.finish <= t.shiftEnd + t.overtimeLimit
    && (o.id in LockIndex(sc.locks) ==> LockIndex(sc.locks)[o.id] == a.techId)
  }

  function PlaceOf(sc: Scenario, a: Assignment): Point
    requires a.orderId in OrderIndex(sc.orders)
  {
    OrderIndex(sc.orders)[a.orderId].location
  }

  predicate PairSound(sc: Scenario, m: Travel, a: Assignment, b: Assignment)
    requires a.orderId in OrderIndex(sc.orders) && b.orderId in OrderIndex(sc.orders)
  {
    var travel := m(PlaceOf(sc, a), PlaceOf(sc, b));
    b.travel == travel && b.arrival >= a.finish + travel && a.finish + travel <= b.start
  }

  /** Where and when the technician of an unstarted first visit sets out. */
  function SetsOut(x: Execution, t: Technician): F.Cursor {
    if t.id in x.projections then x.projections[t.id] else F.Cursor(t.shiftStart, t.depot)
  }

  predicate FirstSound(sc: Scenario, m: Travel, x: Execution, t: Technician, a: Assignment)
    requires a.orderId in OrderIndex(sc.orders)
  {
    a.orderId in x.started ||
    var travel := m(SetsOut(x, t).place, PlaceOf(sc, a));
    a.travel == travel && a.arrival >= SetsOut(x, t).at + travel
  }

  predicate LastSound(sc: Scenario, m: Travel, t: Technician, a: Assignment)
    requires a.orderId in OrderIndex(sc.orders)
  {
    a.finish + m(PlaceOf(sc, a), t.depot) <= t.shiftEnd + t.overtimeLimit
  }

  ghost predicate AllKnown(sc: Scenario, r: seq<Assignment>) {
    forall a :: a in r ==> a.orderId in OrderIndex(sc.orders)
  }

  ghost predicate RouteSound(sc: Scenario, m: Travel, x: Execution, t: Technician, r: seq<Assignment>)
    requires AllKnown(sc, r)
  {
    && Contiguous(r)
    && (forall k :: 0 < k < |r| ==> PairSound(sc, m, r[k - 1], r[k]))
    && (r != [] ==> FirstSound(sc, m, x, t, r[0]) && LastSound(sc, m, t, r[|r| - 1]))
  }

  /** The structural checks of `verify_schedule` raise no error. */
  ghost predicate Sound(sc: Scenario, m: Travel, x: Execution, s: Schedule) {
    && CoverageSound(sc, s) && PlacementSound(sc, s)
    && (forall a :: a in s.assignments && a.orderId in OrderIndex(sc.orders) ==> VisitSound(sc, a))
    && (AllKnown(sc, s.assignments) ==>
          forall a :: a in s.assignments && a.techId in TechnicianIndex(sc.technicians) ==>
            RoutesKnown(sc, s.assignments, a.techId)
            && RouteSound(sc, m, x, TechnicianIndex(sc.technicians)[a.techId], Route(s.assignments, a.techId)))
  }

  ghost predicate RoutesKnown(sc: Scenario, s: seq<Assignment>, t: Id) {
    AllKnown(sc, Route(s, t))
  }

  lemma KnownOnRoute(sc: Scenario, s: seq<Assignment>, t: Id)
    requires AllKnown(sc, s)
    ensures RoutesKnown(sc, s, t)
  {
    forall a | a in Route(s, t) ensures a.orderId in OrderIndex(sc.orders) {
      RouteMembers(s, t, a);
    }
  }

  // ----- the loops -----

  function When(broken: bool, code: IssueCode, subject: Id): (r: seq<Issue>)
    ensures r == [] <==> !broken
  {
    if broken then [Issue(code, subject)] else []
  }

  /** One error per element of a set; which comes first does not matter. */
  method ReportAll(code: IssueCode, ids: set<Id>) returns (errors: seq<Issue>)
    ensures errors == [] <==> ids == {}
  {
    errors := [];
    var todo := ids;
    while todo != {}
      invariant todo <= ids && (errors == [] <==> todo == ids)
      decreases todo
    {
      var o :| o in todo;
      errors := errors + [Issue(code, o)];
      todo := todo - {o};
    }
  }

  method CheckCoverage(sc: Scenario, s: Schedule) returns (errors: seq<Issue>)
    ensures errors == [] <==> CoverageSound(sc, s)
  {
    var orders, active := OrderIndex(sc.orders), ActiveOrders(sc);
    var placed, left := F.Elements(Ids(s.assignments)), F.Elements(s.unassigned);
    V.TwiceEmpty(Ids(s.assignments));
    V.TwiceEmpty(s.unassigned);
    var e1 := ReportAll(DuplicateAssignment, V.Twice(Ids(s.assignments)));
    var e2 := ReportAll(DuplicateUnassigned, V.Twice(s.unassigned));
    var e3 := ReportAll(AssignedAndUnassigned, placed * left);
    var e4 := ReportAll(MissingWorkOrder, active.Keys - (placed + left));
    var e5 := ReportAll(UnknownWorkOrder, placed + left - orders.Keys);
    var e6 := ReportAll(InactiveUnassigned, (left - active.Keys) * orders.Keys);
    var e7 := ReportAll(CompletedAssigned, (placed - active.Keys) * orders.Keys);
    errors := e1 + e2 + e3 + e4 + e5 + e6 + e7;
  }

  method CheckPlacement(sc: Scenario, s: Schedule) returns (errors: seq<Issue>)
    requires ValidScenario(sc)
    ensures errors == [] <==> PlacementSound(sc, s)
  {
    var placed, left := F.Elements(Ids(s.assignments)), F.Elements(s.unassigned);
    var orders, locked := OrderIndex(sc.orders), LockIndex(sc.locks);
    var byLock: seq<Issue> := [];
    var todo := locked.Keys;
    while todo != {}
      invariant todo <= locked.Keys
      invariant byLock == [] <==> forall w :: w in locked.Keys - todo ==>
        w in orders && w !in left && (w in ActiveOrders(sc) ==> w in placed)
      decreases todo
    {
      var w :| w in todo;
      ActiveStatus(sc, w);
      if w !in orders {
        byLock := byLock + [Issue(LockedMissing, w)];
      } else if w in left {
        byLock := byLock + [Issue(LockedUnassigned, w)];
      } else if !orders[w].status.Completed? && w !in placed {
        byLock := byLock + [Issue(LockedMissing, w)];
      }
      todo := todo - {w};
    }
    var byStart: seq<Issue> := [];
    for i := 0 to |sc.orders|
      invariant byStart == [] <==> forall o :: o in sc.orders[..i] && o.status.Started? ==> o.id in placed
    {
      var o := sc.orders[i];
      assert sc.orders[..i + 1] == sc.orders[..i] + [o];
      byStart := byStart + When(o.status.Started? && o.id !in placed, StartedUnassigned, o.id);
    }
    assert sc.orders[..|sc.orders|] == sc.orders;
    errors := byLock + byStart;
  }

  lemma ActiveStatus(sc: Scenario, w: Id)
    requires ValidScenario(sc)
    ensures w in ActiveOrders(sc) <==> w in OrderIndex(sc.orders) && !OrderIndex(sc.orders)[w].status.Completed?
    ensures w in ActiveOrders(sc) ==> ActiveOrders(sc)[w] == OrderIndex(sc.orders)[w]
  {
    ActiveOrderFacts(sc, w);
    if w in ActiveOrders(sc) {
      OrderIndexComplete(sc.orders, ActiveOrders(sc)[w]);
    }
    OrderIndexSound(sc.orders, w);
    if w in OrderIndex(sc.orders) && !OrderIndex(sc.orders)[w].status.Completed? {
      ActiveOrdersComplete(sc, OrderIndex(sc.orders)[w]);
    }
  }

  method CheckVisit(sc: Scenario, a: Assignment) returns (errors: seq<Issue>)
    requires a.orderId in OrderIndex(sc.orders)
    ensures errors == [] <==> VisitSound(sc, a)
  {
    var o := OrderIndex(sc.orders)[a.orderId];
    if a.techId !in TechnicianIndex(sc.technicians) {
      return [Issue(UnknownTechnician, a.orderId)];
    }
    var t, locked := TechnicianIndex(sc.technicians)[a.techId], LockIndex(sc.locks);
    errors := When(!(o.skills <= t.skills), SkillMismatch, o.id)
      + When(!(o.windowStart <= a.start <= o.windowEnd), TimeWindow, o.id)
      + When(a.start < ReadyAt(o), BeforeReported, o.id)
      + When(a.arrival > a.start, ArrivalAfterStart, o.id)
      + When(a.finish != a.start + o.duration, ServiceDuration, o.id)
      + When(a.slaLate != Max(0, a.finish - o.slaDeadline), SlaLateness, o.id)
      + When(a.start < t.shiftStart, BeforeShift, o.id)
      + When(a.finish > t.shiftEnd + t.overtimeLimit, OvertimeLimit, o.id)
      + When(o.id in locked && locked[o.id] != a.techId, LockedTechnicianChanged, o.id);
  }

  /** `for before, after in zip(ordered, ordered[1:])`, then the first leg and the return. */
  method CheckRoute(sc: Scenario, m: Travel, x: Execution, t: Technician, r: seq<Assignment>) returns (errors: seq<Issue>)
    requires AllKnown(sc, r)
    ensures errors == [] <==> RouteSound(sc, m, x, t, r)
  {
    var pairs: seq<Issue> := [];
    if r != [] {
      for k := 1 to |r|
        invariant pairs == [] <==> forall j :: 0 < j < k ==> PairSound(sc, m, r[j - 1], r[j])
      {
        var before, after := r[k - 1], r[k];
        var travel := m(PlaceOf(sc, before), PlaceOf(sc, after));
        pairs := pairs + When(after.travel != travel, TravelTime, after.orderId)
          + When(after.arrival < before.finish + travel, ImpossibleArrival, after.orderId)
          + When(before.finish + travel > after.start, RouteOverlap, after.orderId);
      }
    }
    errors := When(!Contiguous(r), NonContiguous, t.id) + pairs;
    if r != [] {
      var first, last := r[0], r[|r| - 1];
      var origin, available := t.depot, t.shiftStart as int;
      var isStarted := first.orderId in x.started;
      if t.id in x.projections && !isStarted {
        origin, available := x.projections[t.id].place, x.projections[t.id].at;
      }
      var out, back := m(origin, PlaceOf(sc, first)), m(PlaceOf(sc, last), t.depot);
      errors := errors + When(!isStarted && first.travel != out, FirstLegTravel, first.orderId)
        + When(!isStarted && first.arrival < available + out, ImpossibleDeparture, first.orderId)
        + When(last.finish + back > t.shiftEnd + t.overtimeLimit, ReturnOvertime, t.id);
    }
  }

  /** The visits of known orders and technicians, and the errors of each. */
  method CheckVisits(sc: Scenario, s: seq<Assignment>) returns (errors: seq<Issue>, grouped: seq<Assignment>)
    ensures errors == [] <==> forall a :: a in s && a.orderId in OrderIndex(sc.orders) ==> VisitSound(sc, a)
    ensures AllKnown(sc, grouped) && forall a :: a in grouped ==> a in s && a.techId in TechnicianIndex(sc.technicians)
    ensures AllKnown(sc, s) && errors == [] ==> grouped == s
  {
    errors, grouped := [], [];
    for i := 0 to |s|
      invariant errors == [] <==> forall a :: a in s[..i] && a.orderId in OrderIndex(sc.orders) ==> VisitSound(sc, a)
      invariant AllKnown(sc, grouped)
      invariant forall a :: a in grouped ==> a in s && a.techId in TechnicianIndex(sc.technicians)
      invariant AllKnown(sc, s) && errors == [] ==> grouped == s[..i]
    {
      var a := s[i];
      assert s[..i + 1] == s[..i] + [a];
      if a.orderId in OrderIndex(sc.orders) {
        var found := CheckVisit(sc, a);
        errors := errors + found;
        if a.techId in TechnicianIndex(sc.technicians) {
          grouped := grouped + [a];
        }
      }
    }
    assert s[..|s|] == s;
  }

  /** The route of one technician is known and sound. */
  ghost predicate TechnicianSound(sc: Scenario, m: Travel, x: Execution, s: seq<Assignment>, t: Id) {
    && t in TechnicianIndex(sc.technicians) && RoutesKnown(sc, s, t)
    && RouteSound(sc, m, x, TechnicianIndex(sc.technicians)[t], Route(s, t))
  }

  method CheckRoutes(sc: Scenario, m: Travel, x: Execution, s: seq<Assignment>) returns (errors: seq<Issue>)
    requires AllKnown(sc, s) && forall a :: a in s ==> a.techId in TechnicianIndex(sc.technicians)
    ensures errors == [] <==> forall a :: a in s ==> TechnicianSound(sc, m, x, s, a.techId)
  {
    var routes := V.Grouped(s);
    errors := [];
    var todo := routes.Keys;
    while todo != {}
      invariant todo <= routes.Keys
      invariant errors == [] <==> forall t :: t in routes.Keys - todo ==> TechnicianSound(sc, m, x, s, t)
      decreases todo
    {
      hide RouteSound, Sort, TechnicianIndex;
      var t :| t in todo;
      assert t in V.TechIds(s);
      KnownOnRoute(sc, s, t);
      assert V.Bucket(routes, t) == routes[t];
      assert Sort(SequenceOrder, routes[t]) == Route(s, t);
      var found := CheckRoute(sc, m, x, TechnicianIndex(sc.technicians)[t], Sort(SequenceOrder, routes[t]));
      assert found == [] <==> TechnicianSound(sc, m, x, s, t);
      errors := errors + found;
      assert routes.Keys - (todo - {t}) == routes.Keys - todo + {t};
      todo := todo - {t};
    }
    assert routes.Keys - todo == V.TechIds(s);
    forall a | a in s ensures a.techId in routes.Keys {
      assert a.techId in V.TechIds(s);
    }
  }

  /** `verify_schedule`, structural part: no errors exactly for sound plans. */
  method VerifySchedule(sc: Scenario, m: Travel, x: Execution, s: Schedule) returns (valid: bool, errors: seq<Issue>)
    requires ValidScenario(sc)
    ensures valid <==> errors == []
    ensures valid <==> Sound(sc, m, x, s)
  {
    var e1 := CheckCoverage(sc, s);
    var e2 := CheckPlacement(sc, s);
    var e3, grouped := CheckVisits(sc, s.assignments);
    var e4 := CheckRoutes(sc, m, x, grouped);
    errors := e1 + e2 + e3 + e4;
    valid := errors == [];
    if e1 == [] {
      SoundCoverageIsKnown(sc, s);
    }
  }

  lemma SoundCoverageIsKnown(sc: Scenario, s: Schedule)
    requires CoverageSound(sc, s)
    ensures AllKnown(sc, s.assignments)
  {
    forall a | a in s.assignments ensures a.orderId in OrderIndex(sc.orders) {
      IdListed(s.assignments, a.orderId);
      assert a.orderId !in F.Elements(Ids(s.assignments)) + F.Elements(s.unassigned) - OrderIndex(sc.orders).Keys;
    }
  }
}
