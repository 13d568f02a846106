/**
  `verify_counterfactual_schedule` as the program runs it: loops that append to
  a list of violations. The report is proved to name exactly the broken rules,
  and to be empty exactly when the schedule obeys all of them.
 */
module Verifier {
  import opened Domain
  import opened Sorting
  import opened Routes
  import opened Feasibility

  /** The rules one visit of a known order breaks, judged from cursor `c`. */
  function Broken(u: Rules, t: Technician, a: Assignment, o: WorkOrder, c: Cursor, judged: bool): set<Violation> {
    (if !CanServe(t, o) then {OnVisit(SkillMismatch, o.id, t.id)} else {})
    + (if judged && !LegContinuous(u, c, a, o) then {OnVisit(TravelDiscontinuity, o.id, t.id)} else {})
    + (if judged && !StartsInWindow(u, c, a, o) then {OnVisit(TimeWindow, o.id, t.id)} else {})
    + (if a.finish != a.start + o.duration then {OnVisit(ServiceDuration, o.id, t.id)} else {})
    + (if a.slaLate != Late(a.finish, o) then {OnVisit(SlaLate, o.id, t.id)} else {})
    + (if !LockRespected(u, o.id, t.id) then {OnVisit(LockBroken, o.id, t.id)} else {})
  }

  /** The rules the k-th visit of a route breaks. */
  function VisitFindings(u: Rules, t: Technician, r: seq<Assignment>, k: nat): set<Violation>
    requires k < |r|
  {
    var a := r[k];
    if a.orderId !in u.orders then {OnVisit(UnknownWorkOrder, a.orderId, t.id)}
    else Broken(u, t, a, u.orders[a.orderId], Origin(u, t, r, k), !Contextual(u, t, a, k))
  }

  ghost function VisitsFindings(u: Rules, t: Technician, r: seq<Assignment>, n: nat): set<Violation>
    requires n <= |r|
  {
    set k, v | 0 <= k < n && v in VisitFindings(u, t, r, k) :: v
  }

  ghost function RouteFindings(u: Rules, t: Id, r: seq<Assignment>): set<Violation> {
    if t !in u.technicians then {OnRoute(UnknownTechnician, t)}
    else
      (if Contiguous(r) then {} else {OnRoute(NonContiguousSequence, t)})
      + VisitsFindings(u, u.technicians[t], r, |r|)
      + (if ReturnsInTime(u, u.technicians[t], r) then {} else {OnRoute(ReturnOvertime, t)})
  }

  ghost function Flagged(code: Code, ids: set<Id>): set<Violation> {
    set o | o in ids :: OnOrder(code, o)
  }

  function Twice(s: seq<Id>): set<Id> {
    set o | o in s && multiset(s)[o] > 1
  }

  ghost function CoverageFindings(u: Rules, s: Schedule): set<Violation> {
    var ids := Ids(s.assignments);
    var placed, left := Elements(ids), Elements(s.unassigned);
    Flagged(DuplicateCoverage, placed * left + (placed + left) * u.external)
    + Flagged(DuplicateAssignment, Twice(ids))
    + Flagged(DuplicateUnassigned, Twice(s.unassigned))
    + Flagged(UnknownWorkOrder, placed + left + u.external - u.orders.Keys)
    + Flagged(MissingCoverage, u.orders.Keys - placed - left - u.external)
    + Flagged(LockedUnassigned, left * u.locked.Keys)
    + Flagged(LockedOutsourced, u.external * u.locked.Keys)
  }

  ghost function FixedFindings(s: Schedule, fixed: Option<Schedule>): set<Violation> {
    if fixed.None? then {}
    else set f | f in fixed.value.assignments && !Keeps(s, f) :: OnOrder(FixedChanged, f.orderId)
  }

  /** The complete set of findings the checker must report. */
  ghost function Findings(u: Rules, s: Schedule, fixed: Option<Schedule>): set<Violation> {
    CoverageFindings(u, s)
    + (set a, v | a in s.assignments && v in RouteFindings(u, a.techId, Route(s.assignments, a.techId)) :: v)
    + FixedFindings(s, fixed)
  }

  // ----- an empty report is acceptance -----

  lemma BrokenEmpty(u: Rules, t: Technician, a: Assignment, o: WorkOrder, c: Cursor, judged: bool)
    ensures Broken(u, t, a, o, c, judged) == {} <==>
      CanServe(t, o) && (judged ==> LegContinuous(u, c, a, o) && StartsInWindow(u, c, a, o))
      && a.finish == a.start + o.duration && a.slaLate == Late(a.finish, o) && LockRespected(u, o.id, t.id)
  {
    var b := Broken(u, t, a, o, c, judged);
    assert !CanServe(t, o) ==> OnVisit(SkillMismatch, o.id, t.id) in b;
    assert judged && !LegContinuous(u, c, a, o) ==> OnVisit(TravelDiscontinuity, o.id, t.id) in b;
    assert judged && !StartsInWindow(u, c, a, o) ==> OnVisit(TimeWindow, o.id, t.id) in b;
    assert a.finish != a.start + o.duration ==> OnVisit(ServiceDuration, o.id, t.id) in b;
    assert a.slaLate != Late(a.finish, o) ==> OnVisit(SlaLate, o.id, t.id) in b;
    assert !LockRespected(u, o.id, t.id) ==> OnVisit(LockBroken, o.id, t.id) in b;
  }

  lemma VisitFindingsEmpty(u: Rules, t: Technician, r: seq<Assignment>, k: nat)
    requires k < |r|
    ensures VisitFindings(u, t, r, k) == {} <==> VisitOk(u, t, r, k)
  {
    var a := r[k];
    if a.orderId !in u.orders {
      assert OnVisit(UnknownWorkOrder, a.orderId, t.id) in VisitFindings(u, t, r, k);
    } else {
      BrokenEmpty(u, t, a, u.orders[a.orderId], Origin(u, t, r, k), !Contextual(u, t, a, k));
    }
  }

  lemma RouteFindingsEmpty(u: Rules, t: Id, r: seq<Assignment>)
    ensures RouteFindings(u, t, r) == {} <==> t in u.technicians && RouteAccepted(u, u.technicians[t], r)
  {
    if t !in u.technicians {
      assert OnRoute(UnknownTechnician, t) in RouteFindings(u, t, r);
    } else {
      var tech := u.technicians[t];
      forall k | 0 <= k < |r| ensures VisitFindings(u, tech, r, k) == {} <==> VisitOk(u, tech, r, k) {
        VisitFindingsEmpty(u, tech, r, k);
      }
      if !Contiguous(r) {
        assert OnRoute(NonContiguousSequence, t) in RouteFindings(u, t, r);
      }
      if !ReturnsInTime(u, tech, r) {
        assert OnRoute(ReturnOvertime, t) in RouteFindings(u, t, r);
      }
      if k :| 0 <= k < |r| && !VisitOk(u, tech, r, k) {
        var v :| v in VisitFindings(u, tech, r, k);
        assert v in RouteFindings(u, t, r);
      }
    }
  }

  lemma FlaggedEmpty(code: Code, ids: set<Id>)
    ensures Flagged(code, ids) == {} <==> ids == {}
  {
    if o :| o in ids {
      assert OnOrder(code, o) in Flagged(code, ids);
    }
  }

  lemma TwiceEmpty(s: seq<Id>)
    ensures Twice(s) == {} <==> Distinct(s)
  {
    DistinctIsCounted(s);
    if o :| multiset(s)[o] > 1 {
      assert o in multiset(s) && o in Twice(s);
    }
  }

  lemma SameSet(a: set<Id>, b: set<Id>)
    ensures a == b <==> a - b == {} && b - a == {}
  {
    if o :| o in a && o !in b {
      assert o in a - b;
    }
    if o :| o in b && o !in a {
      assert o in b - a;
    }
  }

  lemma CoverageFindingsEmpty(u: Rules, s: Schedule)
    ensures CoverageFindings(u, s) == {} <==> Covered(u, s) && LocksPlaced(u, s)
  {
    var ids := Ids(s.assignments);
    var placed, left := Elements(ids), Elements(s.unassigned);
    FlaggedEmpty(DuplicateCoverage, placed * left + (placed + left) * u.external);
    FlaggedEmpty(DuplicateAssignment, Twice(ids));
    FlaggedEmpty(DuplicateUnassigned, Twice(s.unassigned));
    FlaggedEmpty(UnknownWorkOrder, placed + left + u.external - u.orders.Keys);
    FlaggedEmpty(MissingCoverage, u.orders.Keys - placed - left - u.external);
    FlaggedEmpty(LockedUnassigned, left * u.locked.Keys);
    FlaggedEmpty(LockedOutsourced, u.external * u.locked.Keys);
    TwiceEmpty(ids);
    TwiceEmpty(s.unassigned);
    assert u.orders.Keys - placed - left - u.external == u.orders.Keys - (placed + left + u.external);
    SameSet(placed + left + u.external, u.orders.Keys);
    assert (left + u.external) * u.locked.Keys == left * u.locked.Keys + u.external * u.locked.Keys;
  }

  /** The report is empty exactly when the schedule is accepted and keeps what was fixed. */
  lemma FindingsEmpty(u: Rules, s: Schedule, fixed: Option<Schedule>)
    ensures Findings(u, s, fixed) == {} <==> Accepted(u, s) && (fixed.Some? ==> FixedKept(s, fixed.value))
  {
    var f := Findings(u, s, fixed);
    CoverageFindingsEmpty(u, s);
    forall a | a in s.assignments
      ensures RouteFindings(u, a.techId, Route(s.assignments, a.techId)) <= f
      ensures RouteFindings(u, a.techId, Route(s.assignments, a.techId)) == {} <==>
              a.techId in u.technicians && RouteAccepted(u, u.technicians[a.techId], Route(s.assignments, a.techId))
    {
      RouteFindingsEmpty(u, a.techId, Route(s.assignments, a.techId));
    }
    assert CoverageFindings(u, s) <= f && FixedFindings(s, fixed) <= f;
    if fixed.Some? {
      if x :| x in fixed.value.assignments && !Keeps(s, x) {
        assert OnOrder(FixedChanged, x.orderId) in FixedFindings(s, fixed);
      }
    }
  }

  // ----- the loops of the program -----

  lemma ElementsConcat<T>(a: seq<T>, b: seq<T>)
    ensures Elements(a + b) == Elements(a) + Elements(b)
  {
  }

  /** `for work_order_id in sorted(ids): violations.append(CapacityViolation(code, work_order_id))`. */
  method Report(code: Code, ids: set<Id>) returns (out: seq<Violation>)
    ensures Elements(out) == Flagged(code, ids)
  {
    out := [];
    var todo := ids;
    while todo != {}
      invariant todo <= ids
      invariant Elements(out) == Flagged(code, ids - todo)
      decreases todo
    {
      var o :| o in todo;
      ElementsConcat(out, [OnOrder(code, o)]);
      assert ids - (todo - {o}) == (ids - todo) + {o};
      out := out + [OnOrder(code, o)];
      todo := todo - {o};
    }
    assert ids - todo == ids;
  }

  method CheckCoverage(u: Rules, s: Schedule) returns (out: seq<Violation>)
    ensures Elements(out) == CoverageFindings(u, s)
  {
    var assignedIds := Ids(s.assignments);
    var placed, left := Elements(assignedIds), Elements(s.unassigned);
    out := Report(DuplicateCoverage, placed * left + (placed + left) * u.external);
    var more := Report(DuplicateAssignment, Twice(assignedIds));
    out := Extend(out, more);
    more := Report(DuplicateUnassigned, Twice(s.unassigned));
    out := Extend(out, more);
    more := Report(UnknownWorkOrder, placed + left + u.external - u.orders.Keys);
    out := Extend(out, more);
    more := Report(MissingCoverage, u.orders.Keys - placed - left - u.external);
    out := Extend(out, more);
    more := Report(LockedUnassigned, left * u.locked.Keys);
    out := Extend(out, more);
    more := Report(LockedOutsourced, u.external * u.locked.Keys);
    out := Extend(out, more);
  }

  function Extend(a: seq<Violation>, b: seq<Violation>): (r: seq<Violation>)
    ensures Elements(r) == Elements(a) + Elements(b)
  {
    ElementsConcat(a, b);
    a + b
  }

  function When(broken: bool, v: Violation): (r: seq<Violation>)
    ensures Elements(r) == if broken then {v} else {}
  {
    if broken then [v] else []
  }

  /** The checks of one visit, in the order the program makes them. */
  method ReportVisit(u: Rules, t: Technician, a: Assignment, o: WorkOrder, at: int, place: Point, contextual: bool)
    returns (out: seq<Violation>)
    ensures Elements(out) == Broken(u, t, a, o, Cursor(at, place), !contextual)
  {
    var travel := u.travel(place, o.location);
    var arrival := at + travel;
    out := When(!(o.skills <= t.skills), OnVisit(SkillMismatch, o.id, t.id));
    out := Extend(out, When(!contextual && (a.travel != travel || a.arrival != arrival),
                            OnVisit(TravelDiscontinuity, o.id, t.id)));
    out := Extend(out, When(!contextual && (a.start < Max(arrival, ReadyAt(o)) || a.start > o.windowEnd),
                            OnVisit(TimeWindow, o.id, t.id)));
    out := Extend(out, When(a.finish != a.start + o.duration, OnVisit(ServiceDuration, o.id, t.id)));
    out := Extend(out, When(a.slaLate != Max(0, a.finish - o.slaDeadline), OnVisit(SlaLate, o.id, t.id)));
    out := Extend(out, When(o.id in u.locked && u.locked[o.id] != t.id, OnVisit(LockBroken, o.id, t.id)));
  }

  /** The body of the loop along a route: findings of one visit and the moved cursor. */
  method CheckVisit(u: Rules, tech: Technician, r: seq<Assignment>, k: nat, c: Cursor)
    returns (out: seq<Violation>, next: Cursor)
    requires k < |r| && c == CursorAt(u, tech, r, k)
    ensures Elements(out) == VisitFindings(u, tech, r, k)
    ensures next == CursorAt(u, tech, r, k + 1)
  {
    var a := r[k];
    if a.orderId !in u.orders {
      return [OnVisit(UnknownWorkOrder, a.orderId, tech.id)], c;
    }
    var o, entry := u.orders[a.orderId], EntryOf(u, tech.id);
    var at, place := c.at, c.place;
    if entry.Some? && (entry.value.firstFuture == Some(a.orderId) || (k == 0 && entry.value.firstFuture.None?)) {
      at, place := entry.value.availableAt, entry.value.location;
    }
    var frozenPrefix := entry.Some? && a.orderId in u.frozen && entry.value.firstFuture != Some(a.orderId);
    var contextual := frozenPrefix || (k == 0 && u.startedFirst && o.status.Started? && entry.None?);
    out := ReportVisit(u, tech, a, o, at, place, contextual);
    next := if frozenPrefix then Cursor(at, place) else Cursor(a.finish, o.location);
  }

  /** One pass along a sorted route with the running cursor. */
  method CheckRoute(u: Rules, t: Id, r: seq<Assignment>) returns (out: seq<Violation>)
    requires WellKeyed(u)
    ensures Elements(out) == RouteFindings(u, t, r)
  {
    if t !in u.technicians {
      return [OnRoute(UnknownTechnician, t)];
    }
    var tech := u.technicians[t];
    var head := if Contiguous(r) then [] else [OnRoute(NonContiguousSequence, t)];
    var body := [];
    var c := Cursor(tech.shiftStart, tech.depot);
    for k := 0 to |r|
      invariant c == CursorAt(u, tech, r, k)
      invariant Elements(body) == VisitsFindings(u, tech, r, k)
    {
      var found, next := CheckVisit(u, tech, r, k, c);
      ElementsConcat(body, found);
      VisitsFindingsStep(u, tech, r, k);
      body, c := body + found, next;
    }
    var tail := [];
    if r != [] {
      var terminal := if t in u.entries then u.entries[t].returnTo else tech.depot;
      if c.at + u.travel(c.place, terminal) > tech.shiftEnd + tech.overtimeLimit {
        tail := [OnRoute(ReturnOvertime, t)];
      }
    }
    ElementsConcat(head, body);
    ElementsConcat(head + body, tail);
    out := head + body + tail;
  }

  lemma VisitsFindingsStep(u: Rules, t: Technician, r: seq<Assignment>, k: nat)
    requires k < |r|
    ensures VisitsFindings(u, t, r, k + 1) == VisitsFindings(u, t, r, k) + VisitFindings(u, t, r, k)
  {
  }

  method CheckFixed(s: Schedule, fixed: Schedule) returns (out: seq<Violation>)
    ensures Elements(out) == FixedFindings(s, Some(fixed))
  {
    out := [];
    var actual := VisitIndex(s.assignments);
    for i := 0 to |fixed.assignments|
      invariant Elements(out) == set f | f in fixed.assignments[..i] && !Keeps(s, f) :: OnOrder(FixedChanged, f.orderId)
    {
      var f := fixed.assignments[i];
      assert fixed.assignments[..i + 1] == fixed.assignments[..i] + [f];
      if f.orderId !in actual || !SameCommitment(actual[f.orderId], f) {
        ElementsConcat(out, [OnOrder(FixedChanged, f.orderId)]);
        out := out + [OnOrder(FixedChanged, f.orderId)];
      }
    }
    assert fixed.assignments[..|fixed.assignments|] == fixed.assignments;
  }

  ghost function FindingsOf(u: Rules, s: Schedule, ts: set<Id>): set<Violation> {
    set t, v | t in ts && v in RouteFindings(u, t, Route(s.assignments, t)) :: v
  }

  lemma FindingsOfSplit(u: Rules, s: Schedule, ts: set<Id>, t: Id)
    ensures FindingsOf(u, s, ts + {t}) == FindingsOf(u, s, ts) + RouteFindings(u, t, Route(s.assignments, t))
  {
  }

  /** `for technician_id, route in routes.items()` over the grouped assignments. */
  method CheckRoutes(u: Rules, s: Schedule) returns (out: seq<Violation>)
    requires WellKeyed(u)
    ensures Elements(out)
         == set a, v | a in s.assignments && v in RouteFindings(u, a.techId, Route(s.assignments, a.techId)) :: v
  {
    var routes := Grouped(s.assignments);
    out := [];
    var todo := routes.Keys;
    while todo != {}
      invariant todo <= routes.Keys
      invariant Elements(out) == FindingsOf(u, s, routes.Keys - todo)
      decreases todo
    {
      var t :| t in todo;
      var found := CheckRoute(u, t, Sort(SequenceOrder, routes[t]));
      ElementsConcat(out, found);
      out := out + found;
      FindingsOfSplit(u, s, routes.Keys - todo, t);
      assert routes.Keys - (todo - {t}) == (routes.Keys - todo) + {t};
      todo := todo - {t};
    }
    assert routes.Keys - todo == routes.Keys;
  }

  function TechIds(s: seq<Assignment>): set<Id> {
    set a | a in s :: a.techId
  }

  function Bucket(routes: map<Id, seq<Assignment>>, t: Id): seq<Assignment> {
    if t in routes then routes[t] else []
  }

  /** `routes[assignment.technician_id].append(assignment)` over the whole list. */
  method Grouped(s: seq<Assignment>) returns (routes: map<Id, seq<Assignment>>)
    ensures routes.Keys == TechIds(s)
    ensures forall t :: Bucket(routes, t) == Mine(s, t)
  {
    routes := map[];
    for i := 0 to |s|
      invariant routes.Keys == TechIds(s[..i])
      invariant forall t :: Bucket(routes, t) == Mine(s[..i], t)
    {
      var a := s[i];
      assert s[..i + 1] == s[..i] + [a];
      TechIdsAppend(s[..i], a);
      GroupStep(s[..i], a, routes);
      routes := routes[a.techId := Bucket(routes, a.techId) + [a]];
    }
    assert s[..|s|] == s;
  }

  lemma TechIdsAppend(s: seq<Assignment>, a: Assignment)
    ensures TechIds(s + [a]) == TechIds(s) + {a.techId}
  {
    assert a in s + [a] && forall x :: x in s ==> x in s + [a];
  }

  lemma GroupStep(s: seq<Assignment>, a: Assignment, routes: map<Id, seq<Assignment>>)
    requires forall t :: Bucket(routes, t) == Mine(s, t)
    ensures var grown := routes[a.techId := Bucket(routes, a.techId) + [a]];
            forall t :: Bucket(grown, t) == Mine(s + [a], t)
  {
    var grown := routes[a.techId := Bucket(routes, a.techId) + [a]];
    forall t ensures Bucket(grown, t) == Mine(s + [a], t) {
      MineAppend(s, t, a);
    }
  }

  /** The whole checker: exactly the findings, hence valid exactly when accepted. */
  method VerifyCounterfactualSchedule(
    sc: Scenario, s: Schedule, travel: Travel, fixed: Option<Schedule>, external: set<Id>, startedFirst: bool,
    entries: map<Id, RouteEntry>, frozen: set<Id>) returns (valid: bool, violations: seq<Violation>)
    ensures Elements(violations) == Findings(RulesOf(sc, travel, entries, frozen, external, startedFirst), s, fixed)
    ensures valid <==> Accepted(RulesOf(sc, travel, entries, frozen, external, startedFirst), s)
                       && (fixed.Some? ==> FixedKept(s, fixed.value))
  {
    var u := RulesOf(sc, travel, entries, frozen, external, startedFirst);
    RulesAreWellKeyed(sc, travel, entries, frozen, external, startedFirst);
    var coverage := CheckCoverage(u, s);
    var routing := CheckRoutes(u, s);
    var kept: seq<Violation> := [];
    if fixed.Some? {
      kept := CheckFixed(s, fixed.value);
    }
    violations := coverage + routing + kept;
    ElementsConcat(coverage, routing);
    ElementsConcat(coverage + routing, kept);
    valid := violations == [];
    FindingsEmpty(u, s, fixed);
    assert violations == [] <==> Elements(violations) == {} by {
      if violations != [] {
        assert violations[0] in Elements(violations);
      }
    }
  }
}
