/**
  What an accepted schedule guarantees, read off the fields of its visits and
  of the business data alone: when each service starts, how the technician got
  there, and when they are home.
 */
module AcceptedFields {
  import opened Domain
  import opened Routes
  import opened Feasibility
  import P = PlanVerifier

  /** The service itself: by a skilled and permitted technician, for its full duration, with its lateness. */
  ghost predicate ProperService(o: WorkOrder, t: Technician, locked: map<Id, Id>, a: Assignment) {
    && a.orderId == o.id && a.techId == t.id && o.skills <= t.skills
    && (o.id in locked ==> locked[o.id] == t.id)
    && a.finish == a.start + o.duration
    && (a.finish > o.slaDeadline ==> a.slaLate == a.finish - o.slaDeadline)
    && (a.finish <= o.slaDeadline ==> a.slaLate == 0)
  }

  /** The start: the technician is there, the window is open, the order has been reported. */
  ghost predicate ProperStart(o: WorkOrder, a: Assignment) {
    && o.windowStart <= a.start <= o.windowEnd && a.arrival <= a.start
    && (o.reportedAt.Some? ==> a.start >= o.reportedAt.value)
  }

  /** The visit is a plan, not history: neither frozen nor a started visit that opens an unentered route. */
  ghost predicate Planned(u: Rules, t: Technician, a: Assignment, k: nat) {
    && a.orderId in u.orders && a.orderId !in u.frozen
    && !(k == 0 && u.startedFirst && u.orders[a.orderId].status.Started? && t.id !in u.entries)
  }

  /** A leg of the given length that begins when the technician is free. */
  ghost predicate DrivenFrom(u: Rules, at: int, place: Point, a: Assignment)
    requires a.orderId in u.orders
  {
    var leg := u.travel(place, u.orders[a.orderId].location);
    a.travel == leg && a.arrival == at + leg
  }

  /** Every visit of an accepted route. */
  lemma RouteVisitFields(u: Rules, t: Technician, r: seq<Assignment>, k: nat)
    requires WellKeyed(u) && RouteAccepted(u, t, r) && k < |r| && r[k].techId == t.id
    ensures r[k].sequence == k + 1 && r[k].orderId in u.orders
    ensures ProperService(u.orders[r[k].orderId], t, u.locked, r[k])
    ensures Planned(u, t, r[k], k) ==> ProperStart(u.orders[r[k].orderId], r[k])
  {
    hide CursorAt, Enter;
    assert VisitOk(u, t, r, k);
  }

  /** Without a route entry the first leg starts at the depot with the shift, any other at the previous visit's finish. */
  lemma RouteLegFields(u: Rules, t: Technician, r: seq<Assignment>, k: nat)
    requires RouteAccepted(u, t, r) && k < |r| && t.id !in u.entries && r[k].orderId in u.orders && Planned(u, t, r[k], k)
    ensures k == 0 ==> DrivenFrom(u, t.shiftStart, t.depot, r[k])
    ensures k > 0 ==> r[k - 1].orderId in u.orders
                      && DrivenFrom(u, r[k - 1].finish, u.orders[r[k - 1].orderId].location, r[k])
  {
    assert VisitOk(u, t, r, k);
    if k > 0 {
      assert VisitOk(u, t, r, k - 1);
    }
  }

  /** Where the entry takes over, the leg starts where and when the entry says, wherever the route came from. */
  lemma EntryLegFields(u: Rules, t: Technician, r: seq<Assignment>, k: nat)
    requires RouteAccepted(u, t, r) && k < |r| && t.id in u.entries && r[k].orderId in u.orders && Planned(u, t, r[k], k)
    requires u.entries[t.id].firstFuture == Some(r[k].orderId) || (k == 0 && u.entries[t.id].firstFuture.None?)
    ensures DrivenFrom(u, u.entries[t.id].availableAt, u.entries[t.id].location, r[k])
  {
    hide CursorAt;
    assert VisitOk(u, t, r, k);
  }

  /** Behind the entry a planned visit follows its neighbour, as on any route. */
  lemma FollowingLegFields(u: Rules, t: Technician, r: seq<Assignment>, k: nat)
    requires RouteAccepted(u, t, r) && 0 < k < |r| && t.id in u.entries && r[k].orderId in u.orders
    requires Planned(u, t, r[k], k) && u.entries[t.id].firstFuture != Some(r[k].orderId)
    requires r[k - 1].orderId !in u.frozen || u.entries[t.id].firstFuture == Some(r[k - 1].orderId)
    ensures r[k - 1].orderId in u.orders
    ensures DrivenFrom(u, r[k - 1].finish, u.orders[r[k - 1].orderId].location, r[k])
  {
    assert VisitOk(u, t, r, k);
    assert VisitOk(u, t, r, k - 1);
  }

  /** The technician is home within the overtime limit, at the depot or where the entry says. */
  lemma ReturnFields(u: Rules, t: Technician, r: seq<Assignment>)
    requires RouteAccepted(u, t, r) && r != []
    requires t.id !in u.entries || r[|r| - 1].orderId !in u.frozen
    ensures var a := r[|r| - 1];
            var home := if t.id in u.entries then u.entries[t.id].returnTo else t.depot;
            a.orderId in u.orders
            && a.finish + u.travel(u.orders[a.orderId].location, home) <= t.shiftEnd + t.overtimeLimit
  {
    hide Enter;
    assert VisitOk(u, t, r, |r| - 1);
  }

  /** The route of an entered technician: n visits of history, then the plan, opened by the visit the entry names. */
  ghost predicate HistoryThenPlan(u: Rules, t: Technician, r: seq<Assignment>, n: nat) {
    && t.id in u.entries && n < |r| && u.entries[t.id].firstFuture == Some(r[n].orderId)
    && (forall k :: 0 <= k < |r| ==> r[k].orderId in u.orders)
    && (forall k :: 0 <= k < n ==> r[k].orderId in u.frozen)
    && (forall k :: n <= k < |r| ==> r[k].orderId !in u.frozen)
    && (forall j, k :: 0 <= j < k < |r| ==> r[j].orderId != r[k].orderId)
  }

  /** What the checker asks of such a route, visit by visit: of history only the service itself. */
  ghost predicate PlanFrom(u: Rules, t: Technician, r: seq<Assignment>, n: nat)
    requires HistoryThenPlan(u, t, r, n)
  {
    var e, last := u.entries[t.id], r[|r| - 1];
    && (forall k :: 0 <= k < |r| ==> r[k].sequence == k + 1 && ProperService(u.orders[r[k].orderId], t, u.locked, r[k]))
    && (forall k :: n <= k < |r| ==> ProperStart(u.orders[r[k].orderId], r[k]))
    && DrivenFrom(u, e.availableAt, e.location, r[n])
    && (forall k :: n < k < |r| ==> DrivenFrom(u, r[k - 1].finish, u.orders[r[k - 1].orderId].location, r[k]))
    && last.finish + u.travel(u.orders[last.orderId].location, e.returnTo) <= t.shiftEnd + t.overtimeLimit
  }

  lemma {:induction false} HistoryMovesNobody(u: Rules, t: Technician, r: seq<Assignment>, n: nat, k: nat)
    requires HistoryThenPlan(u, t, r, n) && k <= |r|
    ensures k <= n ==> CursorAt(u, t, r, k) == Cursor(t.shiftStart, t.depot)
    ensures k > n ==> CursorAt(u, t, r, k) == Cursor(r[k - 1].finish, u.orders[r[k - 1].orderId].location)
  {
    if k > 0 {
      HistoryMovesNobody(u, t, r, n, k - 1);
    }
  }

  lemma EnteredVisit(u: Rules, t: Technician, r: seq<Assignment>, n: nat, k: nat)
    requires WellKeyed(u) && HistoryThenPlan(u, t, r, n) && k < |r| && r[k].techId == t.id
    ensures VisitOk(u, t, r, k) <==>
              && ProperService(u.orders[r[k].orderId], t, u.locked, r[k])
              && (k >= n ==> ProperStart(u.orders[r[k].orderId], r[k]))
              && (k == n ==> DrivenFrom(u, u.entries[t.id].availableAt, u.entries[t.id].location, r[k]))
              && (k > n ==> DrivenFrom(u, r[k - 1].finish, u.orders[r[k - 1].orderId].location, r[k]))
  {
    HistoryMovesNobody(u, t, r, n, k);
    hide CursorAt;
  }

  /** A route with history is accepted exactly if its visits are proper services and its plan follows from the entry. */
  lemma EnteredRouteExactly(u: Rules, t: Technician, r: seq<Assignment>, n: nat)
    requires WellKeyed(u) && HistoryThenPlan(u, t, r, n) && forall a :: a in r ==> a.techId == t.id
    ensures RouteAccepted(u, t, r) <==> PlanFrom(u, t, r, n)
  {
    hide VisitOk, CursorAt, ProperService, ProperStart, DrivenFrom, WellKeyed;
    HistoryMovesNobody(u, t, r, n, |r|);
    if RouteAccepted(u, t, r) {
      forall k | 0 <= k < |r|
        ensures r[k].sequence == k + 1 && ProperService(u.orders[r[k].orderId], t, u.locked, r[k])
        ensures k >= n ==> ProperStart(u.orders[r[k].orderId], r[k])
        ensures k == n ==> DrivenFrom(u, u.entries[t.id].availableAt, u.entries[t.id].location, r[k])
        ensures k > n ==> DrivenFrom(u, r[k - 1].finish, u.orders[r[k - 1].orderId].location, r[k])
      {
        assert VisitOk(u, t, r, k) && r[k] in r;
        EnteredVisit(u, t, r, n, k);
      }
    }
    if PlanFrom(u, t, r, n) {
      forall k | 0 <= k < |r| ensures VisitOk(u, t, r, k) {
        assert r[k] in r;
        EnteredVisit(u, t, r, n, k);
      }
    }
  }

  /** An accepted schedule, visit by visit; in particular no planned service starts before its report or its window. */
  lemma AcceptedVisitFields(u: Rules, s: Schedule, t: Id, k: nat)
    requires Accepted(u, s) && WellKeyed(u) && k < |Route(s.assignments, t)|
    ensures var a := Route(s.assignments, t)[k];
            && a in s.assignments && t in u.technicians && a.sequence == k + 1 && a.orderId in u.orders
            && ProperService(u.orders[a.orderId], u.technicians[t], u.locked, a)
            && (Planned(u, u.technicians[t], a, k) ==> ProperStart(u.orders[a.orderId], a))
  {
    var r := Route(s.assignments, t);
    RouteMembers(s.assignments, t, r[k]);
    hide RouteAccepted, Route, Covered, LocksPlaced;
    RouteVisitFields(u, u.technicians[t], r, k);
  }

  /** The lateness and the leg of a visit in a plan without history. */
  lemma PlainVisitFields(u: Rules, s: Schedule, t: Id, k: nat)
    requires Accepted(u, s) && WellKeyed(u) && k < |Route(s.assignments, t)|
    requires u.entries == map[] && u.frozen == {} && !u.startedFirst
    ensures t in u.technicians
    ensures var r := Route(s.assignments, t);
            && r[k].orderId in u.orders && ProperService(u.orders[r[k].orderId], u.technicians[t], u.locked, r[k])
            && (k == 0 ==> DrivenFrom(u, u.technicians[t].shiftStart, u.technicians[t].depot, r[k]))
            && (k > 0 ==> r[k - 1].orderId in u.orders
                          && DrivenFrom(u, r[k - 1].finish, u.orders[r[k - 1].orderId].location, r[k]))
  {
    var r := Route(s.assignments, t);
    RouteMembers(s.assignments, t, r[k]);
    hide Route, Covered, LocksPlaced, ProperService, DrivenFrom, RouteAccepted;
    AcceptedVisitFields(u, s, t, k);
    RouteLegFields(u, u.technicians[t], r, k);
  }

  /** A schedule keeps the fixed one exactly if it has each of its visits, by the same technician at the same place and time. */
  lemma FixedExactly(s: Schedule, fixed: Schedule)
    requires Distinct(Ids(s.assignments))
    ensures FixedKept(s, fixed) <==>
              forall f :: f in fixed.assignments ==>
                exists a :: a in s.assignments && a.orderId == f.orderId && a.techId == f.techId
                            && a.sequence == f.sequence && a.start == f.start && a.finish == f.finish
  {
    forall f | f in fixed.assignments
      ensures Keeps(s, f) <==>
                exists a :: a in s.assignments && a.orderId == f.orderId && a.techId == f.techId
                            && a.sequence == f.sequence && a.start == f.start && a.finish == f.finish
    {
      VisitIndexSound(s.assignments, f.orderId);
      if a :| a in s.assignments && a.orderId == f.orderId && a.techId == f.techId
              && a.sequence == f.sequence && a.start == f.start && a.finish == f.finish {
        VisitIndexComplete(s.assignments, a);
      }
    }
  }

  /** The neighbour checker guarantees the same of every visit. */
  lemma SoundVisitFields(sc: Scenario, m: Travel, x: P.Execution, s: Schedule, a: Assignment)
    requires P.Sound(sc, m, x, s) && a in s.assignments
    ensures a.orderId in OrderIndex(sc.orders) && a.techId in TechnicianIndex(sc.technicians)
    ensures var o, t := OrderIndex(sc.orders)[a.orderId], TechnicianIndex(sc.technicians)[a.techId];
            && ProperService(o, t, LockIndex(sc.locks), a) && ProperStart(o, a)
            && t.shiftStart <= a.start && a.finish <= t.shiftEnd + t.overtimeLimit
  {
    P.SoundCoverageIsKnown(sc, s);
    assert P.VisitSound(sc, a);
    OrderIndexSound(sc.orders, a.orderId);
    TechnicianIndexSound(sc.technicians, a.techId);
  }

  /** The legs of a sound route: of the right length, and never begun before the technician is free. */
  lemma SoundLegFields(sc: Scenario, m: Travel, x: P.Execution, s: Schedule, t: Id, k: nat)
    requires P.Sound(sc, m, x, s) && k < |Route(s.assignments, t)|
    ensures t in TechnicianIndex(sc.technicians) && P.AllKnown(sc, Route(s.assignments, t))
    ensures var tech, r, orders := TechnicianIndex(sc.technicians)[t], Route(s.assignments, t), OrderIndex(sc.orders);
            var here := orders[r[k].orderId].location;
            && r[k].sequence == k + 1
            && (k > 0 ==> var leg := m(orders[r[k - 1].orderId].location, here);
                          r[k].travel == leg && r[k - 1].finish + leg <= r[k].arrival && r[k].arrival <= r[k].start)
            && (k == 0 && r[0].orderId !in x.started && t !in x.projections ==>
                  var leg := m(tech.depot, here); r[0].travel == leg && tech.shiftStart + leg <= r[0].arrival)
            && (k == 0 && r[0].orderId !in x.started && t in x.projections ==>
                  var leg := m(x.projections[t].place, here);
                  r[0].travel == leg && x.projections[t].at + leg <= r[0].arrival)
            && (k == |r| - 1 ==> r[k].finish + m(here, tech.depot) <= tech.shiftEnd + tech.overtimeLimit)
  {
    P.SoundCoverageIsKnown(sc, s);
    var r := Route(s.assignments, t);
    RouteMembers(s.assignments, t, r[k]);
    hide Route, P.CoverageSound, P.PlacementSound;
    SoundVisitFields(sc, m, x, s, r[k]);
    TechnicianIndexSound(sc.technicians, t);
    assert P.RoutesKnown(sc, s.assignments, t) && P.RouteSound(sc, m, x, TechnicianIndex(sc.technicians)[t], r);
    assert k > 0 ==> P.PairSound(sc, m, r[k - 1], r[k]);
  }
}
