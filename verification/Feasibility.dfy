/**
  The rules a day of routes must obey, as `verify_counterfactual_schedule`
  applies them: one cursor (time, place) is threaded along each route, entered
  late when a replan fixed a route entry, and never moved by a frozen visit.
 */
module Feasibility {
  import opened Domain
  import opened Routes

  /** The dictionaries and options the checker builds before it looks at a route. */
  datatype Rules = Rules(
    technicians: map<Id, Technician>,
    orders: map<Id, WorkOrder>,
    locked: map<Id, Id>,
    travel: Travel,
    entries: map<Id, RouteEntry>,
    frozen: set<Id>,
    external: set<Id>,
    startedFirst: bool)

  function RulesOf(sc: Scenario, travel: Travel, entries: map<Id, RouteEntry>, frozen: set<Id>,
                   external: set<Id>, startedFirst: bool): Rules {
    Rules(TechnicianIndex(sc.technicians), ActiveOrders(sc), LockIndex(sc.locks), travel, entries, frozen,
          external, startedFirst)
  }

  datatype Code =
    | DuplicateCoverage | DuplicateAssignment | DuplicateUnassigned | UnknownWorkOrder | MissingCoverage
    | LockedUnassigned | LockedOutsourced | FixedChanged
    | UnknownTechnician | NonContiguousSequence | ReturnOvertime
    | SkillMismatch | TravelDiscontinuity | TimeWindow | ServiceDuration | SlaLate | LockBroken

  /** A violation names an order, a technician's route, or one visit on a route. */
  datatype Violation =
    | OnOrder(code: Code, order: Id)
    | OnRoute(code: Code, tech: Id)
    | OnVisit(code: Code, order: Id, tech: Id)

  // ----- one route -----

  datatype Cursor = Cursor(at: int, place: Point)

  function EntryOf(u: Rules, t: Id): Option<RouteEntry> {
    if t in u.entries then Some(u.entries[t]) else None
  }

  function Terminal(u: Rules, t: Technician): Point {
    if t.id in u.entries then u.entries[t.id].returnTo else t.depot
  }

  function Limit(t: Technician): int {
    t.shiftEnd + t.overtimeLimit
  }

  /** Does the route entry take over at the k-th visit? */
  predicate Enters(e: Option<RouteEntry>, a: Assignment, k: nat) {
    e.Some? && (e.value.firstFuture == Some(a.orderId) || (k == 0 && e.value.firstFuture.None?))
  }

  function Enter(e: Option<RouteEntry>, c: Cursor, a: Assignment, k: nat): Cursor {
    if Enters(e, a, k) then Cursor(e.value.availableAt, e.value.location) else c
  }

  /** A visit that happened before the publication: its times are history, not a plan. */
  predicate FrozenPrefix(u: Rules, e: Option<RouteEntry>, a: Assignment) {
    e.Some? && a.orderId in u.frozen && e.value.firstFuture != Some(a.orderId)
  }

  /** Where and when the technician is free after the first k visits. */
  function CursorAt(u: Rules, t: Technician, r: seq<Assignment>, k: nat): Cursor
    requires k <= |r|
  {
    if k == 0 then Cursor(t.shiftStart, t.depot)
    else
      var a := r[k - 1];
      var c := CursorAt(u, t, r, k - 1);
      if a.orderId !in u.orders then c
      else
        var entered := Enter(EntryOf(u, t.id), c, a, k - 1);
        if FrozenPrefix(u, EntryOf(u, t.id), a) then entered
        else Cursor(a.finish, u.orders[a.orderId].location)
  }

  /** The cursor the k-th visit is judged from. */
  function Origin(u: Rules, t: Technician, r: seq<Assignment>, k: nat): Cursor
    requires k < |r|
  {
    Enter(EntryOf(u, t.id), CursorAt(u, t, r, k), r[k], k)
  }

  predicate Contextual(u: Rules, t: Technician, a: Assignment, k: nat)
    requires a.orderId in u.orders
  {
    || FrozenPrefix(u, EntryOf(u, t.id), a)
    || (k == 0 && u.startedFirst && u.orders[a.orderId].status.Started? && t.id !in u.entries)
  }

  function Late(finish: int, o: WorkOrder): int {
    Max(0, finish - o.slaDeadline)
  }

  predicate LegContinuous(u: Rules, c: Cursor, a: Assignment, o: WorkOrder) {
    a.travel == u.travel(c.place, o.location) && a.arrival == c.at + u.travel(c.place, o.location)
  }

  predicate StartsInWindow(u: Rules, c: Cursor, a: Assignment, o: WorkOrder) {
    Max(c.at + u.travel(c.place, o.location), ReadyAt(o)) <= a.start <= o.windowEnd
  }

  predicate LockRespected(u: Rules, o: Id, t: Id) {
    o in u.locked ==> u.locked[o] == t
  }

  /** Everything the checker demands of the k-th visit of a route. */
  predicate VisitOk(u: Rules, t: Technician, r: seq<Assignment>, k: nat)
    requires k < |r|
  {
    var a := r[k];
    a.orderId in u.orders &&
    var o, c := u.orders[a.orderId], Origin(u, t, r, k);
    && CanServe(t, o)
    && (Contextual(u, t, a, k) || (LegContinuous(u, c, a, o) && StartsInWindow(u, c, a, o)))
    && a.finish == a.start + o.duration
    && a.slaLate == Late(a.finish, o)
    && LockRespected(u, o.id, t.id)
  }

  predicate ReturnsInTime(u: Rules, t: Technician, r: seq<Assignment>) {
    var c := CursorAt(u, t, r, |r|);
    r == [] || c.at + u.travel(c.place, Terminal(u, t)) <= Limit(t)
  }

  ghost predicate RouteAccepted(u: Rules, t: Technician, r: seq<Assignment>) {
    && Contiguous(r)
    && (forall k :: 0 <= k < |r| ==> VisitOk(u, t, r, k))
    && ReturnsInTime(u, t, r)
  }

  // ----- a whole day -----

  function Elements<T>(s: seq<T>): set<T> {
    set x | x in s
  }

  /** Every active order is covered exactly once: assigned, unassigned or external. */
  ghost predicate Covered(u: Rules, s: Schedule) {
    var placed, left := Elements(Ids(s.assignments)), Elements(s.unassigned);
    && Distinct(Ids(s.assignments)) && Distinct(s.unassigned)
    && placed * left == {} && (placed + left) * u.external == {}
    && placed + left + u.external == u.orders.Keys
  }

  ghost predicate LocksPlaced(u: Rules, s: Schedule) {
    (Elements(s.unassigned) + u.external) * u.locked.Keys == {}
  }

  ghost predicate RoutesAccepted(u: Rules, s: Schedule) {
    forall a :: a in s.assignments ==>
      a.techId in u.technicians && RouteAccepted(u, u.technicians[a.techId], Route(s.assignments, a.techId))
  }

  /** The schedule passes `verify_counterfactual_schedule` (without fixed assignments). */
  ghost predicate Accepted(u: Rules, s: Schedule) {
    Covered(u, s) && LocksPlaced(u, s) && RoutesAccepted(u, s)
  }

  predicate SameCommitment(a: Assignment, b: Assignment) {
    a.orderId == b.orderId && a.techId == b.techId && a.sequence == b.sequence && a.start == b.start && a.finish == b.finish
  }

  /** `{item.work_order_id: item for item in assignments}`. */
  function VisitIndex(s: seq<Assignment>): map<Id, Assignment> {
    if s == [] then map[] else VisitIndex(s[..|s| - 1])[s[|s| - 1].orderId := s[|s| - 1]]
  }

  predicate Keeps(s: Schedule, f: Assignment) {
    var actual := VisitIndex(s.assignments);
    f.orderId in actual && SameCommitment(actual[f.orderId], f)
  }

  /** No committed assignment of `fixed` was moved. */
  ghost predicate FixedKept(s: Schedule, fixed: Schedule) {
    forall f :: f in fixed.assignments ==> Keeps(s, f)
  }

  /** Keys of technician dictionaries name the technician they hold. */
  ghost predicate WellKeyed(u: Rules) {
    && (forall t :: t in u.technicians ==> u.technicians[t].id == t)
    && (forall o :: o in u.orders ==> u.orders[o].id == o)
  }

  lemma RulesAreWellKeyed(sc: Scenario, travel: Travel, entries: map<Id, RouteEntry>, frozen: set<Id>,
                          external: set<Id>, startedFirst: bool)
    ensures WellKeyed(RulesOf(sc, travel, entries, frozen, external, startedFirst))
  {
    forall t | t in TechnicianIndex(sc.technicians) ensures TechnicianIndex(sc.technicians)[t].id == t {
      TechnicianIndexSound(sc.technicians, t);
    }
    forall o | o in ActiveOrders(sc) ensures ActiveOrders(sc)[o].id == o {
      ActiveOrderFacts(sc, o);
    }
  }

  lemma {:induction false} VisitIndexSound(s: seq<Assignment>, id: Id)
    ensures id in VisitIndex(s) ==> VisitIndex(s)[id] in s && VisitIndex(s)[id].orderId == id
    ensures id in VisitIndex(s) <==> id in Ids(s)
  {
    IdListed(s, id);
    if s != [] {
      assert s == s[..|s| - 1] + [s[|s| - 1]];
      VisitIndexSound(s[..|s| - 1], id);
      IdListed(s[..|s| - 1], id);
    }
  }

  lemma VisitIndexComplete(s: seq<Assignment>, a: Assignment)
    requires Distinct(Ids(s)) && a in s
    ensures a.orderId in VisitIndex(s) && VisitIndex(s)[a.orderId] == a
  {
    IdListed(s, a.orderId);
    VisitIndexSound(s, a.orderId);
    DistinctIdsMeansVisitedOnce(s);
  }

  /** A list with the same visits in another order is judged the same. */
  lemma AcceptedPermutation(u: Rules, s: Schedule, r: Schedule)
    requires multiset(s.assignments) == multiset(r.assignments) && s.unassigned == r.unassigned
    requires Accepted(u, s)
    ensures Accepted(u, r)
  {
    IdsPermutation(s.assignments, r.assignments);
    assert Elements(Ids(s.assignments)) == Elements(Ids(r.assignments));
    forall a | a in r.assignments
      ensures a.techId in u.technicians &&
              RouteAccepted(u, u.technicians[a.techId], Route(r.assignments, a.techId))
    {
      assert a in multiset(s.assignments);
      RoutePermutation(s.assignments, r.assignments, a.techId);
    }
  }
}
