/**
  What the capacity analysis can rely on: every internal option, applied to an
  accepted plan, gives a schedule the checker accepts with the committed plan
  as fixed assignments; nothing that still fits is left behind; and a second
  append changes nothing.
 */
module CapacityTheorems {
  import opened Domain
  import opened Sorting
  import opened Routes
  import opened Feasibility
  import opened Greedy
  import opened Maximality
  import opened Capacity

  /** The checker's rules for a scenario in a remaining-work analysis. */
  function Day(sc: Scenario, travel: Travel, entries: map<Id, RouteEntry>, frozen: set<Id>): Rules {
    RulesOf(sc, travel, entries, frozen, {}, false)
  }

  /** The starting point of every capacity option: an accepted plan that no frozen visit or stray entry touches. */
  ghost predicate CommittedPlan(sc: Scenario, travel: Travel, entries: map<Id, RouteEntry>, frozen: set<Id>, base: Schedule) {
    var u := Day(sc, travel, entries, frozen);
    ValidScenario(sc) && Accepted(u, base) && NothingFrozen(u) && EntriesServed(u, base.assignments)
  }

  // ----- the pending list is the unassigned list -----

  lemma {:induction false} KnownIds(orders: map<Id, WorkOrder>, ids: seq<Id>)
    requires KeyedOrders(orders) && Distinct(ids) && forall i :: i in ids ==> i in orders
    ensures OrderIds(Known(orders, ids)) == ids
  {
    if ids != [] {
      var front, id := ids[..|ids| - 1], ids[|ids| - 1];
      assert ids == front + [id];
      KnownIds(orders, front);
      assert id !in front;
    }
  }

  /** A sorted list of dictionary orders without duplicates has no duplicate ids. */
  lemma DistinctOrdersHaveDistinctIds(orders: map<Id, WorkOrder>, s: seq<WorkOrder>)
    requires forall o :: o in s ==> o.id in orders && orders[o.id] == o
    ensures Distinct(s) <==> Distinct(OrderIds(s))
  {
    var ids := OrderIds(s);
    if i, j :| 0 <= i < j < |s| && s[i] == s[j] {
      assert ids[i] == ids[j];
    }
    if i, j :| 0 <= i < j < |s| && ids[i] == ids[j] {
      assert s[i] in s && s[j] in s;
    }
  }

  lemma WaitingMembers(orders: map<Id, WorkOrder>, ids: seq<Id>, o: WorkOrder)
    requires KeyedOrders(orders)
    ensures o in Waiting(orders, ids) <==> o.id in ids && o.id in orders && orders[o.id] == o
  {
    SortMembers(DueOrder, Known(orders, ids), o);
    KnownMembers(orders, ids, o);
  }

  lemma WaitingIds(y: Yard, ids: seq<Id>)
    requires KeyedOrders(y.orders) && Distinct(ids) && forall i :: i in ids ==> i in y.orders
    ensures Distinct(OrderIds(Waiting(y.orders, ids)))
    ensures Elements(OrderIds(Waiting(y.orders, ids))) == Elements(ids)
  {
    var known, pending := Known(y.orders, ids), Waiting(y.orders, ids);
    KnownIds(y.orders, ids);
    WaitingKnown(y, ids);
    forall o | o in known ensures o.id in y.orders && y.orders[o.id] == o {
      KnownMembers(y.orders, ids, o);
    }
    DistinctOrdersHaveDistinctIds(y.orders, known);
    SortDistinct(DueOrder, known);
    DistinctOrdersHaveDistinctIds(y.orders, pending);
    WaitingIdSet(y.orders, ids);
  }

  lemma WaitingIdSet(orders: map<Id, WorkOrder>, ids: seq<Id>)
    requires KeyedOrders(orders) && forall i :: i in ids ==> i in orders
    ensures Elements(OrderIds(Waiting(orders, ids))) == Elements(ids)
  {
    var pending := Waiting(orders, ids);
    forall id | id in ids ensures id in OrderIds(pending) {
      WaitingMembers(orders, ids, orders[id]);
      var k :| 0 <= k < |pending| && pending[k] == orders[id];
      assert OrderIds(pending)[k] == id;
    }
    forall id | id in OrderIds(pending) ensures id in ids {
      var k :| 0 <= k < |pending| && OrderIds(pending)[k] == id;
      WaitingMembers(orders, ids, pending[k]);
    }
  }

  lemma ActiveAreListed(sc: Scenario, o: Id)
    requires ValidScenario(sc) && o in ActiveOrders(sc)
    ensures o in OrderIndex(sc.orders) && OrderIndex(sc.orders)[o] == ActiveOrders(sc)[o]
  {
    ActiveOrderFacts(sc, o);
    OrderIndexComplete(sc.orders, ActiveOrders(sc)[o]);
  }

  lemma SameDayOf(sc: Scenario, travel: Travel, entries: map<Id, RouteEntry>, frozen: set<Id>)
    requires ValidScenario(sc) && NothingFrozen(Day(sc, travel, entries, frozen))
    ensures SameDay(YardOf(sc, travel, entries), Day(sc, travel, entries, frozen))
    ensures KeyedOrders(OrderIndex(sc.orders))
  {
    RulesAreWellKeyed(sc, travel, entries, frozen, {}, false);
    OrderKeys(sc);
    forall o | o in ActiveOrders(sc) ensures o in OrderIndex(sc.orders) && OrderIndex(sc.orders)[o] == ActiveOrders(sc)[o] {
      ActiveAreListed(sc, o);
    }
  }

  lemma AcceptedVisitsKnown(u: Rules, s: Schedule)
    requires Covered(u, s)
    ensures forall a :: a in s.assignments ==> a.orderId in u.orders
    ensures forall i :: i in s.unassigned ==> i in u.orders
  {
    forall a | a in s.assignments ensures a.orderId in u.orders {
      IdListed(s.assignments, a.orderId);
      assert a.orderId in Elements(Ids(s.assignments));
    }
    forall i | i in s.unassigned ensures i in u.orders {
      assert i in Elements(s.unassigned);
    }
  }

  // ----- the loop over a committed plan -----

  /** The loop starts in progress: the committed plan with every unassigned order pending. */
  lemma StartsInProgress(y: Yard, u: Rules, base: Schedule)
    requires SameDay(y, u) && KeyedOrders(y.orders) && Accepted(u, base) && EntriesServed(u, base.assignments)
    ensures VisitsKnown(y.orders, base.assignments)
    ensures StopsKnown(y, RoutesOf(base.assignments)) && OrdersKnown(y, Waiting(y.orders, base.unassigned))
    ensures Progress(y, u, Board(RoutesOf(base.assignments), base.assignments, []),
                     OrderIds(Waiting(y.orders, base.unassigned)) + [])
  {
    AcceptedVisitsKnown(u, base);
    RoutesOfKnown(y, base.assignments);
    WaitingKnown(y, base.unassigned);
    WaitingIds(y, base.unassigned);
    hide Waiting, Route, RouteAccepted, OrderIds;
    var rest := OrderIds(Waiting(y.orders, base.unassigned));
    assert [] + (rest + []) == rest;
    CoveredSameLeft(u, base.assignments, base.unassigned, rest);
  }

  lemma CoveredSameLeft(u: Rules, visits: seq<Assignment>, left: seq<Id>, left': seq<Id>)
    requires Covered(u, Schedule(visits, left)) && Distinct(left') && Elements(left') == Elements(left)
    ensures Covered(u, Schedule(visits, left'))
  {
  }

  lemma {:induction false} RunOnlyAppends(y: Yard, b: Board, pending: seq<WorkOrder>)
    requires StopsKnown(y, b.routes) && OrdersKnown(y, pending)
    ensures b.visits <= Run(y, b, pending).visits
    ensures Elements(Run(y, b, pending).left) <= Elements(b.left) + Elements(OrderIds(pending))
  {
    hide Step;
    if pending != [] {
      var front, o := pending[..|pending| - 1], pending[|pending| - 1];
      var before := Run(y, b, front);
      RunOnlyAppends(y, b, front);
      OneOnlyAppends(y, before, o);
      assert OrderIds(pending) == OrderIds(front) + [o.id];
      hide Run, OrderIds;
      assert Elements(OrderIds(front)) <= Elements(OrderIds(pending)) && o.id in Elements(OrderIds(pending));
    }
  }

  /** One turn of the loop adds at most one visit at the end, or one order to the leftovers. */
  lemma OneOnlyAppends(y: Yard, b: Board, o: WorkOrder)
    requires StopsKnown(y, b.routes) && o.id in y.orders
    ensures b.visits <= Step(y, b, o).visits
    ensures Elements(Step(y, b, o).left) <= Elements(b.left) + {o.id}
  {
    hide Offers, Best;
  }

  /** After the loop every order is covered, every route accepted, and nothing committed has moved. */
  lemma LoopResult(y: Yard, u: Rules, base: Schedule)
    requires SameDay(y, u) && KeyedOrders(y.orders) && Accepted(u, base) && EntriesServed(u, base.assignments)
    requires y.locked == map[]
    ensures VisitsKnown(y.orders, base.assignments)
    ensures Progress(y, u, Appended(y, base), [])
    ensures base.assignments <= Appended(y, base).visits
    ensures Elements(Appended(y, base).left) <= Elements(base.unassigned)
  {
    StartsInProgress(y, u, base);
    var pending := Waiting(y.orders, base.unassigned);
    var b := Board(RoutesOf(base.assignments), base.assignments, []);
    AcceptedVisitsKnown(u, base);
    WaitingKnown(y, base.unassigned);
    WaitingIds(y, base.unassigned);
    forall o | o in pending ensures o.id in u.orders && u.orders[o.id] == o && o.id !in u.locked {
      assert o.id in Elements(base.unassigned);
      assert o.id !in (Elements(base.unassigned) + u.external) * u.locked.Keys;
    }
    RunKeepsProgress(y, u, b, pending, []);
    RunOnlyAppends(y, b, pending);
  }

  lemma PrefixKept(s: seq<Assignment>, fixed: Schedule, left: seq<Id>)
    requires Distinct(Ids(s)) && fixed.assignments <= s
    ensures FixedKept(Schedule(Sort(RosterOrder, s), left), fixed)
  {
    var sorted := Sort(RosterOrder, s);
    SortContents(RosterOrder, s);
    IdsPermutation(s, sorted);
    forall f | f in fixed.assignments ensures Keeps(Schedule(sorted, left), f) {
      SortMembers(RosterOrder, s, f);
      VisitIndexComplete(sorted, f);
    }
  }

  lemma AppendedAccepted(y: Yard, u: Rules, base: Schedule)
    requires SameDay(y, u) && KeyedOrders(y.orders) && Accepted(u, base) && EntriesServed(u, base.assignments)
    requires y.locked == map[]
    ensures VisitsKnown(y.orders, base.assignments)
    ensures Accepted(u, TailAppended(y, base)) && FixedKept(TailAppended(y, base), base)
    ensures Elements(TailAppended(y, base).unassigned) <= Elements(base.unassigned)
  {
    LoopResult(y, u, base);
    var b := Appended(y, base);
    assert b.left + [] == b.left;
    assert Accepted(u, Schedule(b.visits, b.left)) by {
      assert (Elements(b.left) + u.external) * u.locked.Keys
          <= (Elements(base.unassigned) + u.external) * u.locked.Keys;
    }
    SortContents(RosterOrder, b.visits);
    AcceptedPermutation(u, Schedule(b.visits, b.left), TailAppended(y, base));
    PrefixKept(b.visits, base, b.left);
  }

  /**
    Capacity soundness. Hiring, training, extending shifts or allowing more
    overtime and then appending to route tails always yields a schedule that
    the checker accepts with the committed plan fixed.
   */
  lemma CapacitySoundness(sc: Scenario, x: Relaxation, travel: Travel, entries: map<Id, RouteEntry>, frozen: set<Id>,
                          base: Schedule)
    requires CommittedPlan(sc, travel, entries, frozen, base) && Admissible(sc, x)
    ensures KeyedOrders(OrderIndex(sc.orders)) && VisitsKnown(OrderIndex(sc.orders), base.assignments)
    ensures var result := TailAppended(YardOf(Relax(sc, x), travel, entries), base);
            && Accepted(Day(Relax(sc, x), travel, entries, frozen), result)
            && FixedKept(result, base)
            && Elements(result.unassigned) <= Elements(base.unassigned)
  {
    var u, u' := Day(sc, travel, entries, frozen), Day(Relax(sc, x), travel, entries, frozen);
    RelaxRelaxes(sc, x, travel, entries, frozen);
    AcceptedUnderRelaxation(u, u', base);
    RelaxedIsValid(sc, x);
    SameDayOf(Relax(sc, x), travel, entries, frozen);
    AppendedAccepted(YardOf(Relax(sc, x), travel, entries), u', base);
  }

  /** Outsourcing: the committed routes with every unassigned order covered externally are accepted too. */
  lemma OutsourcingSoundness(sc: Scenario, travel: Travel, entries: map<Id, RouteEntry>, frozen: set<Id>, base: Schedule)
    requires CommittedPlan(sc, travel, entries, frozen, base)
    ensures var outsourced := Schedule(base.assignments, []);
            && Accepted(RulesOf(sc, travel, entries, frozen, Elements(base.unassigned), false), outsourced)
            && FixedKept(outsourced, base)
  {
    var u, u' := Day(sc, travel, entries, frozen), RulesOf(sc, travel, entries, frozen, Elements(base.unassigned), false);
    forall t | t in u.technicians ensures Easier(u.technicians[t], u'.technicians[t]) {
    }
    RelaxedRoutes(u, u', base, []);
    forall f | f in base.assignments ensures Keeps(Schedule(base.assignments, []), f) {
      VisitIndexComplete(base.assignments, f);
    }
  }

  /** Greedy maximality: no order still unassigned fits behind any permitted technician's final route. */
  lemma AppendIsMaximal(sc: Scenario, x: Relaxation, travel: Travel, entries: map<Id, RouteEntry>, frozen: set<Id>,
                        base: Schedule, id: Id)
    requires CommittedPlan(sc, travel, entries, frozen, base) && Admissible(sc, x) && SlackTriangle(travel)
    requires KeyedOrders(OrderIndex(sc.orders)) && VisitsKnown(OrderIndex(sc.orders), base.assignments)
    requires id in TailAppended(YardOf(Relax(sc, x), travel, entries), base).unassigned
    ensures var y := YardOf(Relax(sc, x), travel, entries);
            id in y.orders && NoRoom(y, Appended(y, base).routes, y.orders[id])
  {
    RelaxedIsValid(sc, x);
    var y := YardOf(Relax(sc, x), travel, entries);
    RoutesOfKnown(y, base.assignments);
    WaitingKnown(y, base.unassigned);
    AllOrdersTakeTime(sc, base.unassigned);
    RunIsMaximal(y, Board(RoutesOf(base.assignments), base.assignments, []), Waiting(y.orders, base.unassigned), id);
  }

  lemma AllOrdersTakeTime(sc: Scenario, ids: seq<Id>)
    requires ValidScenario(sc) && KeyedOrders(OrderIndex(sc.orders))
    ensures AllTakeTime(Waiting(OrderIndex(sc.orders), ids))
  {
    var orders := OrderIndex(sc.orders);
    forall o | o in Waiting(orders, ids) ensures o.duration >= 1 {
      SortMembers(DueOrder, Known(orders, ids), o);
      KnownMembers(orders, ids, o);
      OrderIndexSound(sc.orders, o.id);
    }
  }

  // ----- a second append -----

  /** The orders a list of ids names, in list order. */
  function Named(orders: map<Id, WorkOrder>, ids: seq<Id>): (r: seq<WorkOrder>)
    requires forall i :: i in ids ==> i in orders
    ensures |r| == |ids|
  {
    seq(|ids|, i requires 0 <= i < |ids| => orders[ids[i]])
  }

  /** Leftovers keep the order in which they were tried. */
  lemma {:induction false} LeftoversStaySorted(y: Yard, b: Board, pending: seq<WorkOrder>)
    requires StopsKnown(y, b.routes) && OrdersKnown(y, pending) && b.left == [] && SortedBy(DueOrder, pending)
    ensures forall id :: id in Run(y, b, pending).left ==> id in y.orders && y.orders[id] in pending
    ensures SortedBy(DueOrder, Named(y.orders, Run(y, b, pending).left))
  {
    hide Step;
    if pending != [] {
      var front, o := pending[..|pending| - 1], pending[|pending| - 1];
      assert pending == front + [o];
      LeftoversStaySorted(y, b, front);
      var before := Run(y, b, front);
      forall id | id in before.left ensures DueOrder(y.orders[id], o) {
        var k :| 0 <= k < |front| && front[k] == y.orders[id];
        assert DueOrder(pending[k], pending[|pending| - 1]);
      }
      StepLeaves(y, before, o);
      assert o in pending && o.id in y.orders && y.orders[o.id] == o;
      NamedGrows(y.orders, before.left, o);
    }
  }

  lemma NamedGrows(orders: map<Id, WorkOrder>, ids: seq<Id>, o: WorkOrder)
    requires (forall i :: i in ids ==> i in orders) && o.id in orders && orders[o.id] == o
    ensures forall i :: i in ids + [o.id] ==> i in orders
    ensures Named(orders, ids + [o.id]) == Named(orders, ids) + [o]
  {
    forall i | i in ids + [o.id] ensures i in orders {
      assert i in ids || i == o.id;
    }
  }

  /** One step leaves the order behind or leaves nothing more behind. */
  lemma StepLeaves(y: Yard, b: Board, o: WorkOrder)
    requires StopsKnown(y, b.routes) && o.id in y.orders
    ensures Step(y, b, o).left == b.left || Step(y, b, o).left == b.left + [o.id]
  {
  }

  lemma {:induction false} KnownIsNamed(orders: map<Id, WorkOrder>, ids: seq<Id>)
    requires Distinct(ids) && forall i :: i in ids ==> i in orders
    ensures Known(orders, ids) == Named(orders, ids)
  {
    if ids != [] {
      var front, id := ids[..|ids| - 1], ids[|ids| - 1];
      assert ids == front + [id];
      KnownIsNamed(orders, front);
    }
  }

  /** Sorting the roster does not disturb any route of an accepted schedule. */
  lemma RosterSortKeepsRoutes(u: Rules, visits: seq<Assignment>, left: seq<Id>)
    requires RoutesAccepted(u, Schedule(visits, left))
    ensures forall t :: Route(Sort(RosterOrder, visits), t) == Route(visits, t)
  {
    SortContents(RosterOrder, visits);
    forall t ensures Route(Sort(RosterOrder, visits), t) == Route(visits, t) {
      if Route(visits, t) != [] {
        RouteMembers(visits, t, Route(visits, t)[0]);
      }
      RoutePermutation(visits, Sort(RosterOrder, visits), t);
    }
  }

  /** The tail of a route only depends on the route, not on how the dictionary came to be. */
  lemma SameRoutesSameRoom(y: Yard, r: map<Id, seq<Assignment>>, r': map<Id, seq<Assignment>>, o: WorkOrder)
    requires StopsKnown(y, r) && StopsKnown(y, r') && forall t :: RouteIn(r, t) == RouteIn(r', t)
    requires NoRoom(y, r, o)
    ensures NoRoom(y, r', o)
  {
    forall t | t in y.technicians ensures !Available(y, r', t, o) {
      assert RouteIn(r, t.id) == RouteIn(r', t.id);
      assert !Available(y, r, t, o);
    }
  }

  lemma SecondAppendHasNoRoom(y: Yard, u: Rules, base: Schedule)
    requires SameDay(y, u) && KeyedOrders(y.orders) && Accepted(u, base) && EntriesServed(u, base.assignments)
    requires y.locked == map[] && SlackTriangle(y.travel) && forall o :: o in y.orders ==> y.orders[o].duration >= 1
    ensures VisitsKnown(y.orders, base.assignments)
    ensures var once := TailAppended(y, base);
            && VisitsKnown(y.orders, once.assignments)
            && StopsKnown(y, RoutesOf(once.assignments))
            && forall id :: id in once.unassigned ==>
                 id in y.orders && NoRoom(y, RoutesOf(once.assignments), y.orders[id])
  {
    LoopResult(y, u, base);
    AppendedAccepted(y, u, base);
    var b, once := Appended(y, base), TailAppended(y, base);
    AcceptedVisitsKnown(u, once);
    RoutesOfKnown(y, base.assignments);
    RoutesOfKnown(y, once.assignments);
    WaitingKnown(y, base.unassigned);
    RosterSortKeepsRoutes(u, b.visits, b.left + []);
    forall id | id in once.unassigned ensures id in y.orders && NoRoom(y, RoutesOf(once.assignments), y.orders[id]) {
      RunIsMaximal(y, Board(RoutesOf(base.assignments), base.assignments, []), Waiting(y.orders, base.unassigned), id);
      SameRoutesSameRoom(y, b.routes, RoutesOf(once.assignments), y.orders[id]);
    }
  }

  /** On the second call the leftovers are already in due order. */
  lemma LeftoversWaitAgain(y: Yard, u: Rules, base: Schedule)
    requires SameDay(y, u) && KeyedOrders(y.orders) && Accepted(u, base) && EntriesServed(u, base.assignments)
    requires y.locked == map[]
    ensures VisitsKnown(y.orders, base.assignments)
    ensures OrderIds(Waiting(y.orders, TailAppended(y, base).unassigned)) == TailAppended(y, base).unassigned
  {
    hide SameDay, EntriesServed, Run, Sort, Route, RoutesAccepted;
    AppendedAccepted(y, u, base);
    OrdersAreTotal();
    var left := TailAppended(y, base).unassigned;
    WaitingKnown(y, base.unassigned);
    RoutesOfKnown(y, base.assignments);
    SortSorted(DueOrder, Known(y.orders, base.unassigned));
    LeftoversStaySorted(y, Board(RoutesOf(base.assignments), base.assignments, []), Waiting(y.orders, base.unassigned));
    KnownIsNamed(y.orders, left);
    SortIdentity(DueOrder, Named(y.orders, left));
  }

  lemma NothingToAppend(y: Yard, s: Schedule)
    requires KeyedOrders(y.orders) && VisitsKnown(y.orders, s.assignments) && StopsKnown(y, RoutesOf(s.assignments))
    requires forall id :: id in s.unassigned ==> id in y.orders && NoRoom(y, RoutesOf(s.assignments), y.orders[id])
    ensures Appended(y, s)
         == Board(RoutesOf(s.assignments), s.assignments, OrderIds(Waiting(y.orders, s.unassigned)))
  {
    var waiting := Waiting(y.orders, s.unassigned);
    WaitingKnown(y, s.unassigned);
    NoRoomMeansNoChange(y, Board(RoutesOf(s.assignments), s.assignments, []), waiting);
    assert [] + OrderIds(waiting) == OrderIds(waiting);
  }

  /** Appending a second time returns the same schedule, visit for visit and leftover for leftover. */
  lemma AppendTwice(y: Yard, u: Rules, base: Schedule)
    requires SameDay(y, u) && KeyedOrders(y.orders) && Accepted(u, base) && EntriesServed(u, base.assignments)
    requires y.locked == map[] && SlackTriangle(y.travel) && forall o :: o in y.orders ==> y.orders[o].duration >= 1
    ensures VisitsKnown(y.orders, base.assignments) && VisitsKnown(y.orders, TailAppended(y, base).assignments)
    ensures TailAppended(y, TailAppended(y, base)) == TailAppended(y, base)
  {
    SecondAppendHasNoRoom(y, u, base);
    var once := TailAppended(y, base);
    NothingToAppend(y, once);
    LeftoversWaitAgain(y, u, base);
    RosterIsSorted(Appended(y, base).visits);
  }

  lemma RosterIsSorted(visits: seq<Assignment>)
    ensures Sort(RosterOrder, Sort(RosterOrder, visits)) == Sort(RosterOrder, visits)
  {
    OrdersAreTotal();
    SortSorted(RosterOrder, visits);
    SortIdentity(RosterOrder, Sort(RosterOrder, visits));
  }

  /** The same for a capacity option: its result is a fixed point of the append loop. */
  lemma SecondAppendChangesNothing(sc: Scenario, x: Relaxation, travel: Travel, entries: map<Id, RouteEntry>,
                                   frozen: set<Id>, base: Schedule)
    requires CommittedPlan(sc, travel, entries, frozen, base) && Admissible(sc, x) && SlackTriangle(travel)
    ensures KeyedOrders(OrderIndex(sc.orders)) && VisitsKnown(OrderIndex(sc.orders), base.assignments)
    ensures var y := YardOf(Relax(sc, x), travel, entries);
            && VisitsKnown(y.orders, TailAppended(y, base).assignments)
            && TailAppended(y, TailAppended(y, base)) == TailAppended(y, base)
  {
    RelaxRelaxes(sc, x, travel, entries, frozen);
    AcceptedUnderRelaxation(Day(sc, travel, entries, frozen), Day(Relax(sc, x), travel, entries, frozen), base);
    RelaxedIsValid(sc, x);
    SameDayOf(Relax(sc, x), travel, entries, frozen);
    var y := YardOf(Relax(sc, x), travel, entries);
    forall o | o in y.orders ensures y.orders[o].duration >= 1 {
      OrderIndexSound(sc.orders, o);
    }
    AppendTwice(y, Day(Relax(sc, x), travel, entries, frozen), base);
  }
}
