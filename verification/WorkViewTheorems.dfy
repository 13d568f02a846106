/**
  The remaining-work view of an accepted replan is accepted: frozen visits never
  moved the cursor, so dropping and renumbering them changes no judgement.
 */
module WorkViewTheorems {
  import opened Domain
  import opened Sorting
  import opened Routes
  import opened Feasibility
  import opened Capacity
  import opened CapacityTheorems
  import opened WorkView
  import C = CheckerAgreement

  // ----- filtering the scenario -----

  lemma {:induction false} OpenOrdersMembers(orders: seq<WorkOrder>, frozen: set<Id>, o: WorkOrder)
    ensures o in OpenOrders(orders, frozen) <==> o in orders && o.id !in frozen
  {
    if orders != [] {
      assert orders == orders[..|orders| - 1] + [orders[|orders| - 1]];
      OpenOrdersMembers(orders[..|orders| - 1], frozen, o);
    }
  }

  lemma {:induction false} OpenLocksMembers(locks: seq<Lock>, frozen: set<Id>, l: Lock)
    ensures l in OpenLocks(locks, frozen) <==> l in locks && l.orderId !in frozen
  {
    if locks != [] {
      assert locks == locks[..|locks| - 1] + [locks[|locks| - 1]];
      OpenLocksMembers(locks[..|locks| - 1], frozen, l);
    }
  }

  lemma {:induction false} OpenOrdersDistinct(orders: seq<WorkOrder>, frozen: set<Id>)
    requires Distinct(OrderIds(orders))
    ensures Distinct(OrderIds(OpenOrders(orders, frozen)))
  {
    if orders != [] {
      var front, last := orders[..|orders| - 1], orders[|orders| - 1];
      var kept := OpenOrders(front, frozen);
      assert OrderIds(orders) == OrderIds(front) + [last.id];
      DistinctAppend(OrderIds(front), last.id);
      OpenOrdersDistinct(front, frozen);
      forall i | 0 <= i < |kept| ensures OrderIds(kept)[i] != last.id {
        OpenOrdersMembers(front, frozen, kept[i]);
        var j :| 0 <= j < |front| && front[j] == kept[i];
        assert OrderIds(front)[j] != last.id;
      }
      DistinctAppend(OrderIds(kept), last.id);
      assert OrderIds(kept + [last]) == OrderIds(kept) + [last.id] && kept + [] == kept;
    }
  }

  lemma {:induction false} OpenLocksDistinct(locks: seq<Lock>, frozen: set<Id>)
    requires Distinct(LockedIds(locks))
    ensures Distinct(LockedIds(OpenLocks(locks, frozen)))
  {
    if locks != [] {
      var front, last := locks[..|locks| - 1], locks[|locks| - 1];
      var kept := OpenLocks(front, frozen);
      assert LockedIds(locks) == LockedIds(front) + [last.orderId];
      DistinctAppend(LockedIds(front), last.orderId);
      OpenLocksDistinct(front, frozen);
      forall i | 0 <= i < |kept| ensures LockedIds(kept)[i] != last.orderId {
        OpenLocksMembers(front, frozen, kept[i]);
        var j :| 0 <= j < |front| && front[j] == kept[i];
        assert LockedIds(front)[j] != last.orderId;
      }
      DistinctAppend(LockedIds(kept), last.orderId);
      assert LockedIds(kept + [last]) == LockedIds(kept) + [last.orderId] && kept + [] == kept;
    }
  }

  lemma {:induction false} ScopedIndex(entries: map<Id, RouteEntry>, ts: seq<Technician>, id: Id)
    ensures id in TechnicianIndex(ScopeTechnicians(entries, ts)) <==> id in TechnicianIndex(ts)
    ensures id in TechnicianIndex(ts) ==>
      TechnicianIndex(ScopeTechnicians(entries, ts))[id] == ScopeTechnician(entries, TechnicianIndex(ts)[id])
  {
    if ts != [] {
      ScopedIndex(entries, ts[..|ts| - 1], id);
      assert ScopeTechnicians(entries, ts)[..|ts| - 1] == ScopeTechnicians(entries, ts[..|ts| - 1]);
    }
  }

  /** The scoped dictionary of active orders is the old one without the frozen orders. */
  lemma ScopedOrders(sc: Scenario, entries: map<Id, RouteEntry>, frozen: set<Id>, id: Id)
    requires ValidScenario(sc)
    ensures id in ActiveOrders(Scoped(sc, entries, frozen)) <==> id in ActiveOrders(sc) && id !in frozen
    ensures id in ActiveOrders(Scoped(sc, entries, frozen)) ==>
      ActiveOrders(Scoped(sc, entries, frozen))[id] == ActiveOrders(sc)[id]
  {
    var open := OpenOrders(sc.orders, frozen);
    var scoped := Scoped(sc, entries, frozen);
    OrderIndexSound(NotCompleted(open), id);
    ActiveOrderFacts(sc, id);
    if id in ActiveOrders(scoped) {
      var o := ActiveOrders(scoped)[id];
      ActiveOrderFacts(scoped, id);
      OpenOrdersMembers(sc.orders, frozen, o);
      ActiveOrdersComplete(sc, o);
    }
    if id in ActiveOrders(sc) && id !in frozen {
      var o := ActiveOrders(sc)[id];
      OpenOrdersMembers(sc.orders, frozen, o);
      NotCompletedMembers(open, o);
    }
  }

  lemma ScopedLocks(sc: Scenario, frozen: set<Id>, w: Id)
    requires ValidScenario(sc)
    ensures w in LockIndex(OpenLocks(sc.locks, frozen)) <==> w in LockIndex(sc.locks) && w !in frozen
    ensures w in LockIndex(OpenLocks(sc.locks, frozen)) ==>
      LockIndex(OpenLocks(sc.locks, frozen))[w] == LockIndex(sc.locks)[w]
  {
    hide LockIndex, OpenLocks, ValidOrder, ValidTechnician, ValidLock;
    var open := OpenLocks(sc.locks, frozen);
    C.LockIndexSound(sc.locks, w);
    C.LockIndexSound(open, w);
    if w in LockIndex(open) {
      var l := Lock(w, LockIndex(open)[w]);
      OpenLocksMembers(sc.locks, frozen, l);
      var i :| 0 <= i < |sc.locks| && sc.locks[i] == l;
      var j :| 0 <= j < |sc.locks| && sc.locks[j] == Lock(w, LockIndex(sc.locks)[w]);
      assert LockedIds(sc.locks)[i] == LockedIds(sc.locks)[j];
    }
    if w in LockIndex(sc.locks) && w !in frozen {
      OpenLocksMembers(sc.locks, frozen, Lock(w, LockIndex(sc.locks)[w]));
    }
  }

  /** The scoped scenario would pass the aggregate validators. */
  lemma ScopedIsValid(sc: Scenario, entries: map<Id, RouteEntry>, frozen: set<Id>)
    requires ValidScenario(sc)
    ensures ValidScenario(Scoped(sc, entries, frozen))
  {
    var scoped := Scoped(sc, entries, frozen);
    assert TechnicianIds(scoped.technicians) == TechnicianIds(sc.technicians);
    OpenOrdersDistinct(sc.orders, frozen);
    OpenLocksDistinct(sc.locks, frozen);
    forall t | t in scoped.technicians ensures ValidTechnician(t) {
      var i :| 0 <= i < |scoped.technicians| && scoped.technicians[i] == t;
      assert sc.technicians[i] in sc.technicians;
    }
    forall o | o in scoped.orders ensures ValidOrder(o) {
      OpenOrdersMembers(sc.orders, frozen, o);
    }
    forall l | l in scoped.locks ensures ValidLock(scoped, l) {
      OpenLocksMembers(sc.locks, frozen, l);
      ScopedOrders(sc, entries, frozen, l.orderId);
      ScopedIndex(entries, sc.technicians, l.techId);
    }
  }

  // ----- one route -----

  lemma {:induction false} UnfrozenMembers(s: seq<Assignment>, frozen: set<Id>, a: Assignment)
    ensures multiset(Unfrozen(s, frozen))[a] == if a.orderId in frozen then 0 else multiset(s)[a]
    ensures a in Unfrozen(s, frozen) <==> a in s && a.orderId !in frozen
  {
    if s != [] {
      assert s == s[..|s| - 1] + [s[|s| - 1]];
      UnfrozenMembers(s[..|s| - 1], frozen, a);
    }
  }

  lemma {:induction false} UnfrozenSorted(r: seq<Assignment>, frozen: set<Id>)
    requires SortedBy(SequenceOrder, r)
    ensures SortedBy(SequenceOrder, Unfrozen(r, frozen))
  {
    if r != [] {
      var front, last := r[..|r| - 1], r[|r| - 1];
      UnfrozenSorted(front, frozen);
      forall i | 0 <= i < |Unfrozen(front, frozen)| ensures SequenceOrder(Unfrozen(front, frozen)[i], last) {
        UnfrozenMembers(front, frozen, Unfrozen(front, frozen)[i]);
        var j :| 0 <= j < |front| && front[j] == Unfrozen(front, frozen)[i];
        assert SequenceOrder(r[j], r[|r| - 1]);
      }
    }
  }

  lemma UnfrozenContents(s: seq<Assignment>, frozen: set<Id>, t: Id)
    ensures multiset(Unfrozen(Route(s, t), frozen)) == multiset(Mine(Unfrozen(s, frozen), t))
  {
    var kept, mine := Unfrozen(Route(s, t), frozen), Mine(Unfrozen(s, frozen), t);
    SortContents(SequenceOrder, Mine(s, t));
    forall a ensures multiset(kept)[a] == multiset(mine)[a] {
      UnfrozenMembers(s, frozen, a);
      UnfrozenMembers(Route(s, t), frozen, a);
      MineContents(s, t, a);
      MineContents(Unfrozen(s, frozen), t, a);
    }
  }

  lemma UnfrozenHasNoTies(r: seq<Assignment>, frozen: set<Id>)
    requires Contiguous(r)
    ensures NoTies(SequenceOrder, Unfrozen(r, frozen))
  {
    var kept := Unfrozen(r, frozen);
    forall i, j | 0 <= i < |kept| && 0 <= j < |kept| && kept[i].sequence == kept[j].sequence ensures kept[i] == kept[j] {
      UnfrozenMembers(r, frozen, kept[i]);
      UnfrozenMembers(r, frozen, kept[j]);
    }
  }

  /** Filtering before sorting is sorting before filtering. */
  lemma RouteOfUnfrozen(s: seq<Assignment>, frozen: set<Id>, t: Id)
    requires Contiguous(Route(s, t))
    ensures Route(Unfrozen(s, frozen), t) == Unfrozen(Route(s, t), frozen)
  {
    SequenceOrderIsTotal();
    UnfrozenContents(s, frozen, t);
    UnfrozenHasNoTies(Route(s, t), frozen);
    UnfrozenSorted(Route(s, t), frozen);
    SortIdentity(SequenceOrder, Unfrozen(Route(s, t), frozen));
    SortPermutation(SequenceOrder, Unfrozen(Route(s, t), frozen), Mine(Unfrozen(s, frozen), t));
  }

  /** The entry of a technician names nothing, or the first visit that is still open. */
  ghost predicate EntryFits(e: RouteEntry, kept: seq<Assignment>) {
    e.firstFuture.None? || (kept != [] && e.firstFuture == Some(kept[0].orderId))
  }

  /** What publication guarantees: entries point at the first open visit, and frozen visits belong to entered routes. */
  ghost predicate EntriesAgree(s: Schedule, entries: map<Id, RouteEntry>, frozen: set<Id>) {
    && (forall t :: t in entries ==> EntryFits(entries[t], Unfrozen(Route(s.assignments, t), frozen)))
    && (forall a :: a in s.assignments && a.orderId in frozen ==> a.techId in entries)
  }

  /** The rules before and after scoping, seen from one route. */
  ghost predicate SameRules(u: Rules, v: Rules, t: Technician, t': Technician) {
    && v.travel == u.travel && v.entries == u.entries && v.frozen == u.frozen
    && !u.startedFirst && !v.startedFirst
    && (forall o :: o in v.orders <==> o in u.orders && o !in u.frozen)
    && (forall o :: o in v.orders ==> v.orders[o] == u.orders[o])
    && (forall o :: o in v.locked ==> o in u.locked && v.locked[o] == u.locked[o])
    && t' == (if t.id in u.entries then t.(depot := u.entries[t.id].returnTo) else t)
  }

  /** A route as published: distinct known orders, frozen ones only behind an entry. */
  ghost predicate PublishedRoute(u: Rules, t: Technician, r: seq<Assignment>) {
    && (forall i, j :: 0 <= i < j < |r| ==> r[i].orderId != r[j].orderId)
    && (forall i :: 0 <= i < |r| ==> r[i].orderId in u.orders && (r[i].orderId in u.frozen ==> t.id in u.entries))
    && (t.id in u.entries ==> EntryFits(u.entries[t.id], Unfrozen(r, u.frozen)))
  }

  lemma {:induction false} UnfrozenPrefix(r: seq<Assignment>, frozen: set<Id>, k: nat)
    requires k <= |r|
    ensures Unfrozen(r[..k], frozen) <= Unfrozen(r, frozen)
    decreases |r| - k
  {
    if k < |r| {
      assert r[..k + 1][..k] == r[..k];
      UnfrozenPrefix(r, frozen, k + 1);
    } else {
      assert r[..k] == r;
    }
  }

  /** The cursor of the published route: still at the start, or behind the last open visit. */
  ghost predicate CursorBehind(u: Rules, t: Technician, r: seq<Assignment>, k: nat)
    requires k <= |r|
  {
    var kept := Unfrozen(r[..k], u.frozen);
    if kept == [] then
      CursorAt(u, t, r, k) == Cursor(t.shiftStart, t.depot)
      || (t.id in u.entries && CursorAt(u, t, r, k) == Cursor(u.entries[t.id].availableAt, u.entries[t.id].location))
    else
      kept[|kept| - 1].orderId in u.orders
      && CursorAt(u, t, r, k) == Cursor(kept[|kept| - 1].finish, u.orders[kept[|kept| - 1].orderId].location)
  }

  lemma {:induction false} CursorIsBehind(u: Rules, t: Technician, r: seq<Assignment>, k: nat)
    requires !u.startedFirst && PublishedRoute(u, t, r) && k <= |r|
    ensures CursorBehind(u, t, r, k)
    ensures k > 0 && Unfrozen(r[..k], u.frozen) == [] && u.entries[t.id].firstFuture.None? ==>
      CursorAt(u, t, r, k) == Cursor(u.entries[t.id].availableAt, u.entries[t.id].location)
  {
    if k > 0 {
      CursorIsBehind(u, t, r, k - 1);
      assert r[..k][..k - 1] == r[..k - 1];
      UnfrozenPrefix(r, u.frozen, k);
      UnfrozenPrefix(r, u.frozen, k - 1);
      FirstOpen(r, u.frozen);
    }
  }

  lemma FirstOpen(r: seq<Assignment>, frozen: set<Id>)
    ensures Unfrozen(r, frozen) != [] ==> Unfrozen(r, frozen)[0].orderId !in frozen
  {
    if Unfrozen(r, frozen) != [] {
      UnfrozenMembers(r, frozen, Unfrozen(r, frozen)[0]);
    }
  }

  /** Where the j-th open visit stands on the published route. */
  lemma {:induction false} OpenPosition(r: seq<Assignment>, frozen: set<Id>, j: nat) returns (k: nat)
    requires j < |Unfrozen(r, frozen)|
    ensures k < |r| && r[k] == Unfrozen(r, frozen)[j]
    ensures Unfrozen(r[..k], frozen) == Unfrozen(r, frozen)[..j]
  {
    var front := r[..|r| - 1];
    if j < |Unfrozen(front, frozen)| {
      k := OpenPosition(front, frozen, j);
      assert r[..k] == front[..k];
    } else {
      k := |r| - 1;
    }
  }

  lemma KeptIsOpen(r: seq<Assignment>, frozen: set<Id>, j: nat)
    requires j < |Unfrozen(r, frozen)|
    ensures Unfrozen(r, frozen)[j].orderId !in frozen && Unfrozen(r, frozen)[j] in r
  {
    UnfrozenMembers(r, frozen, Unfrozen(r, frozen)[j]);
  }

  /** The cursor of the renumbered route before its j-th visit. */
  lemma ViewCursor(u: Rules, v: Rules, t: Technician, t': Technician, r: seq<Assignment>, j: nat)
    requires SameRules(u, v, t, t') && PublishedRoute(u, t, r) && 0 < j <= |Unfrozen(r, u.frozen)|
    ensures var kept := Unfrozen(r, u.frozen);
            kept[j - 1].orderId in u.orders
            && CursorAt(v, t', Numbered(kept), j) == Cursor(kept[j - 1].finish, u.orders[kept[j - 1].orderId].location)
  {
    KeptIsOpen(r, u.frozen, j - 1);
    var i :| 0 <= i < |r| && r[i] == Unfrozen(r, u.frozen)[j - 1];
  }

  lemma ViewOrigin(u: Rules, v: Rules, t: Technician, t': Technician, r: seq<Assignment>, j: nat, k: nat)
    requires SameRules(u, v, t, t') && PublishedRoute(u, t, r)
    requires j < |Unfrozen(r, u.frozen)| && k < |r| && r[k] == Unfrozen(r, u.frozen)[j]
    requires Unfrozen(r[..k], u.frozen) == Unfrozen(r, u.frozen)[..j]
    ensures Origin(v, t', Numbered(Unfrozen(r, u.frozen)), j) == Origin(u, t, r, k)
  {
    var kept := Unfrozen(r, u.frozen);
    CursorIsBehind(u, t, r, k);
    KeptIsOpen(r, u.frozen, j);
    if j > 0 {
      ViewCursor(u, v, t, t', r, j);
      assert kept[..j][j - 1] == kept[j - 1];
      var i := OpenPosition(r, u.frozen, 0);
      assert kept[0].orderId != r[k].orderId;
    } else if k > 0 {
      assert r[..k][..k - 1] == r[..k - 1];
      assert r[k - 1].orderId in u.frozen by {
        assert Unfrozen(r[..k], u.frozen) == [];
      }
    }
  }

  lemma ViewVisitOk(u: Rules, v: Rules, t: Technician, t': Technician, r: seq<Assignment>, j: nat)
    requires SameRules(u, v, t, t') && PublishedRoute(u, t, r) && RouteAccepted(u, t, r)
    requires forall o :: o in u.orders ==> u.orders[o].id == o
    requires j < |Unfrozen(r, u.frozen)|
    ensures VisitOk(v, t', Numbered(Unfrozen(r, u.frozen)), j)
  {
    var k := OpenPosition(r, u.frozen, j);
    KeptIsOpen(r, u.frozen, j);
    ViewOrigin(u, v, t, t', r, j, k);
    hide CursorAt, Origin, Unfrozen, PublishedRoute;
    assert VisitOk(u, t, r, k);
  }

  /** An accepted published route leaves an accepted open route. */
  lemma ViewRouteAccepted(u: Rules, v: Rules, t: Technician, t': Technician, r: seq<Assignment>)
    requires SameRules(u, v, t, t') && PublishedRoute(u, t, r) && RouteAccepted(u, t, r)
    requires forall o :: o in u.orders ==> u.orders[o].id == o
    ensures RouteAccepted(v, t', Numbered(Unfrozen(r, u.frozen)))
  {
    hide CursorAt, Origin, Unfrozen, PublishedRoute, VisitOk;
    var kept := Unfrozen(r, u.frozen);
    var n := Numbered(kept);
    forall j | 0 <= j < |n| ensures VisitOk(v, t', n, j) {
      ViewVisitOk(u, v, t, t', r, j);
    }
    ViewReturns(u, v, t, t', r);
  }

  lemma ViewReturns(u: Rules, v: Rules, t: Technician, t': Technician, r: seq<Assignment>)
    requires SameRules(u, v, t, t') && PublishedRoute(u, t, r) && ReturnsInTime(u, t, r)
    ensures ReturnsInTime(v, t', Numbered(Unfrozen(r, u.frozen)))
  {
    var kept := Unfrozen(r, u.frozen);
    if kept != [] {
      ViewCursor(u, v, t, t', r, |kept|);
      CursorIsBehind(u, t, r, |r|);
      assert r[..|r|] == r;
    }
  }

  // ----- the whole view -----

  lemma PublishedRoutes(u: Rules, s: Schedule, t: Id)
    requires Accepted(u, s) && WellKeyed(u) && EntriesAgree(s, u.entries, u.frozen)
    requires t in u.technicians && Route(s.assignments, t) != []
    ensures RouteAccepted(u, u.technicians[t], Route(s.assignments, t))
    ensures PublishedRoute(u, u.technicians[t], Route(s.assignments, t))
  {
    var r := Route(s.assignments, t);
    RouteMembers(s.assignments, t, r[0]);
    DistinctIdsMeansVisitedOnce(s.assignments);
    forall i, j | 0 <= i < j < |r| ensures r[i].orderId != r[j].orderId {
      RouteMembers(s.assignments, t, r[i]);
      RouteMembers(s.assignments, t, r[j]);
      assert r[i].sequence != r[j].sequence;
    }
    forall i | 0 <= i < |r| ensures r[i].orderId in u.orders && (r[i].orderId in u.frozen ==> t in u.entries) {
      RouteMembers(s.assignments, t, r[i]);
      assert VisitOk(u, u.technicians[t], r, i);
    }
  }

  /** Every visit of the view is a renumbered open visit of the publication. */
  lemma ViewVisit(scoped: Scenario, frozen: set<Id>, s: Schedule, v: Schedule, a: Assignment) returns (b: Assignment, j: nat)
    requires IsView(scoped, frozen, s, v) && a in v.assignments
    requires Contiguous(Route(s.assignments, a.techId))
    ensures b in s.assignments && b.orderId == a.orderId && b.techId == a.techId && b.orderId !in frozen
    ensures var kept := Unfrozen(Route(s.assignments, a.techId), frozen);
            j < |kept| && kept[j] == b && a == Numbered(kept)[j]
  {
    var t := a.techId;
    RouteOfUnfrozen(s.assignments, frozen, t);
    var kept := Unfrozen(Route(s.assignments, t), frozen);
    RouteMembers(v.assignments, t, a);
    j :| 0 <= j < |kept| && Numbered(kept)[j] == a;
    b := kept[j];
    KeptIsOpen(Route(s.assignments, t), frozen, j);
    RouteMembers(s.assignments, t, b);
  }

  /** And every open visit is in the view. */
  lemma OpenVisitKept(scoped: Scenario, frozen: set<Id>, s: Schedule, v: Schedule, b: Assignment) returns (a: Assignment)
    requires IsView(scoped, frozen, s, v) && b in s.assignments && b.orderId !in frozen
    requires Contiguous(Route(s.assignments, b.techId))
    ensures a in v.assignments && a.orderId == b.orderId && a.techId == b.techId
  {
    hide Unfrozen, Sort, Mine, Scoped;
    var t := b.techId;
    var kept := Unfrozen(Route(s.assignments, t), frozen);
    RouteOfUnfrozen(s.assignments, frozen, t);
    RouteMembers(s.assignments, t, b);
    UnfrozenMembers(Route(s.assignments, t), frozen, b);
    var j :| 0 <= j < |kept| && kept[j] == b;
    a := Numbered(kept)[j];
    RouteMembers(v.assignments, t, a);
  }

  lemma ContiguousOnce(s: seq<Assignment>, a: Assignment)
    requires Contiguous(Route(s, a.techId))
    ensures multiset(s)[a] <= 1
  {
    var r := Route(s, a.techId);
    MineContents(s, a.techId, a);
    SortContents(SequenceOrder, Mine(s, a.techId));
    assert Distinct(r);
    DistinctIsCounted(r);
  }

  /** Order ids of the view: distinct, and the published ids without the frozen ones. */
  lemma ViewIds(scoped: Scenario, frozen: set<Id>, s: Schedule, v: Schedule)
    requires IsView(scoped, frozen, s, v) && Distinct(Ids(s.assignments))
    requires forall a :: a in s.assignments ==> Contiguous(Route(s.assignments, a.techId))
    ensures Distinct(Ids(v.assignments))
    ensures Elements(Ids(v.assignments)) == Elements(Ids(s.assignments)) - frozen
  {
    forall t ensures Contiguous(Route(s.assignments, t)) {
      if Route(s.assignments, t) != [] {
        RouteMembers(s.assignments, t, Route(s.assignments, t)[0]);
      }
    }
    DistinctIdsMeansVisitedOnce(s.assignments);
    DistinctIdsMeansVisitedOnce(v.assignments);
    forall a ensures multiset(v.assignments)[a] <= 1 {
      ContiguousOnce(v.assignments, a);
    }
    forall a, b | a in v.assignments && b in v.assignments && a.orderId == b.orderId ensures a == b {
      var a', i := ViewVisit(scoped, frozen, s, v, a);
      var b', j := ViewVisit(scoped, frozen, s, v, b);
      SamePosition(Route(s.assignments, a.techId), frozen, i, j);
    }
    forall id ensures id in Ids(v.assignments) <==> id in Ids(s.assignments) && id !in frozen {
      IdListed(v.assignments, id);
      IdListed(s.assignments, id);
      if a :| a in v.assignments && a.orderId == id {
        var b, _ := ViewVisit(scoped, frozen, s, v, a);
      }
      if id !in frozen {
        if b :| b in s.assignments && b.orderId == id {
          var a := OpenVisitKept(scoped, frozen, s, v, b);
        }
      }
    }
  }

  lemma SamePosition(r: seq<Assignment>, frozen: set<Id>, i: nat, j: nat)
    requires Contiguous(r) && i < |Unfrozen(r, frozen)| && j < |Unfrozen(r, frozen)|
    requires Unfrozen(r, frozen)[i] == Unfrozen(r, frozen)[j]
    ensures i == j
  {
    var k := OpenPosition(r, frozen, i);
    var l := OpenPosition(r, frozen, j);
    assert r[k].sequence == k + 1 && r[l].sequence == l + 1;
    assert |Unfrozen(r, frozen)[..i]| == i && |Unfrozen(r, frozen)[..j]| == j;
  }

  lemma {:induction false} ActiveOnlyKeeps(ids: seq<Id>, active: set<Id>)
    ensures forall x :: x in ActiveOnly(ids, active) <==> x in ids && x in active
    ensures Distinct(ids) ==> Distinct(ActiveOnly(ids, active))
  {
    if ids != [] {
      var front, last := ids[..|ids| - 1], ids[|ids| - 1];
      assert ids == front + [last];
      ActiveOnlyKeeps(front, active);
      DistinctAppend(front, last);
      DistinctAppend(ActiveOnly(front, active), last);
      assert ActiveOnly(front, active) + [] == ActiveOnly(front, active);
    }
  }

  lemma ViewCovered(sc: Scenario, m: Travel, entries: map<Id, RouteEntry>, frozen: set<Id>, s: Schedule, v: Schedule)
    requires ValidScenario(sc) && Accepted(Day(sc, m, entries, frozen), s)
    requires IsView(Scoped(sc, entries, frozen), frozen, s, v)
    ensures Covered(Day(Scoped(sc, entries, frozen), m, entries, frozen), v)
    ensures LocksPlaced(Day(Scoped(sc, entries, frozen), m, entries, frozen), v)
  {
    var scoped := Scoped(sc, entries, frozen);
    var u, w := Day(sc, m, entries, frozen), Day(scoped, m, entries, frozen);
    forall a | a in s.assignments ensures Contiguous(Route(s.assignments, a.techId)) {
      assert RouteAccepted(u, u.technicians[a.techId], Route(s.assignments, a.techId));
    }
    ViewIds(scoped, frozen, s, v);
    ActiveOnlyKeeps(s.unassigned, ActiveOrders(scoped).Keys);
    hide Scoped, Contiguous, ValidScenario, RoutesAccepted, Route, ActiveOnly, ActiveOrders, LockIndex;
    forall o ensures o in w.orders.Keys <==> o in u.orders.Keys && o !in frozen {
      ScopedOrders(sc, entries, frozen, o);
    }
    ViewLeft(u, w, s, v);
    forall o | o in Elements(v.unassigned) ensures o !in w.locked {
      ScopedLockKeys(sc, m, entries, frozen, o);
      assert o !in (Elements(s.unassigned) + u.external) * u.locked.Keys;
    }
  }

  lemma ScopedLockKeys(sc: Scenario, m: Travel, entries: map<Id, RouteEntry>, frozen: set<Id>, o: Id)
    requires ValidScenario(sc)
    ensures o in Day(Scoped(sc, entries, frozen), m, entries, frozen).locked ==> o in Day(sc, m, entries, frozen).locked
  {
    hide ValidScenario, LockIndex;
    ScopedLocks(sc, frozen, o);
  }

  /** What is left unassigned in the view, and that nothing is covered twice or missed. */
  lemma ViewLeft(u: Rules, w: Rules, s: Schedule, v: Schedule)
    requires Covered(u, s) && u.external == {} && w.external == {}
    requires w.orders.Keys == u.orders.Keys - u.frozen
    requires Distinct(Ids(v.assignments)) && Distinct(v.unassigned)
    requires Elements(Ids(v.assignments)) == Elements(Ids(s.assignments)) - u.frozen
    requires forall o :: o in v.unassigned <==> o in s.unassigned && o in w.orders.Keys
    ensures Covered(w, v) && forall o :: o in v.unassigned ==> o in s.unassigned
  {
    var placed, left := Elements(Ids(s.assignments)), Elements(s.unassigned);
    hide Distinct, Ids;
    forall o ensures o in Elements(v.unassigned) <==> o in left && o !in u.frozen {
      assert o in left ==> o in placed + left + {};
    }
    assert Elements(v.unassigned) == left - u.frozen;
    assert Elements(Ids(v.assignments)) + Elements(v.unassigned) + {} == (placed + left + {}) - u.frozen;
    assert Elements(Ids(v.assignments)) * Elements(v.unassigned) <= placed * left;
    assert (Elements(Ids(v.assignments)) + Elements(v.unassigned)) * {} == {};
  }

  lemma ScopedRules(sc: Scenario, m: Travel, entries: map<Id, RouteEntry>, frozen: set<Id>, t: Id)
    requires ValidScenario(sc) && t in TechnicianIndex(sc.technicians)
    ensures var u, v := Day(sc, m, entries, frozen), Day(Scoped(sc, entries, frozen), m, entries, frozen);
            t in v.technicians && SameRules(u, v, u.technicians[t], v.technicians[t])
  {
    ScopedIndex(entries, sc.technicians, t);
    TechnicianIndexSound(sc.technicians, t);
    forall o ensures o in ActiveOrders(Scoped(sc, entries, frozen)) <==> o in ActiveOrders(sc) && o !in frozen {
      ScopedOrders(sc, entries, frozen, o);
    }
    forall o | o in ActiveOrders(Scoped(sc, entries, frozen))
      ensures ActiveOrders(Scoped(sc, entries, frozen))[o] == ActiveOrders(sc)[o]
    {
      ScopedOrders(sc, entries, frozen, o);
    }
    forall o | o in LockIndex(OpenLocks(sc.locks, frozen))
      ensures o in LockIndex(sc.locks) && LockIndex(OpenLocks(sc.locks, frozen))[o] == LockIndex(sc.locks)[o]
    {
      ScopedLocks(sc, frozen, o);
    }
  }

  lemma ViewRoutes(sc: Scenario, m: Travel, entries: map<Id, RouteEntry>, frozen: set<Id>, s: Schedule, v: Schedule)
    requires ValidScenario(sc) && Accepted(Day(sc, m, entries, frozen), s) && EntriesAgree(s, entries, frozen)
    requires IsView(Scoped(sc, entries, frozen), frozen, s, v)
    ensures RoutesAccepted(Day(Scoped(sc, entries, frozen), m, entries, frozen), v)
  {
    var scoped := Scoped(sc, entries, frozen);
    var u, w := Day(sc, m, entries, frozen), Day(scoped, m, entries, frozen);
    RulesAreWellKeyed(sc, m, entries, frozen, {}, false);
    forall t ensures Contiguous(Route(s.assignments, t)) {
      if Route(s.assignments, t) != [] {
        RouteMembers(s.assignments, t, Route(s.assignments, t)[0]);
      }
    }
    forall a | a in v.assignments
      ensures a.techId in w.technicians && RouteAccepted(w, w.technicians[a.techId], Route(v.assignments, a.techId))
    {
      var t := a.techId;
      var b, _ := ViewVisit(scoped, frozen, s, v, a);
      RouteMembers(s.assignments, t, b);
      ScopedRules(sc, m, entries, frozen, t);
      PublishedRoutes(u, s, t);
      ViewRouteAccepted(u, w, u.technicians[t], w.technicians[t], Route(s.assignments, t));
      RouteOfUnfrozen(s.assignments, frozen, t);
    }
  }

  /**
    The remaining-work view preserves validity: the view of an accepted replan
    is a committed plan of the scoped scenario, ready for cost, capacity and risk.
   */
  lemma ViewIsCommitted(sc: Scenario, m: Travel, entries: map<Id, RouteEntry>, frozen: set<Id>, s: Schedule, v: Schedule)
    requires ValidScenario(sc) && Accepted(Day(sc, m, entries, frozen), s) && EntriesAgree(s, entries, frozen)
    requires IsView(Scoped(sc, entries, frozen), frozen, s, v)
    ensures CommittedPlan(Scoped(sc, entries, frozen), m, entries, frozen, v)
  {
    var scoped := Scoped(sc, entries, frozen);
    var w := Day(scoped, m, entries, frozen);
    ScopedIsValid(sc, entries, frozen);
    ViewCovered(sc, m, entries, frozen, s, v);
    ViewRoutes(sc, m, entries, frozen, s, v);
    if o :| o in w.frozen * w.orders.Keys {
      ScopedOrders(sc, entries, frozen, o);
    }
    forall t | t in entries && entries[t].firstFuture.Some?
      ensures exists a :: a in v.assignments && a.techId == t && a.orderId == entries[t].firstFuture.value
    {
      var kept := Unfrozen(Route(s.assignments, t), frozen);
      KeptIsOpen(Route(s.assignments, t), frozen, 0);
      RouteMembers(s.assignments, t, kept[0]);
      var a := OpenVisitKept(scoped, frozen, s, v, kept[0]);
    }
  }

  /**
    The pipeline of the capacity analysis of a replan: view, relax, append. The
    verification at the end of `capacity_analysis` cannot reject an applicable
    internal option.
   */
  lemma ReplanCapacitySoundness(sc: Scenario, x: Relaxation, m: Travel, entries: map<Id, RouteEntry>, frozen: set<Id>,
                                s: Schedule, v: Schedule)
    requires ValidScenario(sc) && Accepted(Day(sc, m, entries, frozen), s) && EntriesAgree(s, entries, frozen)
    requires IsView(Scoped(sc, entries, frozen), frozen, s, v)
    requires Admissible(Scoped(sc, entries, frozen), x)
    ensures var scoped := Scoped(sc, entries, frozen);
            KeyedOrders(OrderIndex(scoped.orders)) && VisitsKnown(OrderIndex(scoped.orders), v.assignments)
    ensures var scoped := Scoped(sc, entries, frozen);
            var result := TailAppended(YardOf(Relax(scoped, x), m, entries), v);
            Accepted(Day(Relax(scoped, x), m, entries, frozen), result) && FixedKept(result, v)
  {
    ViewIsCommitted(sc, m, entries, frozen, s, v);
    CapacitySoundness(Scoped(sc, entries, frozen), x, m, entries, frozen, v);
  }
}
