/**
  The fold of `verify_counterfactual_schedule` and the adjacency checks of
  `verify_schedule` accept the same full plans, except that the fold also pins
  every arrival to the minute, does not ask for started work, and forgives a
  started first visit its start time.
 */
module CheckerAgreement {
  import opened Domain
  import opened Routes
  import opened Feasibility
  import P = PlanVerifier

  /** A full plan is checked without entries, frozen visits or external coverage. */
  function FullDay(sc: Scenario, m: Travel, exempt: bool): Rules {
    RulesOf(sc, m, map[], {}, {}, exempt)
  }

  function FreshDay(sc: Scenario, m: Travel): Rules {
    FullDay(sc, m, false)
  }

  function StartedIds(sc: Scenario): set<Id> {
    set o | o in sc.orders && o.status.Started? :: o.id
  }

  /** The execution facts both checkers exempt a started first visit by. */
  function Facts(sc: Scenario, exempt: bool): P.Execution {
    P.Execution(if exempt then StartedIds(sc) else {}, map[])
  }

  /** The k-th visit is under way: its first leg is history. */
  predicate UnderWay(sc: Scenario, exempt: bool, r: seq<Assignment>, k: nat)
    requires k < |r|
  {
    exempt && k == 0 && r[k].orderId in StartedIds(sc)
  }

  ghost predicate NothingStarted(sc: Scenario) {
    forall o :: o in sc.orders ==> !o.status.Started?
  }

  /** Where the technician comes from before the k-th visit, read off its neighbour. */
  function Predecessor(sc: Scenario, t: Technician, r: seq<Assignment>, k: nat): Cursor
    requires k < |r| && P.AllKnown(sc, r)
  {
    if k == 0 then Cursor(t.shiftStart, t.depot) else Cursor(r[k - 1].finish, P.PlaceOf(sc, r[k - 1]))
  }

  predicate ArrivesExactly(sc: Scenario, m: Travel, t: Technician, r: seq<Assignment>, k: nat)
    requires k < |r| && P.AllKnown(sc, r)
  {
    var c := Predecessor(sc, t, r, k);
    r[k].arrival == c.at + m(c.place, P.PlaceOf(sc, r[k]))
  }

  /** Every arrival that is not history equals the predecessor's finish (or the shift start) plus travel. */
  ghost predicate RouteExact(sc: Scenario, m: Travel, exempt: bool, t: Technician, r: seq<Assignment>)
    requires P.AllKnown(sc, r)
  {
    forall k :: 0 <= k < |r| ==> UnderWay(sc, exempt, r, k) || ArrivesExactly(sc, m, t, r, k)
  }

  ghost predicate ArrivalsExact(sc: Scenario, m: Travel, exempt: bool, s: Schedule) {
    forall a :: a in s.assignments && a.techId in TechnicianIndex(sc.technicians)
                && P.RoutesKnown(sc, s.assignments, a.techId) ==>
      RouteExact(sc, m, exempt, TechnicianIndex(sc.technicians)[a.techId], Route(s.assignments, a.techId))
  }

  /** What the fold does not ask of a visit that is under way. */
  predicate TimelyStart(sc: Scenario, t: Technician, a: Assignment)
    requires a.orderId in OrderIndex(sc.orders)
  {
    var o := OrderIndex(sc.orders)[a.orderId];
    ReadyAt(o) <= a.start <= o.windowEnd && a.arrival <= a.start && t.shiftStart <= a.start
  }

  ghost predicate RouteTimely(sc: Scenario, exempt: bool, t: Technician, r: seq<Assignment>)
    requires P.AllKnown(sc, r)
  {
    r != [] && UnderWay(sc, exempt, r, 0) ==> TimelyStart(sc, t, r[0])
  }

  ghost predicate StartsTimely(sc: Scenario, exempt: bool, s: Schedule) {
    forall a :: a in s.assignments && a.techId in TechnicianIndex(sc.technicians)
                && P.RoutesKnown(sc, s.assignments, a.techId) ==>
      RouteTimely(sc, exempt, TechnicianIndex(sc.technicians)[a.techId], Route(s.assignments, a.techId))
  }

  /** Started work stays on somebody's route. */
  ghost predicate StartedKept(sc: Scenario, s: Schedule) {
    forall o :: o in sc.orders && o.status.Started? ==> o.id in Ids(s.assignments)
  }

  /** All visits of a route are active orders. */
  ghost predicate AllActive(sc: Scenario, r: seq<Assignment>) {
    forall a :: a in r ==> a.orderId in ActiveOrders(sc)
  }

  lemma ActiveIsKnown(sc: Scenario, r: seq<Assignment>)
    requires ValidScenario(sc) && AllActive(sc, r)
    ensures P.AllKnown(sc, r)
    ensures forall a :: a in r ==> ActiveOrders(sc)[a.orderId] == OrderIndex(sc.orders)[a.orderId]
  {
    forall a | a in r
      ensures a.orderId in OrderIndex(sc.orders) && ActiveOrders(sc)[a.orderId] == OrderIndex(sc.orders)[a.orderId]
    {
      P.ActiveStatus(sc, a.orderId);
    }
  }

  /** Without entries and frozen visits the fold's cursor is the neighbour. */
  lemma CursorIsPredecessor(sc: Scenario, m: Travel, exempt: bool, t: Technician, r: seq<Assignment>, k: nat)
    requires ValidScenario(sc) && AllActive(sc, r) && P.AllKnown(sc, r) && k < |r|
    ensures Origin(FullDay(sc, m, exempt), t, r, k) == Predecessor(sc, t, r, k)
    ensures CursorAt(FullDay(sc, m, exempt), t, r, k + 1) == Cursor(r[k].finish, P.PlaceOf(sc, r[k]))
  {
    ActiveIsKnown(sc, r);
    if k > 0 {
      assert r[k - 1] in r;
    }
    assert r[k] in r;
  }

  lemma StartedStatus(sc: Scenario, id: Id)
    requires ValidScenario(sc) && id in ActiveOrders(sc)
    ensures ActiveOrders(sc)[id].status.Started? <==> id in StartedIds(sc)
  {
    ActiveOrderFacts(sc, id);
    if o :| o in sc.orders && o.status.Started? && o.id == id {
      ActiveOrdersComplete(sc, o);
    }
  }

  /** Only a visit that is under way is exempt from the travel and window checks. */
  lemma OpenVisit(sc: Scenario, m: Travel, exempt: bool, t: Technician, r: seq<Assignment>, k: nat)
    requires ValidScenario(sc) && AllActive(sc, r) && k < |r|
    ensures r[k].orderId in FullDay(sc, m, exempt).orders
    ensures Contextual(FullDay(sc, m, exempt), t, r[k], k) <==> UnderWay(sc, exempt, r, k)
  {
    assert r[k] in r;
    StartedStatus(sc, r[k].orderId);
  }

  /** A visit of an accepted route starts no earlier than the shift and than any visit before it. */
  lemma {:induction false} StartsAscend(sc: Scenario, m: Travel, exempt: bool, t: Technician, r: seq<Assignment>, k: nat)
    requires ValidScenario(sc) && AllActive(sc, r) && P.AllKnown(sc, r) && k < |r|
    requires forall j :: 0 <= j < |r| ==> VisitOk(FullDay(sc, m, exempt), t, r, j)
    requires RouteTimely(sc, exempt, t, r)
    ensures t.shiftStart <= r[k].start <= r[k].finish
    ensures k + 1 < |r| ==> r[k].finish <= r[k + 1].finish
  {
    if k > 0 {
      StartsAscend(sc, m, exempt, t, r, k - 1);
    }
    ClosedVisit(sc, m, exempt, t, r, k);
    if k + 1 < |r| {
      ClosedVisit(sc, m, exempt, t, r, k + 1);
    }
  }

  /** A visit under way started in time; any other starts after its predecessor's finish and the travel. */
  lemma ClosedVisit(sc: Scenario, m: Travel, exempt: bool, t: Technician, r: seq<Assignment>, k: nat)
    requires ValidScenario(sc) && AllActive(sc, r) && P.AllKnown(sc, r) && k < |r|
    requires VisitOk(FullDay(sc, m, exempt), t, r, k) && RouteTimely(sc, exempt, t, r)
    ensures r[k].start <= r[k].finish
    ensures if UnderWay(sc, exempt, r, k) then k == 0 && t.shiftStart <= r[k].start
            else Predecessor(sc, t, r, k).at <= r[k].start
  {
    CursorIsPredecessor(sc, m, exempt, t, r, k);
    OpenVisit(sc, m, exempt, t, r, k);
    hide CursorAt, Origin, Contextual;
  }

  lemma {:induction false} FinishesBefore(sc: Scenario, m: Travel, exempt: bool, t: Technician, r: seq<Assignment>, k: nat)
    requires ValidScenario(sc) && AllActive(sc, r) && P.AllKnown(sc, r) && k < |r|
    requires forall j :: 0 <= j < |r| ==> VisitOk(FullDay(sc, m, exempt), t, r, j)
    requires RouteTimely(sc, exempt, t, r)
    ensures r[k].finish <= r[|r| - 1].finish
    decreases |r| - k
  {
    if k + 1 < |r| {
      StartsAscend(sc, m, exempt, t, r, k);
      FinishesBefore(sc, m, exempt, t, r, k + 1);
    }
  }

  /** Fold to neighbours: an accepted route is sound and exact. */
  lemma AcceptedRouteIsSound(sc: Scenario, m: Travel, exempt: bool, t: Technician, r: seq<Assignment>)
    requires ValidScenario(sc) && AllActive(sc, r) && P.AllKnown(sc, r)
    requires RouteAccepted(FullDay(sc, m, exempt), t, r)
    ensures P.RouteSound(sc, m, Facts(sc, exempt), t, r) && RouteExact(sc, m, exempt, t, r)
  {
    ActiveIsKnown(sc, r);
    forall k | 0 <= k < |r|
      ensures UnderWay(sc, exempt, r, k) || ArrivesExactly(sc, m, t, r, k)
      ensures k > 0 ==> P.PairSound(sc, m, r[k - 1], r[k])
    {
      CursorIsPredecessor(sc, m, exempt, t, r, k);
      OpenVisit(sc, m, exempt, t, r, k);
      assert VisitOk(FullDay(sc, m, exempt), t, r, k);
    }
    if r != [] {
      CursorIsPredecessor(sc, m, exempt, t, r, |r| - 1);
      CursorIsPredecessor(sc, m, exempt, t, r, 0);
      OpenVisit(sc, m, exempt, t, r, 0);
      assert VisitOk(FullDay(sc, m, exempt), t, r, 0);
    }
  }

  /** Each visit of an accepted route also passes the per-visit checks. */
  lemma AcceptedVisitIsSound(sc: Scenario, m: Travel, exempt: bool, t: Technician, r: seq<Assignment>, k: nat)
    requires ValidScenario(sc) && AllActive(sc, r) && P.AllKnown(sc, r) && k < |r|
    requires RouteAccepted(FullDay(sc, m, exempt), t, r) && RouteTimely(sc, exempt, t, r)
    requires r[k].techId == t.id && t.id in TechnicianIndex(sc.technicians) && TechnicianIndex(sc.technicians)[t.id] == t
    ensures P.VisitSound(sc, r[k])
  {
    ActiveIsKnown(sc, r);
    CursorIsPredecessor(sc, m, exempt, t, r, k);
    OpenVisit(sc, m, exempt, t, r, k);
    StartsAscend(sc, m, exempt, t, r, k);
    FinishesBefore(sc, m, exempt, t, r, k);
    CursorIsPredecessor(sc, m, exempt, t, r, |r| - 1);
    OrderIndexSound(sc.orders, r[k].orderId);
    assert VisitOk(FullDay(sc, m, exempt), t, r, k);
  }

  lemma SoundVisitIsOk(sc: Scenario, m: Travel, exempt: bool, t: Technician, r: seq<Assignment>, k: nat)
    requires ValidScenario(sc) && AllActive(sc, r) && P.AllKnown(sc, r) && k < |r|
    requires k == 0 ==> P.FirstSound(sc, m, Facts(sc, exempt), t, r[0])
    requires k > 0 ==> P.PairSound(sc, m, r[k - 1], r[k])
    requires UnderWay(sc, exempt, r, k) || ArrivesExactly(sc, m, t, r, k)
    requires t.id in TechnicianIndex(sc.technicians) && TechnicianIndex(sc.technicians)[t.id] == t
    requires r[k].techId == t.id && P.VisitSound(sc, r[k])
    ensures VisitOk(FullDay(sc, m, exempt), t, r, k)
  {
    ActiveIsKnown(sc, r);
    assert r[k] in r;
    OpenVisit(sc, m, exempt, t, r, k);
    CursorIsPredecessor(sc, m, exempt, t, r, k);
    OrderIndexSound(sc.orders, r[k].orderId);
    hide CursorAt, Origin, Contextual, ValidScenario, TechnicianIndex, OrderIndex, ActiveOrders, AllActive, LockIndex;
  }

  /** Neighbours to fold: a sound and exact route of sound visits is accepted. */
  lemma SoundRouteIsAccepted(sc: Scenario, m: Travel, exempt: bool, t: Technician, r: seq<Assignment>)
    requires ValidScenario(sc) && AllActive(sc, r) && P.AllKnown(sc, r)
    requires P.RouteSound(sc, m, Facts(sc, exempt), t, r) && RouteExact(sc, m, exempt, t, r)
    requires t.id in TechnicianIndex(sc.technicians) && TechnicianIndex(sc.technicians)[t.id] == t
    requires forall a :: a in r ==> a.techId == t.id && P.VisitSound(sc, a)
    ensures RouteAccepted(FullDay(sc, m, exempt), t, r)
  {
    var u := FullDay(sc, m, exempt);
    hide CursorAt, Origin, VisitOk, ValidScenario, TechnicianIndex, UnderWay, P.VisitSound, P.FirstSound, ArrivesExactly;
    forall k | 0 <= k < |r| ensures VisitOk(u, t, r, k) {
      assert r[k] in r;
      assert UnderWay(sc, exempt, r, k) || ArrivesExactly(sc, m, t, r, k);
      assert k > 0 ==> P.PairSound(sc, m, r[k - 1], r[k]);
      SoundVisitIsOk(sc, m, exempt, t, r, k);
    }
    if r != [] {
      CursorIsPredecessor(sc, m, exempt, t, r, |r| - 1);
    }
  }

  lemma SoundRouteIsTimely(sc: Scenario, exempt: bool, t: Technician, r: seq<Assignment>)
    requires P.AllKnown(sc, r) && t.id in TechnicianIndex(sc.technicians) && TechnicianIndex(sc.technicians)[t.id] == t
    requires forall a :: a in r ==> a.techId == t.id && P.VisitSound(sc, a)
    ensures RouteTimely(sc, exempt, t, r)
  {
    if r != [] {
      assert P.VisitSound(sc, r[0]);
    }
  }

  // ----- coverage -----

  lemma LocksAreActive(sc: Scenario, w: Id)
    requires ValidScenario(sc) && w in LockIndex(sc.locks)
    ensures w in ActiveOrders(sc) && w in OrderIndex(sc.orders)
  {
    LockIndexSound(sc.locks, w);
    P.ActiveStatus(sc, w);
  }

  lemma {:induction false} LockIndexSound(locks: seq<Lock>, w: Id)
    ensures w in LockIndex(locks) <==> exists l :: l in locks && l.orderId == w
    ensures w in LockIndex(locks) ==> Lock(w, LockIndex(locks)[w]) in locks
  {
    if locks != [] {
      assert locks == locks[..|locks| - 1] + [locks[|locks| - 1]];
      LockIndexSound(locks[..|locks| - 1], w);
    }
  }

  lemma CoverageAgrees(sc: Scenario, m: Travel, exempt: bool, s: Schedule)
    requires ValidScenario(sc)
    ensures Covered(FullDay(sc, m, exempt), s) <==> P.CoverageSound(sc, s)
  {
    var orders, active := OrderIndex(sc.orders), ActiveOrders(sc);
    var placed, left := Elements(Ids(s.assignments)), Elements(s.unassigned);
    forall o | o in active ensures o in orders {
      P.ActiveStatus(sc, o);
    }
    assert placed + left + {} == placed + left;
    if P.CoverageSound(sc, s) {
      forall o ensures o in placed + left <==> o in active.Keys {
        assert o !in active.Keys - (placed + left) && o !in placed + left - orders.Keys;
        assert o !in (left - active.Keys) * orders.Keys && o !in (placed - active.Keys) * orders.Keys;
      }
      assert placed + left == active.Keys;
    }
  }

  lemma PlacementAgrees(sc: Scenario, m: Travel, exempt: bool, s: Schedule)
    requires ValidScenario(sc) && Covered(FullDay(sc, m, exempt), s)
    ensures LocksPlaced(FullDay(sc, m, exempt), s) && StartedKept(sc, s) <==> P.PlacementSound(sc, s)
  {
    var left, locked := Elements(s.unassigned), LockIndex(sc.locks);
    forall w | w in locked ensures w in ActiveOrders(sc) && w in OrderIndex(sc.orders) {
      LocksAreActive(sc, w);
    }
    if LocksPlaced(FullDay(sc, m, exempt), s) {
      forall w | w in locked ensures w !in left && w in Elements(Ids(s.assignments)) {
        assert w !in (left + {}) * locked.Keys;
        assert w in Elements(Ids(s.assignments)) + left + {};
      }
    } else {
      var w :| w in (left + {}) * locked.Keys;
    }
  }

  lemma CoveredIsActive(sc: Scenario, m: Travel, exempt: bool, s: Schedule)
    requires Covered(FullDay(sc, m, exempt), s)
    ensures AllActive(sc, s.assignments)
    ensures forall t :: AllActive(sc, Route(s.assignments, t))
  {
    forall a | a in s.assignments ensures a.orderId in ActiveOrders(sc) {
      IdListed(s.assignments, a.orderId);
      assert a.orderId in Elements(Ids(s.assignments));
    }
    forall t, a | a in Route(s.assignments, t) ensures a.orderId in ActiveOrders(sc) {
      RouteMembers(s.assignments, t, a);
    }
  }

  lemma AcceptedIsSound(sc: Scenario, m: Travel, exempt: bool, s: Schedule)
    requires ValidScenario(sc) && Accepted(FullDay(sc, m, exempt), s) && StartedKept(sc, s) && StartsTimely(sc, exempt, s)
    ensures P.Sound(sc, m, Facts(sc, exempt), s) && ArrivalsExact(sc, m, exempt, s)
  {
    hide UnderWay, RouteTimely;
    CoverageAgrees(sc, m, exempt, s);
    PlacementAgrees(sc, m, exempt, s);
    CoveredIsActive(sc, m, exempt, s);
    forall a | a in s.assignments && a.techId in TechnicianIndex(sc.technicians)
      ensures P.RoutesKnown(sc, s.assignments, a.techId)
      ensures var t, r := TechnicianIndex(sc.technicians)[a.techId], Route(s.assignments, a.techId);
              P.RouteSound(sc, m, Facts(sc, exempt), t, r) && RouteExact(sc, m, exempt, t, r)
    {
      ActiveIsKnown(sc, Route(s.assignments, a.techId));
      AcceptedRouteIsSound(sc, m, exempt, TechnicianIndex(sc.technicians)[a.techId], Route(s.assignments, a.techId));
    }
    forall a | a in s.assignments && a.orderId in OrderIndex(sc.orders) ensures P.VisitSound(sc, a) {
      var k := RoutePosition(s.assignments, a);
      TechnicianIndexSound(sc.technicians, a.techId);
      ActiveIsKnown(sc, Route(s.assignments, a.techId));
      AcceptedVisitIsSound(sc, m, exempt, TechnicianIndex(sc.technicians)[a.techId], Route(s.assignments, a.techId), k);
    }
  }

  lemma SoundIsAccepted(sc: Scenario, m: Travel, exempt: bool, s: Schedule)
    requires ValidScenario(sc) && P.Sound(sc, m, Facts(sc, exempt), s) && ArrivalsExact(sc, m, exempt, s)
    ensures Accepted(FullDay(sc, m, exempt), s) && StartedKept(sc, s) && StartsTimely(sc, exempt, s)
  {
    hide UnderWay, RouteTimely;
    CoverageAgrees(sc, m, exempt, s);
    PlacementAgrees(sc, m, exempt, s);
    CoveredIsActive(sc, m, exempt, s);
    ActiveIsKnown(sc, s.assignments);
    forall a | a in s.assignments
      ensures a.techId in TechnicianIndex(sc.technicians) && P.RoutesKnown(sc, s.assignments, a.techId)
      ensures var t, r := TechnicianIndex(sc.technicians)[a.techId], Route(s.assignments, a.techId);
              RouteAccepted(FullDay(sc, m, exempt), t, r) && RouteTimely(sc, exempt, t, r)
    {
      assert P.VisitSound(sc, a);
      TechnicianIndexSound(sc.technicians, a.techId);
      var t, r := TechnicianIndex(sc.technicians)[a.techId], Route(s.assignments, a.techId);
      forall b | b in r ensures b.techId == t.id && P.AllKnown(sc, r) && P.VisitSound(sc, b) {
        RouteMembers(s.assignments, a.techId, b);
      }
      SoundRouteIsAccepted(sc, m, exempt, t, r);
      SoundRouteIsTimely(sc, exempt, t, r);
    }
  }

  /**
    The two checkers on a full plan, with or without the exemption of a started
    first visit: the structural checks pass and all arrivals are exact if and
    only if the fold accepts, started work is kept, and what is under way
    started in time.
   */
  lemma CheckersAgree(sc: Scenario, m: Travel, exempt: bool, s: Schedule)
    requires ValidScenario(sc)
    ensures Accepted(FullDay(sc, m, exempt), s) && StartedKept(sc, s) && StartsTimely(sc, exempt, s)
       <==> P.Sound(sc, m, Facts(sc, exempt), s) && ArrivalsExact(sc, m, exempt, s)
  {
    hide Accepted, P.Sound, ArrivalsExact, StartsTimely;
    if Accepted(FullDay(sc, m, exempt), s) && StartedKept(sc, s) && StartsTimely(sc, exempt, s) {
      AcceptedIsSound(sc, m, exempt, s);
    }
    if P.Sound(sc, m, Facts(sc, exempt), s) && ArrivalsExact(sc, m, exempt, s) {
      SoundIsAccepted(sc, m, exempt, s);
    }
  }

  /** Without started work the fold accepts exactly the structurally sound plans with exact arrivals. */
  lemma PendingCheckersAgree(sc: Scenario, m: Travel, s: Schedule)
    requires ValidScenario(sc) && NothingStarted(sc)
    ensures Accepted(FreshDay(sc, m), s) <==> P.Sound(sc, m, P.NOTHING_KNOWN, s) && ArrivalsExact(sc, m, false, s)
  {
    hide Accepted, P.Sound, ArrivalsExact;
    CheckersAgree(sc, m, false, s);
  }
}
