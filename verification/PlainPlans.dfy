/**
  Committed plans as the simulator and the cost analysis meet them: routes that
  open at their entry, and trials that simulate exactly such a plan.
 */
module PlainPlans {
  import opened Domain
  import opened Sorting
  import opened Routes
  import F = Feasibility
  import G = Greedy
  import opened Kpi
  import opened Risk
  import opened Trial
  import opened TrialBooks
  import opened TrialPairs
  import opened CapacityTheorems

  /** A route entry names nothing, or the first visit of its route. */
  ghost predicate EntriesOpen(s: Schedule, entries: map<Id, RouteEntry>) {
    forall t :: t in entries && Route(s.assignments, t) != [] ==>
      entries[t].firstFuture.None? || entries[t].firstFuture == Some(Route(s.assignments, t)[0].orderId)
  }

  /** Entered routes end where the technician's figures say they do, as in a full plan and in a work view. */
  ghost predicate EndsAtDepots(u: F.Rules) {
    forall t :: t in u.technicians ==> F.Terminal(u, u.technicians[t]) == u.technicians[t].depot
  }

  /** Every route of a committed plan is plain. */
  lemma CommittedRoute(sc: Scenario, m: Travel, entries: map<Id, RouteEntry>, frozen: set<Id>, s: Schedule, t: Technician)
    requires CommittedPlan(sc, m, entries, frozen, s) && EntriesOpen(s, entries) && t in sc.technicians
    ensures var u := Day(sc, m, entries, frozen);
            && t.id in u.technicians && u.technicians[t.id] == t && ValidTechnician(t)
            && PlainRoute(u, t, Route(s.assignments, t.id))
  {
    var u, r := Day(sc, m, entries, frozen), Route(s.assignments, t.id);
    TechnicianIndexComplete(sc.technicians, t);
    if r == [] {
      G.EmptyRoute(u, t);
    } else {
      RouteMembers(s.assignments, t.id, r[0]);
      assert F.RouteAccepted(u, u.technicians[r[0].techId], Route(s.assignments, r[0].techId));
    }
    RouteIdsDistinct(s.assignments, t.id);
    hide Route, F.RouteAccepted;
    forall i, j | 0 <= i < j < |r| ensures r[i].orderId != r[j].orderId {
      assert Ids(r)[i] != Ids(r)[j];
    }
  }

  lemma CommittedVisits(sc: Scenario, m: Travel, entries: map<Id, RouteEntry>, frozen: set<Id>, s: Schedule)
    requires CommittedPlan(sc, m, entries, frozen, s)
    ensures forall a :: a in s.assignments ==> a.orderId in ActiveOrders(sc) && a.techId in TechnicianIndex(sc.technicians)
    ensures forall t :: AllKnown(ActiveOrders(sc), Route(s.assignments, t))
    ensures VisitsKnown(OrderIndex(sc.orders), s.assignments)
    ensures forall a :: a in s.assignments ==> Counts(OrderIndex(sc.orders), a)
    ensures forall o :: o in ActiveOrders(sc) ==> o in OrderIndex(sc.orders) && OrderIndex(sc.orders)[o] == ActiveOrders(sc)[o]
  {
    AcceptedVisitsKnown(Day(sc, m, entries, frozen), s);
    forall o | o in ActiveOrders(sc)
      ensures o in OrderIndex(sc.orders) && OrderIndex(sc.orders)[o] == ActiveOrders(sc)[o]
              && !OrderIndex(sc.orders)[o].status.Completed?
    {
      ActiveAreListed(sc, o);
      ActiveOrderFacts(sc, o);
    }
    forall t, a | a in Route(s.assignments, t) ensures a.orderId in ActiveOrders(sc) {
      RouteMembers(s.assignments, t, a);
    }
  }

  // ----- trials of a plan -----

  /** The trial draws its technicians, orders, entries, routes and leftovers from the plan. */
  ghost predicate Simulates(p: Plan, u: F.Rules, s: Schedule) {
    && ValidPlan(p) && p.unassigned == s.unassigned
    && p.world.technicians == u.technicians && p.world.travel == u.travel && p.world.entries == u.entries
    && (forall o :: o in u.orders ==> o in p.world.orders && p.world.orders[o] == u.orders[o])
    && (forall t :: t in u.technicians ==> RouteFor(p.world, t) == Route(s.assignments, t))
  }

  /** The world simulates the plan the rules describe. */
  ghost predicate SimulatesRules(w: World, u: F.Rules) {
    && WellFormed(w) && F.WellKeyed(u) && w.technicians == u.technicians && w.travel == u.travel && w.entries == u.entries
    && (forall o :: o in u.orders ==> o in w.orders && w.orders[o] == u.orders[o])
    && (forall o :: o in u.orders ==> u.orders[o].duration >= 1)
  }

  lemma SimulatedRules(p: Plan, sc: Scenario, m: Travel, entries: map<Id, RouteEntry>, frozen: set<Id>, s: Schedule)
    requires CommittedPlan(sc, m, entries, frozen, s) && Simulates(p, Day(sc, m, entries, frozen), s)
    ensures SimulatesRules(p.world, Day(sc, m, entries, frozen))
  {
    F.RulesAreWellKeyed(sc, m, entries, frozen, {}, false);
    forall o | o in ActiveOrders(sc) ensures ActiveOrders(sc)[o].duration >= 1 {
      ActiveOrderFacts(sc, o);
    }
  }

  /** The roster of a trial lists the technicians in the order of their ids. */
  lemma RosterById(p: Plan, sc: Scenario)
    requires ValidPlan(p) && ValidScenario(sc) && p.world.technicians == TechnicianIndex(sc.technicians)
    ensures p.roster == Sort(RankOrder, TechnicianIds(sc.technicians))
  {
    var ids := TechnicianIds(sc.technicians);
    forall t ensures t in p.roster <==> t in ids {
      TechnicianIndexSound(sc.technicians, t);
      if t in ids {
        var i :| 0 <= i < |ids| && ids[i] == t;
        TechnicianIndexComplete(sc.technicians, sc.technicians[i]);
      }
      if t in p.roster {
        var i :| 0 <= i < |sc.technicians| && sc.technicians[i].id == t;
        assert ids[i] == t;
      }
    }
    forall i, j | 0 <= i < j < |p.roster| ensures p.roster[i] != p.roster[j] {
      assert p.roster[i].rank < p.roster[j].rank;
    }
    SameMembersSameCounts(p.roster, ids);
    SortIdentity(RankOrder, p.roster);
    SortPermutation(RankOrder, p.roster, ids);
  }

  // ----- the orders of a simulated plan -----

  /** Where a visit of the trial stands in the plan. */
  lemma VisitOfPlan(s: seq<Assignment>, t: Id, id: Id)
    ensures id in VisitIds(Route(s, t)) <==> exists a :: a in s && a.techId == t && a.orderId == id
  {
    hide Route;
    if id in VisitIds(Route(s, t)) {
      var a :| a in Route(s, t) && a.orderId == id;
      RouteMembers(s, t, a);
    }
    if a :| a in s && a.techId == t && a.orderId == id {
      RouteMembers(s, t, a);
    }
  }

  /** A covered list visits every order at most once, on one route, and never one it leaves unassigned. */
  lemma CoveredVisits(u: F.Rules, s: Schedule, t: Id, other: Id, id: Id)
    requires F.Covered(u, s) && id in VisitIds(Route(s.assignments, t))
    ensures id in F.Elements(Ids(s.assignments)) && id !in s.unassigned
    ensures id in VisitIds(Route(s.assignments, other)) ==> other == t
  {
    VisitOfPlan(s.assignments, t, id);
    VisitOfPlan(s.assignments, other, id);
    IdListed(s.assignments, id);
    DistinctIdsMeansVisitedOnce(s.assignments);
    hide Route;
    assert id in F.Elements(Ids(s.assignments));
    assert id !in F.Elements(Ids(s.assignments)) * F.Elements(s.unassigned);
    assert id !in F.Elements(s.unassigned);
  }

  lemma CommittedIsPlannedOnce(p: Plan, sc: Scenario, m: Travel, entries: map<Id, RouteEntry>, frozen: set<Id>, s: Schedule)
    requires CommittedPlan(sc, m, entries, frozen, s) && Simulates(p, Day(sc, m, entries, frozen), s)
    ensures PlannedOnce(p)
  {
    var u := Day(sc, m, entries, frozen);
    hide Route, F.RouteAccepted;
    forall t | t in p.world.technicians
      ensures OnceEach(RouteFor(p.world, t)) && VisitIds(RouteFor(p.world, t)) * IdSet(p.unassigned) == {}
    {
      RouteIdsDistinct(s.assignments, t);
      forall i, j | 0 <= i < j < |Route(s.assignments, t)|
        ensures Route(s.assignments, t)[i].orderId != Route(s.assignments, t)[j].orderId
      {
        assert Ids(Route(s.assignments, t))[i] != Ids(Route(s.assignments, t))[j];
      }
      forall id | id in VisitIds(RouteFor(p.world, t)) ensures id !in p.unassigned {
        CoveredVisits(u, s, t, t, id);
      }
    }
    forall t, t' | t in p.world.technicians && t' in p.world.technicians && t != t'
      ensures VisitIds(RouteFor(p.world, t)) * VisitIds(RouteFor(p.world, t')) == {}
    {
      forall id | id in VisitIds(RouteFor(p.world, t)) ensures id !in VisitIds(RouteFor(p.world, t')) {
        CoveredVisits(u, s, t, t', id);
      }
    }
  }

  /** A visit of the plan is on the route of a technician of the roster, and the other way round. */
  lemma RouteOrdersArePlaced(p: Plan, u: F.Rules, s: Schedule, id: Id)
    requires F.Covered(u, s) && F.RoutesAccepted(u, s) && Simulates(p, u, s)
    ensures id in RouteOrders(p, {}, false, |p.roster|) <==> id in F.Elements(Ids(s.assignments))
  {
    hide Route, F.RouteAccepted, VisitIds, RouteOrders, F.Covered, WellFormed;
    RouteOrdersFrom(p, {}, false, |p.roster|, id);
    if id in RouteOrders(p, {}, false, |p.roster|) {
      var i :| 0 <= i < |p.roster| && id in VisitIds(RouteFor(p.world, p.roster[i]));
      RosterMember(p, i);
      CoveredVisits(u, s, p.roster[i], p.roster[i], id);
    }
    if id in F.Elements(Ids(s.assignments)) {
      IdListed(s.assignments, id);
      var a :| a in s.assignments && a.orderId == id;
      VisitOfPlan(s.assignments, a.techId, id);
      assert a.techId in p.roster;
      var i :| 0 <= i < |p.roster| && p.roster[i] == a.techId;
    }
  }

  /** The trial plans for exactly the active orders of the scenario. */
  lemma PlannedAreActive(p: Plan, sc: Scenario, m: Travel, entries: map<Id, RouteEntry>, frozen: set<Id>, s: Schedule)
    requires CommittedPlan(sc, m, entries, frozen, s) && Simulates(p, Day(sc, m, entries, frozen), s)
    ensures PlannedIds(p) == ActiveOrders(sc).Keys
  {
    var u := Day(sc, m, entries, frozen);
    hide F.RoutesAccepted, RouteOrders, ActiveOrders;
    forall id ensures id in RouteOrders(p, {}, false, |p.roster|) <==> id in F.Elements(Ids(s.assignments)) {
      RouteOrdersArePlaced(p, u, s, id);
    }
    assert F.Elements(s.unassigned) == IdSet(p.unassigned);
    assert PlannedIds(p) == F.Elements(Ids(s.assignments)) + F.Elements(s.unassigned) + u.external;
  }

  /**
    Conservation for every trial of a committed plan: each active order of the
    scenario ends with exactly one outcome, and the counters add up to their
    number, plus one exactly for an emergency nobody took.
   */
  lemma CommittedConservation(p: Plan, sc: Scenario, m: Travel, entries: map<Id, RouteEntry>, frozen: set<Id>, s: Schedule,
                              absent: set<Id>, e: Option<Event>)
    requires CommittedPlan(sc, m, entries, frozen, s) && Simulates(p, Day(sc, m, entries, frozen), s)
    ensures var r := TrialOutcome(p, absent, e);
            && r.tally.outcomes.Keys == ActiveOrders(sc).Keys
            && r.tally.onTime + |OfKind(r.tally.outcomes, Disposition.Late)| + r.tally.unserved
               == |ActiveOrders(sc)| + Lost(e, r.responder)
  {
    hide TrialOutcome, PlannedIds, PlannedOnce, OfKind, CommittedPlan, Balanced;
    CommittedIsPlannedOnce(p, sc, m, entries, frozen, s);
    PlannedAreActive(p, sc, m, entries, frozen, s);
    TrialConservation(p, absent, e);
    assert |ActiveOrders(sc)| == |ActiveOrders(sc).Keys|;
  }

  /** In every trial of a committed plan an emergency leaves the set of unserved orders as it is. */
  lemma CommittedFrame(p: Plan, sc: Scenario, m: Travel, entries: map<Id, RouteEntry>, frozen: set<Id>, s: Schedule,
                       absent: set<Id>, e: Event)
    requires CommittedPlan(sc, m, entries, frozen, s) && Simulates(p, Day(sc, m, entries, frozen), s)
    ensures var base, hit := TrialOutcome(p, absent, None), TrialOutcome(p, absent, Some(e));
            && UnservedIds(hit.tally.outcomes) == UnservedIds(base.tally.outcomes)
            && hit.tally.unserved == base.tally.unserved
               + (if forall t :: t in p.world.technicians ==> !Qualifies(p.world, absent, e, t) then 1 else 0)
  {
    hide TrialOutcome, PlannedOnce, CommittedPlan, UnservedIds, Qualifies;
    CommittedIsPlannedOnce(p, sc, m, entries, frozen, s);
    EmergencyKeepsServed(p, absent, e);
  }
}
