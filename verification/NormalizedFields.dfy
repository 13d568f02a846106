/**
  What a normalised visit says, compared with its neighbours on the returned
  list and with the business data: its leg, its lateness, its lock, its evidence.
  A schedule the checker accepts already says all of this, so normalising it
  only sorts it.
 */
module NormalizedFields {
  import opened Domain
  import opened Sorting
  import opened Routes
  import opened Normalize
  import opened NormalizeTheorems
  import opened NormalizeFixpoint
  import F = Feasibility
  import K = Kpi
  import A = AcceptedFields
  import B = Baseline
  import C = CheckerAgreement

  /** The assignments of a list of visits. */
  function Plans(s: seq<Visit>): (r: seq<Assignment>)
    ensures |r| == |s|
  {
    seq(|s|, i requires 0 <= i < |s| => s[i].plan)
  }

  // ----- one route -----

  /** The place a visit is at. */
  function At(c: Context, v: Visit): Point
    requires v.plan.orderId in OrderIndex(c.scenario.orders)
  {
    OrderIndex(c.scenario.orders)[v.plan.orderId].location
  }

  /** Where the technician comes from: the previous customer, or wherever the day begins for them. */
  ghost function ComesFrom(c: Context, t: Technician, r: seq<Visit>, k: nat): Point
    requires k < |r| && Known(c, r)
  {
    if k > 0 then At(c, r[k - 1])
    else if t.id in c.projections && r[0].plan.orderId !in c.frozenStarted then c.projections[t.id]
    else t.depot
  }

  ghost function GoesTo(c: Context, t: Technician, r: seq<Visit>, k: nat): Point
    requires k < |r| && Known(c, r)
  {
    if k + 1 < |r| then At(c, r[k + 1]) else t.depot
  }

  /** The published fields of the k-th visit of a normalised route. */
  ghost predicate ProperFields(c: Context, t: Technician, r: seq<Visit>, k: nat)
    requires k < |r| && Known(c, r)
  {
    var v := r[k];
    var o := OrderIndex(c.scenario.orders)[v.plan.orderId];
    && (v.plan.finish > o.slaDeadline ==> v.plan.slaLate == v.plan.finish - o.slaDeadline)
    && (v.plan.finish <= o.slaDeadline ==> v.plan.slaLate == 0)
    && (v.locked <==> Lock(o.id, t.id) in c.scenario.locks)
    && (k > 0 || o.id !in c.frozenStarted ==> v.plan.travel == c.travel(ComesFrom(c, t, r, k), o.location))
  }

  /** The evidence of the k-th visit agrees with the published fields and with the figures of the route. */
  ghost predicate ProperEvidence(c: Context, t: Technician, r: seq<Visit>, k: nat)
    requires k < |r| && Known(c, r)
  {
    var v := r[k];
    var o := OrderIndex(c.scenario.orders)[v.plan.orderId];
    v.evidence.Some? && var e := v.evidence.value;
    && e.arrival == v.plan.arrival && e.start == v.plan.start && e.finish == v.plan.finish && e.leg == v.plan.travel
    && e.windowStart == o.windowStart && e.windowEnd == o.windowEnd && e.reportedAt == o.reportedAt
    && e.sourceSequence == v.sourceSequence && e.sourceHash == v.sourceHash && e.planPrint == v.planPrint
    && (forall id :: id in e.eligible <==> exists x :: x in c.scenario.technicians && x.id == id && o.skills <= x.skills)
    && var from, to := ComesFrom(c, t, r, k), GoesTo(c, t, r, k);
       c.travel(from, to) + e.insertionDelta == c.travel(from, o.location) + c.travel(o.location, to)
  }

  /** The return in the evidence is the route's end in the KPIs, and so is the overtime. */
  ghost predicate ReturnAgrees(c: Context, t: Technician, r: seq<Visit>, k: nat)
    requires k < |r| && K.AllKnown(OrderIndex(c.scenario.orders), Plans(r))
  {
    r[k].evidence.Some? && var e, orders := r[k].evidence.value, OrderIndex(c.scenario.orders);
    && e.returnTravel == K.ReturnLeg(orders, c.travel, t, Plans(r))
    && e.returnAt == K.RouteEnd(orders, c.travel, t, Plans(r))
    && e.overtime == K.RouteKpi(orders, c.travel, t, Plans(r)).overtime
  }

  lemma {:induction false} EligibleMembers(ts: seq<Technician>, o: WorkOrder, id: Id)
    ensures id in EligibleIds(ts, o) <==> exists x :: x in ts && x.id == id && o.skills <= x.skills
  {
    if ts != [] {
      var front, last := ts[..|ts| - 1], ts[|ts| - 1];
      assert ts == front + [last];
      EligibleMembers(front, o, id);
    }
  }

  lemma LockedExactly(c: Context, o: Id, t: Id)
    requires ValidScenario(c.scenario)
    ensures Locked(c, o, t) <==> Lock(o, t) in c.scenario.locks
  {
    C.LockIndexSound(c.scenario.locks, o);
    if Lock(o, t) in c.scenario.locks {
      B.LockIndexComplete(c.scenario, Lock(o, t));
    }
  }

  lemma PlaceIsAt(c: Context, v: Visit)
    requires v.plan.orderId in OrderIndex(c.scenario.orders)
    ensures Place(c, v.plan.orderId) == At(c, v) && OrderIndex(c.scenario.orders)[v.plan.orderId].id == v.plan.orderId
  {
    OrderIndexSound(c.scenario.orders, v.plan.orderId);
  }

  /** The old and the new route visit the same places. */
  lemma SamePlaces(c: Context, t: Technician, w: seq<Visit>, r: seq<Visit>, k: nat)
    requires Known(c, w) && Known(c, r) && SameRoute(w, r) && k < |w|
    ensures PreviousPlace(c, t, w, k) == ComesFrom(c, t, r, k) && NextPlace(c, t, w, k) == GoesTo(c, t, r, k)
    ensures Place(c, w[k].plan.orderId) == At(c, r[k]) && Place(c, w[|w| - 1].plan.orderId) == At(c, r[|r| - 1])
  {
    hide Place, At;
    assert SameBones(w[k], r[k]) && SameBones(w[|w| - 1], r[|r| - 1]) && SameBones(w[0], r[0]);
    PlaceIsAt(c, r[k]);
    PlaceIsAt(c, r[|r| - 1]);
    if k > 0 {
      assert SameBones(w[k - 1], r[k - 1]);
      PlaceIsAt(c, r[k - 1]);
    }
    if k + 1 < |r| {
      assert SameBones(w[k + 1], r[k + 1]);
      PlaceIsAt(c, r[k + 1]);
    }
  }

  lemma RebuiltIsProper(c: Context, s: seq<Visit>, t: Technician, w: seq<Visit>, r: seq<Visit>, k: nat)
    requires ValidScenario(c.scenario) && Known(c, w) && Known(c, r) && SameRoute(w, r) && k < |w|
    requires r[k] == Rebuilt(c, s, t, OrderIndex(c.scenario.orders)[w[k].plan.orderId], w, k)
    ensures ProperFields(c, t, r, k) && ProperEvidence(c, t, r, k)
  {
    var o := OrderIndex(c.scenario.orders)[w[k].plan.orderId];
    SamePlaces(c, t, w, r, k);
    PlaceIsAt(c, r[k]);
    LockedExactly(c, o.id, t.id);
    forall id ensures id in EligibleIds(c.scenario.technicians, o)
                      <==> exists x :: x in c.scenario.technicians && x.id == id && o.skills <= x.skills {
      EligibleMembers(c.scenario.technicians, o, id);
    }
    hide Place, PreviousPlace, NextPlace, EligibleIds, Locked, Changed, Alternatives, OrderIndex, ValidScenario, ComesFrom,
         GoesTo, SameRoute;
  }

  lemma PlansKnown(c: Context, r: seq<Visit>)
    requires Known(c, r)
    ensures K.AllKnown(OrderIndex(c.scenario.orders), Plans(r))
  {
    forall a | a in Plans(r) ensures a.orderId in OrderIndex(c.scenario.orders) {
      var k :| 0 <= k < |r| && Plans(r)[k] == a;
      assert r[k] in r;
    }
  }

  lemma RebuiltReturn(c: Context, s: seq<Visit>, t: Technician, w: seq<Visit>, r: seq<Visit>, k: nat)
    requires Known(c, w) && Known(c, r) && SameRoute(w, r) && k < |w|
    requires r[k] == Rebuilt(c, s, t, OrderIndex(c.scenario.orders)[w[k].plan.orderId], w, k)
    ensures K.AllKnown(OrderIndex(c.scenario.orders), Plans(r)) && ReturnAgrees(c, t, r, k)
  {
    PlansKnown(c, r);
    SamePlaces(c, t, w, r, k);
    assert SameBones(w[|w| - 1], r[|r| - 1]);
    hide Place, PreviousPlace, NextPlace, EligibleIds, Locked, Changed, Alternatives, SameRoute, Leg, K.ServiceSum,
         K.TravelSum, K.WaitingSum;
  }

  lemma RouteOfNormalized(c: Context, r: Result, t: Id, k: nat)
    requires Known(c, r.visits) && Known(c, Normalized(c, r).visits) && k < |RouteOf(Normalized(c, r).visits, t)|
    ensures t in TechnicianIndex(c.scenario.technicians)
    ensures var w, q := RouteOf(r.visits, t), RouteOf(Normalized(c, r).visits, t);
            && Known(c, w) && Known(c, q) && SameRoute(w, q)
            && q[k] == Rebuilt(c, r.visits, TechnicianIndex(c.scenario.technicians)[t],
                               OrderIndex(c.scenario.orders)[w[k].plan.orderId], w, k)
  {
    var s, q := r.visits, Normalized(c, r).visits;
    NormalizedFacts(c, r);
    CrewFacts(s);
    KnownRoute(c, s, t);
    KnownRoute(c, q, t);
    assert SameRoute(RouteOf(s, t), RouteOf(q, t));
    RouteOfMembers(s, t, RouteOf(s, t)[k]);
    hide Normalized, RouteOf, Crew, Rebuilt;
    assert t in Crew(s);
    RebuiltRouteAt(c, s, TechnicianIndex(c.scenario.technicians)[t], RouteOf(s, t), |RouteOf(s, t)|, k);
  }

  /** Every visit of a normalised schedule has proper fields and evidence. */
  lemma NormalizedVisit(c: Context, r: Result, t: Id, k: nat)
    requires Known(c, r.visits) && ValidScenario(c.scenario)
    ensures Known(c, Normalized(c, r).visits)
    ensures var q := RouteOf(Normalized(c, r).visits, t);
            k < |q| ==>
              && t in TechnicianIndex(c.scenario.technicians) && Known(c, q)
              && K.AllKnown(OrderIndex(c.scenario.orders), Plans(q))
              && var tech := TechnicianIndex(c.scenario.technicians)[t];
                 ProperFields(c, tech, q, k) && ProperEvidence(c, tech, q, k) && ReturnAgrees(c, tech, q, k)
  {
    hide Normalized, RouteOf, Rebuilt, ProperFields, ProperEvidence, ReturnAgrees, ValidScenario, Known, SameRoute;
    NormalizedFacts(c, r);
    var q := RouteOf(Normalized(c, r).visits, t);
    if k < |q| {
      RouteOfNormalized(c, r, t, k);
      var tech, w := TechnicianIndex(c.scenario.technicians)[t], RouteOf(r.visits, t);
      SameSize(w, q);
      RebuiltIsProper(c, r.visits, tech, w, q, k);
      RebuiltReturn(c, r.visits, tech, w, q, k);
    }
  }

  lemma SameSize(w: seq<Visit>, q: seq<Visit>)
    requires SameRoute(w, q)
    ensures |w| == |q|
  {
  }

  // ----- identity and alternatives -----

  /** A booking keeps the sequence and the hash it was first given. */
  lemma NormalizedIdentity(c: Context, r: Result, t: Id, k: nat)
    requires Known(c, r.visits) && Known(c, Normalized(c, r).visits) && k < |RouteOf(Normalized(c, r).visits, t)|
    ensures k < |RouteOf(r.visits, t)|
    ensures var given, v := RouteOf(r.visits, t)[k], RouteOf(Normalized(c, r).visits, t)[k];
            && (given.sourceSequence != 0 ==> v.sourceSequence == given.sourceSequence)
            && (given.sourceSequence == 0 ==> v.sourceSequence == given.plan.sequence)
            && (given.sourceHash.Some? ==> v.sourceHash == given.sourceHash)
            && (given.sourceHash.None? ==>
                  v.sourceHash == Some(c.sourcePrint(v.plan.orderId, v.plan.techId, v.plan.start, v.plan.finish)))
            && v.planPrint == c.planningPrint(v.plan.orderId, v.plan.techId)
  {
    RouteOfNormalized(c, r, t, k);
    hide Normalized, RouteOf, Known, Leg, Changed, Locked, Alternatives, EligibleIds;
  }

  /** `d` is what inserting `via` costs at the best place of a chain of stops. */
  ghost predicate LeastInsertion(m: Travel, stops: seq<Point>, via: Point, d: int) {
    && (forall j :: 0 <= j < |stops| - 1 ==> d <= m(stops[j], via) + m(via, stops[j + 1]) - m(stops[j], stops[j + 1]))
    && (exists j :: 0 <= j < |stops| - 1 && d == m(stops[j], via) + m(via, stops[j + 1]) - m(stops[j], stops[j + 1]))
  }

  lemma {:induction false} LeastDetourIsLeast(m: Travel, stops: seq<Point>, via: Point, n: nat)
    requires n + 1 < |stops|
    ensures LeastInsertion(m, stops[..n + 2], via, LeastDetour(m, stops, via, n))
  {
    var d := LeastDetour(m, stops, via, n);
    var here := m(stops[n], via) + m(via, stops[n + 1]) - m(stops[n], stops[n + 1]);
    var s := stops[..n + 2];
    if n == 0 {
      assert s[0] == stops[0] && s[1] == stops[1];
    } else {
      LeastDetourIsLeast(m, stops, via, n - 1);
      var before := stops[..n + 1];
      assert forall j :: 0 <= j < |before| ==> s[j] == before[j];
      assert s[n] == stops[n] && s[n + 1] == stops[n + 1];
    }
  }

  /** An alternative is every other technician with the skills, at the cost of the best place on their route. */
  lemma {:induction false} AlternativesAre(c: Context, s: seq<Visit>, ts: seq<Technician>, t: Id, o: WorkOrder, id: Id)
    requires forall x :: x in ts ==> x in c.scenario.technicians
    ensures id in Alternatives(c, s, ts, t, o) <==>
              id != t && id in TechnicianIndex(c.scenario.technicians)
              && (exists x :: x in ts && x.id == id)
              && (exists x :: x in c.scenario.technicians && x.id == id && o.skills <= x.skills)
    ensures id in Alternatives(c, s, ts, t, o) ==>
              var x := TechnicianIndex(c.scenario.technicians)[id];
              LeastInsertion(c.travel, [x.depot] + Places(c, Without(RouteOf(s, id), o.id)) + [x.depot], Place(c, o.id),
                             Alternatives(c, s, ts, t, o)[id])
  {
    hide RouteOf, Without, Place, Places, LeastDetour, LeastInsertion;
    if ts != [] {
      var front, last := ts[..|ts| - 1], ts[|ts| - 1];
      assert ts == front + [last];
      AlternativesAre(c, s, front, t, o, id);
      EligibleMembers(c.scenario.technicians, o, last.id);
      if last.id in TechnicianIndex(c.scenario.technicians) {
        CheapestIsLeast(c, TechnicianIndex(c.scenario.technicians)[last.id], RouteOf(s, last.id), o.id);
      }
    }
  }

  /** A route is probed as it stands, apart from visits of the order itself. */
  lemma {:induction false} WithoutOrder(r: seq<Visit>, id: Id)
    ensures (forall v :: v in r ==> v.plan.orderId != id) ==> Without(r, id) == r
    ensures forall v :: v in Without(r, id) <==> v in r && v.plan.orderId != id
  {
    if r != [] {
      var front, last := r[..|r| - 1], r[|r| - 1];
      assert r == front + [last];
      WithoutOrder(front, id);
    }
  }

  /** With one holder per order the stops of an alternative are all the doors of that technician's route. */
  lemma AlternativeStops(s: seq<Visit>, v: Visit, id: Id)
    requires OneHolder(s) && v in s && id != v.plan.techId
    ensures Without(RouteOf(s, id), v.plan.orderId) == RouteOf(s, id)
  {
    WithoutOrder(RouteOf(s, id), v.plan.orderId);
    hide Without, RouteOf;
    forall x | x in RouteOf(s, id) ensures x.plan.orderId != v.plan.orderId {
      RouteOfMembers(s, id, x);
    }
  }

  lemma CheapestIsLeast(c: Context, x: Technician, r: seq<Visit>, id: Id)
    ensures LeastInsertion(c.travel, [x.depot] + Places(c, Without(r, id)) + [x.depot], Place(c, id), CheapestDelta(c, x, r, id))
  {
    var stops := [x.depot] + Places(c, Without(r, id)) + [x.depot];
    LeastDetourIsLeast(c.travel, stops, Place(c, id), |stops| - 2);
    assert stops[..|stops| - 2 + 2] == stops;
  }

  // ----- an accepted schedule is only sorted -----

  lemma {:induction false} MineOfPlans(s: seq<Visit>, t: Id)
    ensures Mine(Plans(s), t) == Plans(OfTechnician(s, t))
  {
    if s != [] {
      var n := |s| - 1;
      assert Plans(s)[..n] == Plans(s[..n]);
      MineOfPlans(s[..n], t);
      PlansJoin(OfTechnician(s[..n], t), [s[n]]);
      assert Plans([s[n]]) == [s[n].plan] && Plans(OfTechnician(s[..n], t) + []) == Plans(OfTechnician(s[..n], t));
      assert OfTechnician(s[..n], t) + [] == OfTechnician(s[..n], t);
    }
  }

  lemma PlansJoin(a: seq<Visit>, b: seq<Visit>)
    ensures Plans(a + b) == Plans(a) + Plans(b)
  {
  }

  lemma {:induction false} InsertPlans(s: seq<Visit>, v: Visit)
    ensures Insert(SequenceOrder, Plans(s), v.plan) == Plans(Insert(BySequence, s, v))
  {
    if s == [] || BySequence(s[|s| - 1], v) {
      PlansJoin(s, [v]);
      assert Plans([v]) == [v.plan];
    } else {
      var n := |s| - 1;
      assert Plans(s)[..n] == Plans(s[..n]);
      InsertPlans(s[..n], v);
      PlansJoin(Insert(BySequence, s[..n], v), [s[n]]);
      assert Plans([s[n]]) == [s[n].plan];
    }
  }

  lemma {:induction false} SortPlans(s: seq<Visit>)
    ensures Sort(SequenceOrder, Plans(s)) == Plans(Sort(BySequence, s))
  {
    if s != [] {
      var n := |s| - 1;
      assert Plans(s)[..n] == Plans(s[..n]);
      SortPlans(s[..n]);
      InsertPlans(Sort(BySequence, s[..n]), s[n]);
    }
  }

  lemma RouteOfPlans(s: seq<Visit>, t: Id)
    ensures Route(Plans(s), t) == Plans(RouteOf(s, t))
  {
    MineOfPlans(s, t);
    SortPlans(OfTechnician(s, t));
  }

  /** The visits as the fold verifier of a full plan sees them. */
  ghost predicate AcceptedVisits(c: Context, r: Result) {
    && ValidScenario(c.scenario) && c.projections == map[] && c.frozenStarted == {}
    && F.Accepted(C.FreshDay(c.scenario, c.travel), Schedule(Plans(r.visits), r.unassigned))
  }

  lemma AcceptedAreKnown(c: Context, r: Result)
    requires AcceptedVisits(c, r)
    ensures Known(c, r.visits)
    ensures forall v :: v in r.visits ==> v.plan.orderId in ActiveOrders(c.scenario)
                                          && ActiveOrders(c.scenario)[v.plan.orderId] == OrderIndex(c.scenario.orders)[v.plan.orderId]
  {
    var s := Schedule(Plans(r.visits), r.unassigned);
    C.CoveredIsActive(c.scenario, c.travel, false, s);
    C.ActiveIsKnown(c.scenario, s.assignments);
    hide ValidScenario, ActiveOrders, OrderIndex, F.RouteAccepted;
    forall v | v in r.visits ensures v.plan in s.assignments {
      var i :| 0 <= i < |r.visits| && r.visits[i] == v;
      assert s.assignments[i] == v.plan;
    }
  }

  /** The leg and the lateness of an accepted visit. */
  ghost predicate StandingFigures(c: Context, t: Technician, r: seq<Visit>, k: nat)
    requires k < |r| && Known(c, r)
  {
    var v := r[k];
    var o := OrderIndex(c.scenario.orders)[v.plan.orderId];
    && (v.plan.finish > o.slaDeadline ==> v.plan.slaLate == v.plan.finish - o.slaDeadline)
    && (v.plan.finish <= o.slaDeadline ==> v.plan.slaLate == 0)
    && v.plan.travel == c.travel(if k > 0 then At(c, r[k - 1]) else t.depot, o.location)
  }

  lemma FreshFacts(c: Context, r: Result)
    requires AcceptedVisits(c, r)
    ensures var u := C.FreshDay(c.scenario, c.travel);
            && F.Accepted(u, Schedule(Plans(r.visits), r.unassigned)) && F.WellKeyed(u)
            && u.entries == map[] && u.frozen == {} && !u.startedFirst && u.travel == c.travel
            && u.technicians == TechnicianIndex(c.scenario.technicians) && u.orders == ActiveOrders(c.scenario)
  {
    F.RulesAreWellKeyed(c.scenario, c.travel, map[], {}, {}, false);
  }

  lemma OrderAt(c: Context, r: Result, t: Id, k: nat)
    requires AcceptedVisits(c, r) && k < |RouteOf(r.visits, t)|
    ensures var v := RouteOf(r.visits, t)[k];
            v.plan.orderId in OrderIndex(c.scenario.orders) && v.plan.orderId in ActiveOrders(c.scenario)
            && ActiveOrders(c.scenario)[v.plan.orderId] == OrderIndex(c.scenario.orders)[v.plan.orderId]
  {
    hide AcceptedVisits, RouteOf, OrderIndex, ActiveOrders;
    AcceptedAreKnown(c, r);
    RouteOfMembers(r.visits, t, RouteOf(r.visits, t)[k]);
  }

  lemma AcceptedFigures(c: Context, r: Result, t: Id, k: nat)
    requires AcceptedVisits(c, r) && Known(c, RouteOf(r.visits, t)) && k < |RouteOf(r.visits, t)|
    ensures t in TechnicianIndex(c.scenario.technicians)
    ensures StandingFigures(c, TechnicianIndex(c.scenario.technicians)[t], RouteOf(r.visits, t), k)
  {
    hide AcceptedVisits, RouteOf, Route, F.Accepted, F.WellKeyed, OrderIndex, ActiveOrders, TechnicianIndex, Known, C.FreshDay;
    var s, u, w := Schedule(Plans(r.visits), r.unassigned), C.FreshDay(c.scenario, c.travel), RouteOf(r.visits, t);
    RouteOfPlans(r.visits, t);
    FreshFacts(c, r);
    OrderAt(c, r, t, k);
    if k > 0 {
      OrderAt(c, r, t, k - 1);
    }
    A.PlainVisitFields(u, s, t, k);
    assert Plans(w)[k] == w[k].plan && (k > 0 ==> Plans(w)[k - 1] == w[k - 1].plan);
  }

  lemma SameFigures(c: Context, t: Technician, w: seq<Visit>, q: seq<Visit>, k: nat)
    requires Known(c, w) && Known(c, q) && SameRoute(w, q) && k < |w| && c.projections == map[] && c.frozenStarted == {}
    requires StandingFigures(c, t, w, k) && ProperFields(c, t, q, k)
    ensures q[k].plan == w[k].plan
  {
    assert SameBones(w[k], q[k]);
    if k > 0 {
      assert SameBones(w[k - 1], q[k - 1]);
    }
    hide OrderIndex, TechnicianIndex;
  }

  /** The figures an accepted visit already has are those a normalisation writes. */
  lemma AcceptedFiguresStand(c: Context, r: Result, t: Id, k: nat)
    requires AcceptedVisits(c, r) && Known(c, r.visits) && k < |RouteOf(r.visits, t)|
    ensures Known(c, Normalized(c, r).visits) && k < |RouteOf(Normalized(c, r).visits, t)|
    ensures RouteOf(Normalized(c, r).visits, t)[k].plan == RouteOf(r.visits, t)[k].plan
  {
    var w, q := RouteOf(r.visits, t), RouteOf(Normalized(c, r).visits, t);
    NormalizedFacts(c, r);
    assert SameRoute(w, q);
    hide Normalized, RouteOf, ProperFields, ProperEvidence, ReturnAgrees, StandingFigures, SameShape, Known, F.Accepted;
    SameSize(w, q);
    NormalizedVisit(c, r, t, k);
    KnownRoute(c, r.visits, t);
    AcceptedFigures(c, r, t, k);
    SameFigures(c, TechnicianIndex(c.scenario.technicians)[t], w, q, k);
  }

  lemma {:induction false} PlansOfRoutes(c: Context, s: seq<Visit>, ts: seq<Id>)
    requires Known(c, s) && forall t :: t in ts ==> t in TechnicianIndex(c.scenario.technicians)
    requires forall t :: t in ts ==> Plans(NewRoute(c, s, t)) == Plans(RouteOf(s, t))
    ensures Plans(RebuiltRoutes(c, s, ts)) == Plans(RosterOf(s, ts))
  {
    hide RouteOf, RebuiltRoute, Known;
    if ts != [] {
      var front, last := ts[..|ts| - 1], ts[|ts| - 1];
      assert ts == front + [last];
      PlansOfRoutes(c, s, front);
      PlansJoin(RebuiltRoutes(c, s, front), NewRoute(c, s, last));
      PlansJoin(RosterOf(s, front), RouteOf(s, last));
    }
  }

  /**
    Normalising a schedule the checker accepts returns exactly its assignments,
    sorted by technician and sequence.
   */
  lemma AcceptedIsOnlySorted(c: Context, r: Result)
    requires AcceptedVisits(c, r)
    ensures Known(c, r.visits)
    ensures Plans(Normalized(c, r).visits) == Plans(Roster(r.visits))
  {
    var s := r.visits;
    AcceptedAreKnown(c, r);
    NormalizedFacts(c, r);
    hide AcceptedVisits, RouteOf, Known, NewRoute, RebuiltRoutes, SameShape, RosterOf, Crew;
    forall t | t in Crew(s) ensures Plans(NewRoute(c, s, t)) == Plans(RouteOf(s, t)) {
      var w, q := RouteOf(s, t), RouteOf(Normalized(c, r).visits, t);
      NewRouteSize(c, s, t);
      forall k | 0 <= k < |w| ensures q[k].plan == w[k].plan {
        AcceptedFiguresStand(c, r, t, k);
      }
    }
    PlansOfRoutes(c, s, Crew(s));
  }

  lemma NewRouteSize(c: Context, s: seq<Visit>, t: Id)
    requires Known(c, s) && t in TechnicianIndex(c.scenario.technicians)
    ensures |NewRoute(c, s, t)| == |RouteOf(s, t)|
  {
  }
}
