/**
  What a normalisation keeps: the crew, the routes, and with one holder per
  order the recorded predecessors; and what a second pass renews.
 */
module NormalizeTheorems {
  import opened Domain
  import opened Sorting
  import opened Routes
  import opened Normalize

  /** The same place on the same route. */
  predicate SameStop(a: Visit, b: Visit) {
    a.plan.orderId == b.plan.orderId && a.plan.techId == b.plan.techId && a.plan.sequence == b.plan.sequence
  }

  predicate SameStops(r: seq<Visit>, q: seq<Visit>) {
    |r| == |q| && forall i :: 0 <= i < |r| ==> SameStop(r[i], q[i])
  }

  /** The fields of a visit that a normalisation only reads. */
  predicate SameBones(a: Visit, b: Visit) {
    && SameStop(a, b)
    && a.plan.arrival == b.plan.arrival && a.plan.start == b.plan.start && a.plan.finish == b.plan.finish
  }

  predicate SameRoute(r: seq<Visit>, q: seq<Visit>) {
    |r| == |q| && forall i :: 0 <= i < |r| ==> SameBones(r[i], q[i])
  }

  /** No order is held by two technicians. */
  predicate OneHolder(s: seq<Visit>) {
    forall a, b :: a in s && b in s && a.plan.orderId == b.plan.orderId ==> a.plan.techId == b.plan.techId
  }

  // ----- the routes of a normalised schedule -----

  lemma {:induction false} RebuiltRouteAt(c: Context, s: seq<Visit>, t: Technician, r: seq<Visit>, n: nat, k: nat)
    requires k < n <= |r| && Known(c, r)
    ensures RebuiltRoute(c, s, t, r, n)[k] == Rebuilt(c, s, t, OrderIndex(c.scenario.orders)[r[k].plan.orderId], r, k)
  {
    hide Rebuilt, Known;
    if k < n - 1 {
      RebuiltRouteAt(c, s, t, r, n - 1, k);
    }
  }

  lemma RebuiltBones(c: Context, s: seq<Visit>, t: Technician, r: seq<Visit>)
    requires Known(c, r)
    ensures SameRoute(r, RebuiltRoute(c, s, t, r, |r|))
  {
    hide RebuiltRoute;
    forall k | 0 <= k < |r| ensures SameBones(r[k], RebuiltRoute(c, s, t, r, |r|)[k]) {
      RebuiltRouteAt(c, s, t, r, |r|, k);
    }
  }

  lemma {:induction false} OfTechnicianJoin(a: seq<Visit>, b: seq<Visit>, t: Id)
    ensures OfTechnician(a + b, t) == OfTechnician(a, t) + OfTechnician(b, t)
  {
    if b == [] {
      assert a + b == a;
    } else {
      assert (a + b)[..|a + b| - 1] == a + b[..|b| - 1];
      OfTechnicianJoin(a, b[..|b| - 1], t);
    }
  }

  lemma {:induction false} OfTechnicianAll(s: seq<Visit>, t: Id)
    requires forall v :: v in s ==> v.plan.techId == t
    ensures OfTechnician(s, t) == s
  {
    if s != [] {
      assert s == s[..|s| - 1] + [s[|s| - 1]];
      OfTechnicianAll(s[..|s| - 1], t);
    }
  }

  lemma {:induction false} OfTechnicianNone(s: seq<Visit>, t: Id)
    requires forall v :: v in s ==> v.plan.techId != t
    ensures OfTechnician(s, t) == []
  {
    if s != [] {
      assert s == s[..|s| - 1] + [s[|s| - 1]];
      OfTechnicianNone(s[..|s| - 1], t);
    }
  }

  /** The rebuilt route of one technician. */
  function NewRoute(c: Context, s: seq<Visit>, id: Id): seq<Visit>
    requires Known(c, s) && id in TechnicianIndex(c.scenario.technicians)
  {
    KnownRoute(c, s, id);
    RebuiltRoute(c, s, TechnicianIndex(c.scenario.technicians)[id], RouteOf(s, id), |RouteOf(s, id)|)
  }

  lemma NewRouteFacts(c: Context, s: seq<Visit>, id: Id)
    requires Known(c, s) && id in TechnicianIndex(c.scenario.technicians)
    ensures SameRoute(RouteOf(s, id), NewRoute(c, s, id)) && SortedBy(BySequence, NewRoute(c, s, id))
    ensures forall v :: v in NewRoute(c, s, id) ==> v.plan.techId == id
  {
    hide RebuiltRoute;
    var r, q := RouteOf(s, id), NewRoute(c, s, id);
    KnownRoute(c, s, id);
    RebuiltBones(c, s, TechnicianIndex(c.scenario.technicians)[id], r);
    BySequenceIsTotal();
    SortSorted(BySequence, OfTechnician(s, id));
    hide RouteOf, Sort;
    forall v | v in q ensures v.plan.techId == id {
      var k :| 0 <= k < |q| && q[k] == v;
      assert r[k] in r;
      RouteOfMembers(s, id, r[k]);
    }
  }

  lemma BySequenceIsTotal()
    ensures TotalPreorder(BySequence)
  {
  }

  /** The technicians' rebuilt routes can be told apart again. */
  lemma {:induction false} GroupsApart(c: Context, s: seq<Visit>, ts: seq<Id>, t: Id)
    requires Known(c, s) && Distinct(ts) && forall id :: id in ts ==> id in TechnicianIndex(c.scenario.technicians)
    ensures OfTechnician(RebuiltRoutes(c, s, ts), t) == if t in ts then NewRoute(c, s, t) else []
  {
    hide RouteOf, RebuiltRoute, Known;
    if ts != [] {
      var front, last := ts[..|ts| - 1], ts[|ts| - 1];
      assert ts == front + [last];
      GroupsApart(c, s, front, t);
      OfTechnicianJoin(RebuiltRoutes(c, s, front), NewRoute(c, s, last), t);
      NewRouteFacts(c, s, last);
      if t == last {
        OfTechnicianAll(NewRoute(c, s, last), t);
      } else {
        OfTechnicianNone(NewRoute(c, s, last), t);
      }
    }
  }

  // ----- the technicians of a normalised schedule -----

  lemma {:induction false} GroupsDistinct(s: seq<Visit>)
    ensures Distinct(Groups(s))
  {
    if s != [] {
      GroupsDistinct(s[..|s| - 1]);
    }
  }

  lemma CrewFacts(s: seq<Visit>)
    ensures Distinct(Crew(s))
    ensures forall t :: t in Crew(s) <==> exists v :: v in s && v.plan.techId == t
  {
    GroupsDistinct(s);
    DistinctIsCounted(Groups(s));
    SortContents(RankOrder, Groups(s));
    DistinctIsCounted(Crew(s));
    forall t ensures t in Crew(s) <==> exists v :: v in s && v.plan.techId == t {
      SortMembers(RankOrder, Groups(s), t);
      GroupsMembers(s, t);
    }
  }

  ghost predicate Visits(s: seq<Visit>, t: Id) {
    exists v :: v in s && v.plan.techId == t
  }

  /** Two lists that visit with the same technicians have the same crew. */
  lemma SameCrew(s: seq<Visit>, q: seq<Visit>)
    requires forall t :: Visits(s, t) <==> Visits(q, t)
    ensures Crew(s) == Crew(q)
  {
    forall t ensures t in Groups(s) <==> t in Groups(q) {
      GroupsMembers(s, t);
      GroupsMembers(q, t);
      assert Visits(s, t) <==> Visits(q, t);
    }
    GroupsDistinct(s);
    GroupsDistinct(q);
    SameMembersSameCounts(Groups(s), Groups(q));
    SortPermutation(RankOrder, Groups(s), Groups(q));
  }

  // ----- what a normalised schedule keeps -----

  /** Same crew, same routes but for the derived fields. */
  ghost predicate SameShape(s: seq<Visit>, q: seq<Visit>) {
    Crew(s) == Crew(q) && forall t :: SameRoute(RouteOf(s, t), RouteOf(q, t))
  }

  lemma NewRouteIsRoute(c: Context, s: seq<Visit>, t: Id)
    requires Known(c, s) && forall id :: id in Crew(s) ==> id in TechnicianIndex(c.scenario.technicians)
    ensures RouteOf(RebuiltRoutes(c, s, Crew(s)), t) == if t in Crew(s) then NewRoute(c, s, t) else []
    ensures SameRoute(RouteOf(s, t), RouteOf(RebuiltRoutes(c, s, Crew(s)), t))
  {
    CrewFacts(s);
    hide Crew, RebuiltRoutes, NewRoute, Known;
    GroupsApart(c, s, Crew(s), t);
    if t in Crew(s) {
      NewRouteFacts(c, s, t);
      SortIdentity(BySequence, NewRoute(c, s, t));
    } else if RouteOf(s, t) != [] {
      RouteOfMembers(s, t, RouteOf(s, t)[0]);
    }
  }

  lemma NormalizedShape(c: Context, s: seq<Visit>)
    requires Known(c, s) && forall id :: id in Crew(s) ==> id in TechnicianIndex(c.scenario.technicians)
    ensures SameShape(s, RebuiltRoutes(c, s, Crew(s)))
    ensures Known(c, RebuiltRoutes(c, s, Crew(s)))
  {
    hide RebuiltRoutes, Crew;
    var q := RebuiltRoutes(c, s, Crew(s));
    forall t ensures SameRoute(RouteOf(s, t), RouteOf(q, t)) {
      NewRouteIsRoute(c, s, t);
    }
    ShapeIsTwin(s, q);
    hide RouteOf;
    forall t ensures Visits(s, t) <==> Visits(q, t) {
      if v :| v in s && v.plan.techId == t {
        var w := Twin(s, q, v);
      }
      if w :| w in q && w.plan.techId == t {
        var v := Twin(q, s, w);
      }
    }
    SameCrew(s, q);
    forall w | w in q
      ensures w.plan.techId in TechnicianIndex(c.scenario.technicians) && w.plan.orderId in OrderIndex(c.scenario.orders)
    {
      var v := Twin(q, s, w);
    }
  }

  lemma ShapeIsTwin(s: seq<Visit>, q: seq<Visit>)
    requires forall t :: SameRoute(RouteOf(s, t), RouteOf(q, t))
    ensures forall t :: SameRoute(RouteOf(q, t), RouteOf(s, t))
  {
    hide RouteOf;
    forall t ensures SameRoute(RouteOf(q, t), RouteOf(s, t)) {
      assert SameRoute(RouteOf(s, t), RouteOf(q, t));
    }
  }

  /** Every visit of one list has its counterpart in the other. */
  lemma Twin(s: seq<Visit>, q: seq<Visit>, v: Visit) returns (w: Visit)
    requires v in s && forall t :: SameRoute(RouteOf(s, t), RouteOf(q, t))
    ensures w in q && SameBones(v, w)
  {
    hide RouteOf;
    var t := v.plan.techId;
    assert SameRoute(RouteOf(s, t), RouteOf(q, t));
    RouteOfMembers(s, t, v);
    var k :| 0 <= k < |RouteOf(s, t)| && RouteOf(s, t)[k] == v;
    w := RouteOf(q, t)[k];
    assert w in RouteOf(q, t);
    RouteOfMembers(q, t, w);
  }

  lemma ShapeKeepsOrders(s: seq<Visit>, q: seq<Visit>)
    requires SameShape(s, q)
    ensures OrderSet(s) == OrderSet(q) && (OneHolder(s) ==> OneHolder(q))
  {
    ShapeIsTwin(s, q);
    hide RouteOf, Crew;
    forall v | v in s ensures v.plan.orderId in OrderSet(q) {
      var w := Twin(s, q, v);
    }
    forall w | w in q ensures w.plan.orderId in OrderSet(s) {
      var v := Twin(q, s, w);
    }
    if OneHolder(s) {
      forall a, b | a in q && b in q && a.plan.orderId == b.plan.orderId ensures a.plan.techId == b.plan.techId {
        var x := Twin(q, s, a);
        var y := Twin(q, s, b);
      }
    }
  }

  // ----- distinct orders stay distinct -----

  predicate DistinctOrders(s: seq<Visit>) {
    forall i, j :: 0 <= i < j < |s| ==> s[i].plan.orderId != s[j].plan.orderId
  }

  lemma {:induction false} LastOfMembers(s: seq<Visit>, id: Id)
    ensures LastOf(s, id).Some? <==> exists v :: v in s && v.plan.orderId == id
    ensures LastOf(s, id).Some? ==> LastOf(s, id).value in s && LastOf(s, id).value.plan.orderId == id
  {
    if s != [] {
      assert s == s[..|s| - 1] + [s[|s| - 1]];
      LastOfMembers(s[..|s| - 1], id);
    }
  }

  lemma LastOfDistinct(s: seq<Visit>, v: Visit)
    requires DistinctOrders(s) && v in s
    ensures LastOf(s, v.plan.orderId) == Some(v)
  {
    LastOfMembers(s, v.plan.orderId);
    var w := LastOf(s, v.plan.orderId).value;
    var i :| 0 <= i < |s| && s[i] == v;
    var j :| 0 <= j < |s| && s[j] == w;
  }

  predicate Injective(s: seq<Visit>) {
    forall a, b :: a in s && b in s && a.plan.orderId == b.plan.orderId ==> a == b
  }

  lemma DistinctOrdersExactly(s: seq<Visit>)
    ensures DistinctOrders(s) <==> Distinct(s) && Injective(s)
  {
    if Distinct(s) && Injective(s) {
      forall i, j | 0 <= i < j < |s| ensures s[i].plan.orderId != s[j].plan.orderId {
        assert s[i] != s[j];
      }
    }
  }

  lemma {:induction false} OfTechnicianCounts(s: seq<Visit>, t: Id, v: Visit)
    ensures multiset(OfTechnician(s, t))[v] <= multiset(s)[v]
  {
    if s != [] {
      assert s == s[..|s| - 1] + [s[|s| - 1]];
      OfTechnicianCounts(s[..|s| - 1], t, v);
    }
  }

  lemma RouteDistinct(s: seq<Visit>, t: Id)
    requires DistinctOrders(s)
    ensures DistinctOrders(RouteOf(s, t))
  {
    var r := RouteOf(s, t);
    DistinctOrdersExactly(s);
    DistinctOrdersExactly(r);
    DistinctIsCounted(s);
    DistinctIsCounted(r);
    SortContents(BySequence, OfTechnician(s, t));
    forall v ensures multiset(r)[v] <= 1 {
      OfTechnicianCounts(s, t, v);
    }
    hide RouteOf;
    forall v | v in r ensures v in s {
      RouteOfMembers(s, t, v);
    }
  }

  // ----- predecessors -----

  lemma {:induction false} SamePredecessors(r: seq<Visit>, q: seq<Visit>)
    requires SameStops(r, q)
    ensures RoutePredecessors(r) == RoutePredecessors(q)
  {
    if r != [] {
      SamePredecessors(r[..|r| - 1], q[..|q| - 1]);
    }
  }

  lemma {:induction false} PredecessorKeys(r: seq<Visit>, id: Id)
    ensures id in RoutePredecessors(r) <==> exists v :: v in r && v.plan.orderId == id
  {
    if r != [] {
      assert r == r[..|r| - 1] + [r[|r| - 1]];
      PredecessorKeys(r[..|r| - 1], id);
    }
  }

  /** With one holder per order the predecessor is the one on the holder's route, however the groups are visited. */
  lemma {:induction false} PredecessorOf(s: seq<Visit>, groups: seq<Id>, v: Visit)
    requires OneHolder(s) && v in s
    ensures Lookup(Predecessors(s, groups), v.plan.orderId)
         == if v.plan.techId in groups then Lookup(RoutePredecessors(RouteOf(s, v.plan.techId)), v.plan.orderId) else None
    ensures v.plan.orderId in Predecessors(s, groups) <==> v.plan.techId in groups
  {
    hide RouteOf, RoutePredecessors;
    if groups != [] {
      var front, last, id := groups[..|groups| - 1], groups[|groups| - 1], v.plan.orderId;
      assert groups == front + [last];
      PredecessorOf(s, front, v);
      PredecessorKeys(RouteOf(s, last), id);
      RouteOfMembers(s, v.plan.techId, v);
      if id in RoutePredecessors(RouteOf(s, last)) {
        var w :| w in RouteOf(s, last) && w.plan.orderId == id;
        RouteOfMembers(s, last, w);
        assert last == v.plan.techId;
      } else {
        assert last != v.plan.techId;
      }
    }
  }

  lemma PredecessorInList(s: seq<Visit>, v: Visit)
    requires OneHolder(s) && v in s
    ensures Lookup(Predecessors(s, Groups(s)), v.plan.orderId)
         == Lookup(RoutePredecessors(RouteOf(s, v.plan.techId)), v.plan.orderId)
  {
    PredecessorOf(s, Groups(s), v);
    GroupsMembers(s, v.plan.techId);
  }

  lemma SameDiffers(source: Option<seq<Visit>>, s: seq<Visit>, q: seq<Visit>, v: Visit, w: Visit)
    requires SameShape(s, q) && OneHolder(s) && v in s && w in q && SameBones(v, w)
    ensures Differs(source, s, v) == Differs(source, q, w)
  {
    ShapeKeepsOrders(s, q);
    PredecessorInList(s, v);
    PredecessorInList(q, w);
    hide RouteOf, Predecessors, RoutePredecessors, Groups, Crew, Among, LastOf;
    SamePredecessors(RouteOf(s, v.plan.techId), RouteOf(q, v.plan.techId));
  }

  /** Without repeated orders an order has the same flag before and after. */
  lemma SameChangedFlag(source: Option<seq<Visit>>, s: seq<Visit>, q: seq<Visit>, v: Visit, w: Visit)
    requires SameShape(s, q) && DistinctOrders(s) && DistinctOrders(q) && v in s && w in q && SameBones(v, w)
    ensures Changed(source, s, v.plan.orderId) == Changed(source, q, w.plan.orderId)
  {
    DistinctOrdersExactly(s);
    LastOfDistinct(s, v);
    LastOfDistinct(q, w);
    hide SameShape, Differs, LastOf;
    SameDiffers(source, s, q, v, w);
  }

  // ----- the rest of a visit -----

  lemma {:induction false} SameWithout(c: Context, r: seq<Visit>, q: seq<Visit>, id: Id)
    requires SameRoute(r, q)
    ensures Places(c, Without(r, id)) == Places(c, Without(q, id))
  {
    hide Place;
    if r != [] {
      SameWithout(c, r[..|r| - 1], q[..|q| - 1], id);
      PlacesGrow(c, Without(r[..|r| - 1], id), r[|r| - 1]);
      PlacesGrow(c, Without(q[..|q| - 1], id), q[|q| - 1]);
      assert Without(r[..|r| - 1], id) + [] == Without(r[..|r| - 1], id);
      assert Without(q[..|q| - 1], id) + [] == Without(q[..|q| - 1], id);
    }
  }

  lemma PlacesGrow(c: Context, r: seq<Visit>, v: Visit)
    ensures Places(c, r + [v]) == Places(c, r) + [Place(c, v.plan.orderId)]
  {
    hide Place;
  }

  lemma {:induction false} SameAlternatives(c: Context, s: seq<Visit>, q: seq<Visit>, ts: seq<Technician>, t: Id, o: WorkOrder)
    requires SameShape(s, q)
    ensures Alternatives(c, s, ts, t, o) == Alternatives(c, q, ts, t, o)
  {
    hide RouteOf, Crew, Place, Places, Without, LeastDetour, EligibleIds;
    if ts != [] {
      SameAlternatives(c, s, q, ts[..|ts| - 1], t, o);
      assert SameRoute(RouteOf(s, ts[|ts| - 1].id), RouteOf(q, ts[|ts| - 1].id));
      SameWithout(c, RouteOf(s, ts[|ts| - 1].id), RouteOf(q, ts[|ts| - 1].id), o.id);
    }
  }

  /** Rebuilding a visit that was already rebuilt on the same routes renews nothing but its flag. */
  lemma RebuiltTwice(c: Context, s: seq<Visit>, q: seq<Visit>, t: Technician, o: WorkOrder, r: seq<Visit>, w: seq<Visit>, k: nat)
    requires SameShape(s, q) && SameRoute(r, w) && k < |r| && w[k] == Rebuilt(c, s, t, o, r, k)
    ensures Rebuilt(c, q, t, o, w, k) == w[k].(changed := Changed(c.source, q, r[k].plan.orderId))
  {
    hide SameShape, Changed, Alternatives, Place, EligibleIds, Locked, Leg, ReturnLeg, PreviousPlace, NextPlace, Detour,
         ReadyAt, StartedFirst;
    SameAlternatives(c, s, q, c.scenario.technicians, t.id, o);
    SameLegs(c, t, r, w, k);
    assert SameBones(r[k], w[k]);
    hide SameRoute;
    var v, e := w[k], Rebuilt(c, q, t, o, w, k);
    assert e.plan == v.plan && e.sourceSequence == v.sourceSequence && e.sourceHash == v.sourceHash;
    assert e.evidence == v.evidence;
  }

  lemma SameLegs(c: Context, t: Technician, r: seq<Visit>, w: seq<Visit>, k: nat)
    requires SameRoute(r, w) && k < |r|
    ensures PreviousPlace(c, t, r, k) == PreviousPlace(c, t, w, k) && NextPlace(c, t, r, k) == NextPlace(c, t, w, k)
    ensures ReturnLeg(c, t, r) == ReturnLeg(c, t, w) && r[|r| - 1].plan.finish == w[|w| - 1].plan.finish
    ensures StartedFirst(c, r[k], k) == StartedFirst(c, w[k], k)
    ensures w[k].plan.travel == Leg(c, t, r, k) ==> Leg(c, t, w, k) == Leg(c, t, r, k)
  {
    hide Place;
  }
}
