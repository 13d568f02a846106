/**
  When normalising twice is normalising once. The only derived fact that can
  change in a second pass is the flag of an order listed more than once, because
  the flags go by the last listed visit and a normalised list is sorted by
  technician and sequence. The comparison that closes `verify_schedule` can
  therefore raise no error on a normalised schedule without repeated orders.
 */
module NormalizeFixpoint {
  import opened Domain
  import opened Sorting
  import opened Normalize
  import opened NormalizeTheorems

  // ----- the list sorted by technician and sequence -----

  function RosterOf(s: seq<Visit>, ts: seq<Id>): seq<Visit> {
    if ts == [] then [] else RosterOf(s, ts[..|ts| - 1]) + RouteOf(s, ts[|ts| - 1])
  }

  /** The given list in the order in which a normalisation returns it. */
  function Roster(s: seq<Visit>): seq<Visit> {
    RosterOf(s, Crew(s))
  }

  lemma {:induction false} RosterIsRebuilt(c: Context, s: seq<Visit>, ts: seq<Id>)
    requires Known(c, s) && forall t :: t in ts ==> t in TechnicianIndex(c.scenario.technicians)
    ensures SameRoute(RosterOf(s, ts), RebuiltRoutes(c, s, ts))
  {
    hide RouteOf, RebuiltRoute, Known;
    if ts != [] {
      var front, last := ts[..|ts| - 1], ts[|ts| - 1];
      assert ts == front + [last];
      RosterIsRebuilt(c, s, front);
      NewRouteFacts(c, s, last);
    }
  }

  lemma {:induction false} RosterApart(s: seq<Visit>, ts: seq<Id>, t: Id)
    requires Distinct(ts)
    ensures OfTechnician(RosterOf(s, ts), t) == if t in ts then RouteOf(s, t) else []
  {
    hide RouteOf;
    if ts != [] {
      var front, last := ts[..|ts| - 1], ts[|ts| - 1];
      assert ts == front + [last];
      RosterApart(s, front, t);
      OfTechnicianJoin(RosterOf(s, front), RouteOf(s, last), t);
      forall v | v in RouteOf(s, last) ensures v.plan.techId == last {
        RouteOfMembers(s, last, v);
      }
      if t == last {
        OfTechnicianAll(RouteOf(s, last), t);
      } else {
        OfTechnicianNone(RouteOf(s, last), t);
      }
    }
  }

  lemma {:induction false} RosterMembers(s: seq<Visit>, ts: seq<Id>, v: Visit)
    ensures v in RosterOf(s, ts) <==> v in s && v.plan.techId in ts
  {
    hide RouteOf;
    if ts != [] {
      var front, last := ts[..|ts| - 1], ts[|ts| - 1];
      assert ts == front + [last];
      RosterMembers(s, front, v);
      RouteOfMembers(s, last, v);
    }
  }

  lemma RosterShape(s: seq<Visit>)
    ensures SameShape(s, Roster(s)) && forall v :: v in Roster(s) <==> v in s
  {
    var q := Roster(s);
    CrewFacts(s);
    forall v ensures v in q <==> v in s {
      RosterMembers(s, Crew(s), v);
    }
    forall t ensures Visits(s, t) <==> Visits(q, t) {
    }
    SameCrew(s, q);
    forall t ensures SameRoute(RouteOf(s, t), RouteOf(q, t)) {
      RosterApart(s, Crew(s), t);
      BySequenceIsTotal();
      SortSorted(BySequence, OfTechnician(s, t));
      SortIdentity(BySequence, RouteOf(s, t));
      if t !in Crew(s) && RouteOf(s, t) != [] {
        RouteOfMembers(s, t, RouteOf(s, t)[0]);
      }
    }
  }

  // ----- the flags read only order, technician, sequence and start -----

  lemma {:induction false} SameInsert(r: seq<Visit>, q: seq<Visit>, a: Visit, b: Visit)
    requires SameStops(r, q) && SameStop(a, b)
    ensures SameStops(Insert(BySequence, r, a), Insert(BySequence, q, b))
  {
    if r != [] && !BySequence(r[|r| - 1], a) {
      SameInsert(r[..|r| - 1], q[..|q| - 1], a, b);
    }
  }

  lemma {:induction false} SameSort(r: seq<Visit>, q: seq<Visit>)
    requires SameStops(r, q)
    ensures SameStops(Sort(BySequence, r), Sort(BySequence, q))
  {
    if r != [] {
      SameSort(r[..|r| - 1], q[..|q| - 1]);
      SameInsert(Sort(BySequence, r[..|r| - 1]), Sort(BySequence, q[..|q| - 1]), r[|r| - 1], q[|q| - 1]);
    }
  }

  lemma {:induction false} SameGrouping(s: seq<Visit>, q: seq<Visit>, t: Id)
    requires SameStops(s, q)
    ensures SameStops(OfTechnician(s, t), OfTechnician(q, t)) && Groups(s) == Groups(q)
  {
    if s != [] {
      SameGrouping(s[..|s| - 1], q[..|q| - 1], t);
      assert SameStop(s[|s| - 1], q[|q| - 1]);
    }
  }

  lemma {:induction false} SameRecords(s: seq<Visit>, q: seq<Visit>, groups: seq<Id>)
    requires SameStops(s, q)
    ensures Predecessors(s, groups) == Predecessors(q, groups)
  {
    if groups != [] {
      var last := groups[|groups| - 1];
      SameRecords(s, q, groups[..|groups| - 1]);
      SameGrouping(s, q, last);
      SameSort(OfTechnician(s, last), OfTechnician(q, last));
      SamePredecessors(RouteOf(s, last), RouteOf(q, last));
    }
  }

  /** The last visit of an order is at the same position. */
  lemma {:induction false} SameLast(s: seq<Visit>, q: seq<Visit>, id: Id) returns (i: nat)
    requires SameStops(s, q)
    ensures LastOf(s, id).None? ==> LastOf(q, id).None?
    ensures LastOf(s, id).Some? ==> i < |s| && LastOf(s, id) == Some(s[i]) && LastOf(q, id) == Some(q[i])
  {
    if s == [] {
      i := 0;
    } else if s[|s| - 1].plan.orderId == id {
      i := |s| - 1;
      assert SameStop(s[i], q[i]);
    } else {
      assert SameStop(s[|s| - 1], q[|q| - 1]);
      i := SameLast(s[..|s| - 1], q[..|q| - 1], id);
    }
  }

  lemma SameOrders(s: seq<Visit>, q: seq<Visit>)
    requires SameStops(s, q)
    ensures OrderSet(s) == OrderSet(q)
  {
    forall id ensures id in OrderSet(s) <==> id in OrderSet(q) {
      if v :| v in s && v.plan.orderId == id {
        var i :| 0 <= i < |s| && s[i] == v;
        assert SameStop(s[i], q[i]) && q[i] in q;
      }
      if w :| w in q && w.plan.orderId == id {
        var i :| 0 <= i < |q| && q[i] == w;
        assert SameStop(s[i], q[i]) && s[i] in s;
      }
    }
  }

  function Recorded(s: seq<Visit>, id: Id): Option<Id> {
    Lookup(Predecessors(s, Groups(s)), id)
  }

  lemma SameStopsSameRecords(s: seq<Visit>, q: seq<Visit>, id: Id)
    requires SameStops(s, q)
    ensures OrderSet(s) == OrderSet(q) && Recorded(s, id) == Recorded(q, id)
  {
    SameOrders(s, q);
    SameGrouping(s, q, id);
    SameRecords(s, q, Groups(s));
  }

  lemma SameListSameFlag(source: Option<seq<Visit>>, s: seq<Visit>, q: seq<Visit>, id: Id)
    requires SameRoute(s, q)
    ensures Changed(source, s, id) == Changed(source, q, id)
  {
    SameStopsSameRecords(s, q, id);
    var i := SameLast(s, q, id);
    hide LastOf, Among, Predecessors, Groups, OrderSet;
    if LastOf(s, id).Some? {
      assert SameBones(s[i], q[i]);
      LastOfMembers(s, id);
    }
  }

  // ----- the fixpoint, exactly -----

  /** Every order has the same flag in both lists. */
  ghost predicate FlagsKept(source: Option<seq<Visit>>, s: seq<Visit>, q: seq<Visit>) {
    forall id :: id in OrderSet(s) ==> Changed(source, s, id) == Changed(source, q, id)
  }

  lemma NewRouteTwice(c: Context, s: seq<Visit>, q: seq<Visit>, t: Id)
    requires Known(c, s) && Known(c, q) && SameShape(s, q) && FlagsKept(c.source, s, q)
    requires t in TechnicianIndex(c.scenario.technicians) && RouteOf(q, t) == NewRoute(c, s, t)
    ensures NewRoute(c, q, t) == RouteOf(q, t)
  {
    hide SameShape, RouteOf, Rebuilt, Changed;
    var tech, r, w := TechnicianIndex(c.scenario.technicians)[t], RouteOf(s, t), RouteOf(q, t);
    KnownRoute(c, s, t);
    KnownRoute(c, q, t);
    RebuiltBones(c, s, tech, r);
    hide RebuiltRoute;
    forall k | 0 <= k < |w| ensures NewRoute(c, q, t)[k] == w[k] {
      RebuiltRouteAt(c, s, tech, r, |r|, k);
      RebuiltRouteAt(c, q, tech, w, |w|, k);
      var o := OrderIndex(c.scenario.orders)[r[k].plan.orderId];
      RouteOfMembers(s, t, r[k]);
      RebuiltTwice(c, s, q, tech, o, r, w, k);
      RebuiltFlag(c, s, tech, o, r, k);
    }
  }

  lemma RebuiltFlag(c: Context, s: seq<Visit>, t: Technician, o: WorkOrder, r: seq<Visit>, k: nat)
    requires k < |r|
    ensures Rebuilt(c, s, t, o, r, k).changed == Changed(c.source, s, r[k].plan.orderId)
  {
  }

  lemma {:induction false} RoutesTwice(c: Context, s: seq<Visit>, q: seq<Visit>, ts: seq<Id>)
    requires Known(c, s) && Known(c, q) && SameShape(s, q) && FlagsKept(c.source, s, q)
    requires forall t :: t in ts ==> t in TechnicianIndex(c.scenario.technicians) && RouteOf(q, t) == NewRoute(c, s, t)
    ensures RebuiltRoutes(c, q, ts) == RebuiltRoutes(c, s, ts)
  {
    hide SameShape, FlagsKept, RouteOf, RebuiltRoute, Known;
    if ts != [] {
      var front, last := ts[..|ts| - 1], ts[|ts| - 1];
      assert ts == front + [last];
      RoutesTwice(c, s, q, front);
      NewRouteTwice(c, s, q, last);
    }
  }

  lemma NormalizedFacts(c: Context, r: Result)
    requires Known(c, r.visits)
    ensures var s, q := r.visits, Normalized(c, r).visits;
            && Known(c, q) && SameShape(s, q) && SameRoute(Roster(s), q) && OrderSet(q) == OrderSet(s)
            && (forall t :: t in Crew(s) ==> t in TechnicianIndex(c.scenario.technicians))
            && (forall t :: t in Crew(s) ==> RouteOf(q, t) == NewRoute(c, s, t))
  {
    var s := r.visits;
    CrewKnown(c, s);
    NormalizedShape(c, s);
    RosterIsRebuilt(c, s, Crew(s));
    var q := Normalized(c, r).visits;
    forall t | t in Crew(s) ensures RouteOf(q, t) == NewRoute(c, s, t) {
      NewRouteIsRoute(c, s, t);
    }
    ShapeKeepsOrders(s, q);
  }

  /** Normalising once more changes nothing. */
  ghost predicate Fixed(c: Context, r: Result)
    requires Known(c, r.visits)
  {
    Known(c, Normalized(c, r).visits) && Normalized(c, Normalized(c, r)) == Normalized(c, r)
  }

  lemma KeptFlagsAreFixed(c: Context, r: Result)
    requires Known(c, r.visits) && FlagsKept(c.source, r.visits, Normalized(c, r).visits)
    ensures Fixed(c, r)
  {
    var s, q := r.visits, Normalized(c, r).visits;
    NormalizedFacts(c, r);
    hide Crew, RebuiltRoutes, RouteOf, Known, NewRoute, FlagsKept;
    RoutesTwice(c, s, q, Crew(s));
    assert Crew(q) == Crew(s);
  }

  lemma FixedKeepsFlags(c: Context, r: Result)
    requires Known(c, r.visits) && Fixed(c, r)
    ensures FlagsKept(c.source, r.visits, Normalized(c, r).visits)
  {
    var s, q := r.visits, Normalized(c, r).visits;
    NormalizedFacts(c, r);
    NormalizedFacts(c, Normalized(c, r));
    CrewFacts(s);
    hide Normalized, Crew, RouteOf, Known, Changed, SameRoute;
    forall id | id in OrderSet(s) ensures Changed(c.source, s, id) == Changed(c.source, q, id) {
      var v :| v in s && v.plan.orderId == id;
      var t := v.plan.techId;
      assert t in Crew(s) && Crew(q) == Crew(s);
      RouteOfMembers(s, t, v);
      var k :| 0 <= k < |RouteOf(s, t)| && RouteOf(s, t)[k] == v;
      FlagAt(c, s, t, k);
      SameIdAt(s, q, t, k);
      FlagAt(c, q, t, k);
    }
  }

  lemma SameIdAt(s: seq<Visit>, q: seq<Visit>, t: Id, k: nat)
    requires SameShape(s, q) && k < |RouteOf(s, t)|
    ensures k < |RouteOf(q, t)| && RouteOf(q, t)[k].plan.orderId == RouteOf(s, t)[k].plan.orderId
  {
    assert SameRoute(RouteOf(s, t), RouteOf(q, t));
    hide RouteOf;
    assert SameBones(RouteOf(s, t)[k], RouteOf(q, t)[k]);
  }

  lemma FlagAt(c: Context, s: seq<Visit>, t: Id, k: nat)
    requires Known(c, s) && t in TechnicianIndex(c.scenario.technicians) && k < |RouteOf(s, t)|
    ensures k < |NewRoute(c, s, t)|
    ensures NewRoute(c, s, t)[k].changed == Changed(c.source, s, RouteOf(s, t)[k].plan.orderId)
  {
    KnownRoute(c, s, t);
    RebuiltRouteAt(c, s, TechnicianIndex(c.scenario.technicians)[t], RouteOf(s, t), |RouteOf(s, t)|, k);
    hide RebuiltRoute, RouteOf, Changed;
  }

  /**
    Normalising twice is normalising once if and only if sorting the list by
    technician and sequence changes no order's flag.
   */
  lemma FixedExactly(c: Context, r: Result)
    requires Known(c, r.visits)
    ensures Fixed(c, r) <==> FlagsKept(c.source, r.visits, Roster(r.visits))
  {
    var s, q := r.visits, Normalized(c, r).visits;
    NormalizedFacts(c, r);
    hide Normalized, Roster, Fixed, Changed, SameRoute, Known;
    forall id ensures Changed(c.source, Roster(s), id) == Changed(c.source, q, id) {
      SameListSameFlag(c.source, Roster(s), q, id);
    }
    if Fixed(c, r) {
      FixedKeepsFlags(c, r);
    }
    if FlagsKept(c.source, s, Roster(s)) {
      KeptFlagsAreFixed(c, r);
    }
  }

  // ----- no repeated order -----

  lemma {:induction false} RosterDistinct(s: seq<Visit>, ts: seq<Id>)
    requires DistinctOrders(s) && Distinct(ts)
    ensures DistinctOrders(RosterOf(s, ts))
  {
    hide RouteOf;
    if ts != [] {
      var front, last := ts[..|ts| - 1], ts[|ts| - 1];
      assert ts == front + [last];
      RosterDistinct(s, front);
      RouteDistinct(s, last);
      DistinctOrdersExactly(s);
      forall x, y | x in RosterOf(s, front) && y in RouteOf(s, last) ensures x.plan.orderId != y.plan.orderId {
        RosterMembers(s, front, x);
        RouteOfMembers(s, last, y);
      }
    }
  }

  /** Normalising twice is normalising once, as long as no order is listed twice. */
  lemma NormalizedIsFixpoint(c: Context, r: Result)
    requires Known(c, r.visits) && DistinctOrders(r.visits)
    ensures Known(c, Normalized(c, r).visits) && DistinctOrders(Normalized(c, r).visits)
    ensures Normalized(c, Normalized(c, r)) == Normalized(c, r)
  {
    var s := r.visits;
    CrewFacts(s);
    RosterDistinct(s, Crew(s));
    RosterShape(s);
    NormalizedFacts(c, r);
    FixedExactly(c, r);
    hide Normalized, Roster, Changed, Known, RosterOf, SameShape;
    forall id | id in OrderSet(s) ensures Changed(c.source, s, id) == Changed(c.source, Roster(s), id) {
      var v :| v in s && v.plan.orderId == id;
      SameChangedFlag(c.source, s, Roster(s), v, v);
    }
    var q := Normalized(c, r).visits;
    forall i, j | 0 <= i < j < |q| ensures q[i].plan.orderId != q[j].plan.orderId {
      assert SameBones(Roster(s)[i], q[i]) && SameBones(Roster(s)[j], q[j]);
    }
  }

  // ----- whatever the source -----

  /**
    The last listed visit of every order and its last visit in roster order
    agree on technician, start and recorded predecessor.
   */
  ghost predicate Settled(s: seq<Visit>) {
    forall id :: id in OrderSet(s) ==>
      var v, w := LastOf(s, id), LastOf(Roster(s), id);
      v.Some? && w.Some? && v.value.plan.techId == w.value.plan.techId && v.value.plan.start == w.value.plan.start
      && Recorded(s, id) == Recorded(Roster(s), id)
  }

  /** The same list with every start a quarter of an hour later. */
  function Later(s: seq<Visit>): (r: seq<Visit>)
    ensures SameStops(s, r)
  {
    seq(|s|, i requires 0 <= i < |s| => s[i].(plan := s[i].plan.(start := s[i].plan.start + 15)))
  }

  lemma {:induction false} AmongAll(s: seq<Visit>, ids: set<Id>)
    requires OrderSet(s) <= ids
    ensures Among(s, ids) == s
  {
    if s != [] {
      assert s == s[..|s| - 1] + [s[|s| - 1]];
      assert s[|s| - 1].plan.orderId in OrderSet(s);
      AmongAll(s[..|s| - 1], ids);
    }
  }

  /** Against a later copy of itself a list has an unchanged order, and any other list with these orders is judged by it. */
  lemma AgainstLater(s: seq<Visit>, q: seq<Visit>, id: Id)
    requires OrderSet(s) == OrderSet(q) && id in OrderSet(s)
    ensures LastOf(s, id).Some? && LastOf(q, id).Some?
    ensures Changed(Some(Later(s)), q, id) <==>
              var v, w := LastOf(s, id).value, LastOf(q, id).value;
              v.plan.techId != w.plan.techId || Recorded(s, id) != Recorded(q, id)
              || Distance(v.plan.start + 15, w.plan.start) > 15
  {
    hide Among, Predecessors, Groups, LastOf, OrderSet, Later;
    var before := Later(s);
    SameStopsSameRecords(s, before, id);
    AmongAll(before, OrderSet(q));
    LaterLast(s, id);
    OrderIsLast(s, id);
    OrderIsLast(q, id);
  }

  lemma OrderIsLast(s: seq<Visit>, id: Id)
    requires id in OrderSet(s)
    ensures LastOf(s, id).Some? && LastOf(s, id).value.plan.orderId == id
  {
    LastOfMembers(s, id);
  }

  lemma LaterLast(s: seq<Visit>, id: Id)
    requires id in OrderSet(s)
    ensures LastOf(s, id).Some? && LastOf(Later(s), id).Some?
    ensures var v, w := LastOf(s, id).value, LastOf(Later(s), id).value;
            w.plan.techId == v.plan.techId && w.plan.start == v.plan.start + 15
  {
    OrderIsLast(s, id);
    var i := SameLast(s, Later(s), id);
    hide LastOf;
  }

  /** If two lists judge an order alike against every source, they agree on it. */
  lemma SettledFrom(s: seq<Visit>, q: seq<Visit>, id: Id)
    requires OrderSet(s) == OrderSet(q) && id in OrderSet(s)
    requires Changed(Some(Later(s)), s, id) == Changed(Some(Later(s)), q, id)
    requires Changed(Some(Later(q)), s, id) == Changed(Some(Later(q)), q, id)
    ensures var v, w := LastOf(s, id), LastOf(q, id);
            v.Some? && w.Some? && v.value.plan.techId == w.value.plan.techId && v.value.plan.start == w.value.plan.start
            && Recorded(s, id) == Recorded(q, id)
  {
    hide Changed, LastOf, Recorded, Later, OrderSet;
    AgainstLater(s, s, id);
    AgainstLater(s, q, id);
    AgainstLater(q, s, id);
    AgainstLater(q, q, id);
  }

  lemma SettledSuffices(source: Option<seq<Visit>>, s: seq<Visit>)
    requires Settled(s)
    ensures FlagsKept(source, s, Roster(s))
  {
    RosterShape(s);
    ShapeKeepsOrders(s, Roster(s));
    forall id | id in OrderSet(s) ensures Changed(source, s, id) == Changed(source, Roster(s), id) {
      LastOfMembers(s, id);
      LastOfMembers(Roster(s), id);
      hide Roster, LastOf, Predecessors, Groups, Among, SameShape;
    }
  }

  lemma SameKnown(c: Context, source: Option<seq<Visit>>, s: seq<Visit>)
    requires Known(c, s)
    ensures Known(c.(source := source), s)
  {
  }

  /** Whatever the schedule is compared with, normalising is idempotent exactly on settled lists. */
  lemma FixedForEverySource(c: Context, r: Result)
    requires Known(c, r.visits)
    ensures (forall source :: Known(c.(source := source), r.visits) && Fixed(c.(source := source), r)) <==> Settled(r.visits)
  {
    hide Fixed, Settled, Roster, Changed, Known;
    var s := r.visits;
    forall source ensures Known(c.(source := source), s)
                          && (Fixed(c.(source := source), r) <==> FlagsKept(source, s, Roster(s))) {
      SameKnown(c, source, s);
      FixedExactly(c.(source := source), r);
    }
    if Settled(s) {
      forall source ensures FlagsKept(source, s, Roster(s)) {
        SettledSuffices(source, s);
      }
    } else {
      NotSettled(s);
    }
  }

  lemma NotSettled(s: seq<Visit>)
    requires !Settled(s)
    ensures !FlagsKept(Some(Later(s)), s, Roster(s)) || !FlagsKept(Some(Later(Roster(s))), s, Roster(s))
  {
    RosterShape(s);
    ShapeKeepsOrders(s, Roster(s));
    hide Roster, Changed, Recorded, LastOf, Later, SameShape, OrderSet;
    if FlagsKept(Some(Later(s)), s, Roster(s)) && FlagsKept(Some(Later(Roster(s))), s, Roster(s)) {
      forall id | id in OrderSet(s)
        ensures var v, w := LastOf(s, id), LastOf(Roster(s), id);
                v.Some? && w.Some? && v.value.plan.techId == w.value.plan.techId
                && v.value.plan.start == w.value.plan.start && Recorded(s, id) == Recorded(Roster(s), id)
      {
        SettledFrom(s, Roster(s), id);
      }
    }
  }

  // ----- the comparison at the end of the verification -----

  datatype Mismatch =
    | TravelTime(order: Id) | SlaLateness(order: Id) | ChangedFlag(order: Id) | LockedFlag(order: Id)
    | EvidenceOf(order: Id) | KpiMismatch | ScoreMismatch

  function Differences(v: Visit, e: Visit): set<Mismatch> {
    var id := v.plan.orderId;
    (if v.plan.travel != e.plan.travel then {TravelTime(id)} else {})
    + (if v.plan.slaLate != e.plan.slaLate then {SlaLateness(id)} else {})
    + (if v.changed != e.changed then {ChangedFlag(id)} else {})
    + (if v.locked != e.locked then {LockedFlag(id)} else {})
    + (if v.evidence != e.evidence then {EvidenceOf(id)} else {})
  }

  /** The renormalisation block runs only without unknown or repeated work orders. */
  predicate Comparable(c: Context, r: Result) {
    Known(c, r.visits) && DistinctOrders(r.visits)
  }

  /** The renormalised counterpart of a visit: `expected_by_id[assignment.work_order_id]`. */
  lemma ExpectedExists(c: Context, r: Result, v: Visit)
    requires Comparable(c, r) && v in r.visits
    ensures LastOf(Normalized(c, r).visits, v.plan.orderId).Some?
  {
    NormalizedFacts(c, r);
    hide Normalized, RebuiltRoutes, Crew, RouteOf;
    var w := Twin(r.visits, Normalized(c, r).visits, v);
    LastOfMembers(Normalized(c, r).visits, v.plan.orderId);
  }

  /** The mismatch errors of `verify_schedule` for a comparable schedule. */
  method CompareDerived(c: Context, r: Result) returns (errors: set<Mismatch>)
    requires Comparable(c, r)
    ensures forall m :: m in errors <==> MismatchIn(c, r, m)
  {
    hide Normalized, Differences, LastOf;
    var n := Normalized(c, r);
    errors := {};
    for i := 0 to |r.visits|
      invariant forall m :: m in errors <==> exists j :: 0 <= j < i && DiffersAt(c, r, j, m)
    {
      ExpectedExists(c, r, r.visits[i]);
      var e := LastOf(n.visits, r.visits[i].plan.orderId);
      assert forall m :: DiffersAt(c, r, i, m) <==> m in Differences(r.visits[i], e.value);
      errors := errors + Differences(r.visits[i], e.value);
    }
    if n.figures != r.figures {
      errors := errors + {KpiMismatch};
    }
    if n.score != r.score {
      errors := errors + {ScoreMismatch};
    }
  }

  ghost predicate DiffersAt(c: Context, r: Result, j: nat, m: Mismatch)
    requires Comparable(c, r) && j < |r.visits|
  {
    var e := LastOf(Normalized(c, r).visits, r.visits[j].plan.orderId);
    e.Some? && m in Differences(r.visits[j], e.value)
  }

  ghost predicate MismatchIn(c: Context, r: Result, m: Mismatch)
    requires Comparable(c, r)
  {
    || (exists j :: 0 <= j < |r.visits| && DiffersAt(c, r, j, m))
    || (m.KpiMismatch? && Normalized(c, r).figures != r.figures)
    || (m.ScoreMismatch? && Normalized(c, r).score != r.score)
  }

  /** No mismatch error can fire on a normalised schedule. */
  lemma NormalizedHasNoMismatch(c: Context, r: Result, m: Mismatch)
    requires Comparable(c, r)
    ensures Comparable(c, Normalized(c, r)) && !MismatchIn(c, Normalized(c, r), m)
  {
    NormalizedIsFixpoint(c, r);
    var n := Normalized(c, r);
    hide Normalized;
    forall j | 0 <= j < |n.visits| ensures !DiffersAt(c, n, j, m) {
      LastOfDistinct(n.visits, n.visits[j]);
    }
  }

  // ----- a repeated order -----

  const SOLE := Id(1)
  const TWICE := Id(2)
  const BETWEEN := Id(3)

  function Stop(order: Id, sequence: int, start: int): Visit {
    Visit(Assignment(order, SOLE, sequence, start, start, start + 10, 0, 0), false, false, 0, None, 0, None)
  }

  const SOURCE := [Stop(BETWEEN, 1, 50), Stop(TWICE, 2, 200)]
  const REPEATED := [Stop(TWICE, 3, 200), Stop(BETWEEN, 2, 150), Stop(TWICE, 1, 100)]

  function OrderAt(id: Id): WorkOrder {
    WorkOrder(id, {1}, Point(0.0, 0.0), 10, 0, 1000, 1000, Normal, false, 1, Status.Pending, None)
  }

  function RepeatedDay(): Context {
    Context(Scenario([Technician(SOLE, {1}, 0, 1000, Point(0.0, 0.0), 0, 100)], [OrderAt(TWICE), OrderAt(BETWEEN)], []),
            (a, b) => 0, Some(SOURCE), {}, map[], (o, t, s, f) => 0, (o, t) => 0, (v, u) => 0, (k, v, u) => 0.0)
  }

  lemma RepeatedKnown()
    ensures Known(RepeatedDay(), REPEATED) && OneHolder(REPEATED)
  {
    var day := RepeatedDay().scenario;
    assert day.technicians[..0] == [] && day.orders[..1] == [OrderAt(TWICE)] && [OrderAt(TWICE)][..0] == [];
    assert OrderIndex([OrderAt(TWICE)]) == map[TWICE := OrderAt(TWICE)];
  }

  lemma RepeatedGrouping()
    ensures OfTechnician(REPEATED, SOLE) == REPEATED && Crew(REPEATED) == [SOLE]
  {
    var a, b := REPEATED[0], REPEATED[1];
    OfTechnicianAll(REPEATED, SOLE);
    assert REPEATED[..2] == [a, b] && [a, b][..1] == [a] && [a][..0] == [];
    assert Groups([a]) == [SOLE];
    assert Groups([a, b]) == [SOLE];
    assert [SOLE][..0] == [] && Sort(RankOrder, [SOLE]) == [SOLE];
  }

  lemma RepeatedRoute()
    ensures Sort(BySequence, REPEATED) == [REPEATED[2], REPEATED[1], REPEATED[0]]
  {
    var a, b, c := REPEATED[0], REPEATED[1], REPEATED[2];
    assert REPEATED[..2] == [a, b] && [a, b][..1] == [a] && [a][..0] == [] && [b, a][..1] == [b] && [b][..0] == [];
    assert Sort(BySequence, [a]) == [a];
    assert Insert(BySequence, [a], b) == [b, a];
    assert Sort(BySequence, [a, b]) == [b, a];
    assert Insert(BySequence, [b], c) == [c, b];
    assert Insert(BySequence, [b, a], c) == [c, b, a];
  }

  lemma RepeatedFacts()
    ensures Known(RepeatedDay(), REPEATED) && OneHolder(REPEATED) && Crew(REPEATED) == [SOLE]
    ensures RouteOf(REPEATED, SOLE) == [REPEATED[2], REPEATED[1], REPEATED[0]]
  {
    hide Known, OneHolder, Crew, Sort;
    RepeatedKnown();
    RepeatedGrouping();
    RepeatedRoute();
  }

  lemma SourceFacts(ids: set<Id>)
    requires ids == {TWICE, BETWEEN}
    ensures Among(SOURCE, ids) == SOURCE && OneHolder(SOURCE) && RouteOf(SOURCE, SOLE) == SOURCE
    ensures LastOf(SOURCE, TWICE) == Some(SOURCE[1])
    ensures Lookup(RoutePredecessors(SOURCE), TWICE) == Some(BETWEEN)
  {
    var a, b := SOURCE[0], SOURCE[1];
    assert SOURCE[..1] == [a] && [a][..0] == [];
    assert Among([a], ids) == [a];
    assert OfTechnician([a], SOLE) == [a] && OfTechnician(SOURCE, SOLE) == SOURCE;
    assert Sort(BySequence, []) == [] && Sort(BySequence, [a]) == [a];
  }

  /** The first pass judges the order by its last listed visit, which moved by 100 minutes. */
  lemma FirstPassChanged()
    ensures Changed(Some(SOURCE), REPEATED, TWICE)
  {
    assert OrderSet(REPEATED) == {TWICE, BETWEEN} by {
      assert REPEATED[0] in REPEATED && REPEATED[1] in REPEATED;
    }
    SourceFacts(OrderSet(REPEATED));
  }

  lemma RepeatedRoster()
    ensures Roster(REPEATED) == [REPEATED[2], REPEATED[1], REPEATED[0]]
  {
    RepeatedFacts();
    hide Crew, RouteOf;
    assert [SOLE][..0] == [] && RosterOf(REPEATED, []) == [];
    assert RosterOf(REPEATED, [SOLE]) == [] + RouteOf(REPEATED, SOLE);
  }

  /** In roster order it is judged by the visit that did not move. */
  lemma SortedUnchanged(q: seq<Visit>)
    requires q == [REPEATED[2], REPEATED[1], REPEATED[0]] && OneHolder(q) && RouteOf(q, SOLE) == q
    ensures !Changed(Some(SOURCE), q, TWICE)
  {
    assert OrderSet(q) == {TWICE, BETWEEN} by {
      assert q[0] in q && q[1] in q;
    }
    SourceFacts(OrderSet(q));
    PredecessorInList(SOURCE, SOURCE[1]);
    PredecessorInList(q, q[2]);
    assert Lookup(RoutePredecessors(q), TWICE) == Some(BETWEEN);
    hide RoutePredecessors, Predecessors, RouteOf, Groups, Among;
    assert LastOf(q, TWICE) == Some(q[2]);
  }

  lemma RosterIsRoute()
    ensures var q := Roster(REPEATED); OneHolder(q) && RouteOf(q, SOLE) == q
  {
    RepeatedRoster();
    var q := Roster(REPEATED);
    OfTechnicianAll(q, SOLE);
    SortIdentity(BySequence, q);
  }

  /**
    With a repeated order a second normalisation can undo a flag of the first,
    even when one technician holds both visits.
   */
  lemma RepeatedOrderIsNotFixed()
    ensures var c, r := RepeatedDay(), Result(REPEATED, [], 0, 0.0);
            && Known(c, r.visits) && OneHolder(r.visits) && !DistinctOrders(r.visits)
            && Known(c, Normalized(c, r).visits)
            && Normalized(c, Normalized(c, r)) != Normalized(c, r)
  {
    hide Normalized, Crew, RouteOf, Roster, Known, SameShape, Changed;
    var c, r := RepeatedDay(), Result(REPEATED, [], 0, 0.0);
    RepeatedFacts();
    RepeatedRoster();
    RosterIsRoute();
    NormalizedFacts(c, r);
    FixedExactly(c, r);
    FirstPassChanged();
    SortedUnchanged(Roster(REPEATED));
    assert REPEATED[0] in REPEATED && REPEATED[0].plan.orderId == REPEATED[2].plan.orderId;
  }
}
