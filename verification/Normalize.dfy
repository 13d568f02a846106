/**
  Rebuilding every derived fact of a schedule from its routes and the business
  data, and why doing it twice changes nothing: the final check of a schedule
  rebuilds it once more and compares.
 */
module Normalize {
  import opened Domain
  import opened Sorting

  datatype Evidence = Evidence(
    eligible: seq<Id>,
    windowStart: nat,
    windowEnd: nat,
    reportedAt: Option<nat>,
    readyAt: nat,
    arrival: int,
    start: int,
    finish: int,
    leg: int,
    returnTravel: int,
    returnAt: int,
    overtime: int,
    insertionDelta: int,
    sourceSequence: int,
    sourceHash: Option<nat>,
    planPrint: nat,
    alternatives: map<Id, int>)

  /** An assignment with everything that is derived from it; an empty source hash is `None`. */
  datatype Visit = Visit(
    plan: Assignment,
    locked: bool,
    changed: bool,
    sourceSequence: int,
    sourceHash: Option<nat>,
    planPrint: nat,
    evidence: Option<Evidence>)

  /** A schedule result: the figures stand for KPIs, the score for breakdown and objective. */
  datatype Result = Result(visits: seq<Visit>, unassigned: seq<Id>, figures: nat, score: real)

  /**
    What a normalisation depends on. The fingerprints, the KPIs and the score
    are functions of what the program hashes or computes them from.
   */
  datatype Context = Context(
    scenario: Scenario,
    travel: Travel,
    source: Option<seq<Visit>>,
    frozenStarted: set<Id>,
    projections: map<Id, Point>,
    sourcePrint: (Id, Id, int, int) -> nat,
    planningPrint: (Id, Id) -> nat,
    figures: (seq<Visit>, seq<Id>) -> nat,
    score: (nat, seq<Visit>, seq<Id>) -> real)

  // ----- routes -----

  predicate BySequence(a: Visit, b: Visit) {
    a.plan.sequence <= b.plan.sequence
  }

  function OfTechnician(s: seq<Visit>, t: Id): seq<Visit> {
    if s == [] then []
    else OfTechnician(s[..|s| - 1], t) + if s[|s| - 1].plan.techId == t then [s[|s| - 1]] else []
  }

  function RouteOf(s: seq<Visit>, t: Id): seq<Visit> {
    Sort(BySequence, OfTechnician(s, t))
  }

  /** The technicians of a list in order of first appearance, as grouping meets them. */
  function Groups(s: seq<Visit>): seq<Id> {
    if s == [] then []
    else
      var front, t := Groups(s[..|s| - 1]), s[|s| - 1].plan.techId;
      if t in front then front else front + [t]
  }

  // ----- changed flags -----

  function RoutePredecessors(r: seq<Visit>): map<Id, Option<Id>> {
    if r == [] then map[]
    else
      RoutePredecessors(r[..|r| - 1])[r[|r| - 1].plan.orderId :=
        if |r| == 1 then None else Some(r[|r| - 2].plan.orderId)]
  }

  /** A later group overwrites an earlier one. */
  function Predecessors(s: seq<Visit>, groups: seq<Id>): map<Id, Option<Id>> {
    if groups == [] then map[]
    else Predecessors(s, groups[..|groups| - 1]) + RoutePredecessors(RouteOf(s, groups[|groups| - 1]))
  }

  function Lookup(preds: map<Id, Option<Id>>, id: Id): Option<Id> {
    if id in preds then preds[id] else None
  }

  function OrderSet(s: seq<Visit>): set<Id> {
    set v | v in s :: v.plan.orderId
  }

  function Among(s: seq<Visit>, ids: set<Id>): seq<Visit> {
    if s == [] then []
    else Among(s[..|s| - 1], ids) + if s[|s| - 1].plan.orderId in ids then [s[|s| - 1]] else []
  }

  /** `{item.work_order_id: item for item in items}`. */
  function LastOf(s: seq<Visit>, id: Id): Option<Visit> {
    if s == [] then None
    else if s[|s| - 1].plan.orderId == id then Some(s[|s| - 1])
    else LastOf(s[..|s| - 1], id)
  }

  function Distance(a: int, b: int): nat {
    if a >= b then a - b else b - a
  }

  /** Is this visit of the list a change against the source? */
  predicate Differs(source: Option<seq<Visit>>, s: seq<Visit>, v: Visit) {
    source.Some? &&
    var before := Among(source.value, OrderSet(s));
    var was := LastOf(before, v.plan.orderId);
    was.Some? &&
    (|| was.value.plan.techId != v.plan.techId
     || Lookup(Predecessors(before, Groups(before)), v.plan.orderId) != Lookup(Predecessors(s, Groups(s)), v.plan.orderId)
     || Distance(was.value.plan.start, v.plan.start) > 15)
  }

  /** `changes.get(order.id, False)`: one flag per order, from the last visit of the order in list order. */
  predicate Changed(source: Option<seq<Visit>>, s: seq<Visit>, id: Id) {
    var last := LastOf(s, id);
    last.Some? && Differs(source, s, last.value)
  }

  // ----- one visit -----

  function Place(c: Context, id: Id): Point {
    var orders := OrderIndex(c.scenario.orders);
    if id in orders then orders[id].location else Point(0.0, 0.0)
  }

  function Places(c: Context, r: seq<Visit>): seq<Point> {
    seq(|r|, i requires 0 <= i < |r| => Place(c, r[i].plan.orderId))
  }

  function Without(r: seq<Visit>, id: Id): seq<Visit> {
    if r == [] then []
    else Without(r[..|r| - 1], id) + if r[|r| - 1].plan.orderId == id then [] else [r[|r| - 1]]
  }

  function Detour(m: Travel, from: Point, via: Point, to: Point): int {
    m(from, via) + m(via, to) - m(from, to)
  }

  /** The least detour through `via` over the first n + 1 legs. */
  function LeastDetour(m: Travel, stops: seq<Point>, via: Point, n: nat): int
    requires n + 1 < |stops|
  {
    var here := Detour(m, stops[n], via, stops[n + 1]);
    if n == 0 then here else Min(LeastDetour(m, stops, via, n - 1), here)
  }

  /** `cheapest_delta`. */
  function CheapestDelta(c: Context, t: Technician, r: seq<Visit>, id: Id): int {
    var stops := [t.depot] + Places(c, Without(r, id)) + [t.depot];
    LeastDetour(c.travel, stops, Place(c, id), |stops| - 2)
  }

  function EligibleIds(ts: seq<Technician>, o: WorkOrder): seq<Id> {
    if ts == [] then []
    else EligibleIds(ts[..|ts| - 1], o) + if CanServe(ts[|ts| - 1], o) then [ts[|ts| - 1].id] else []
  }

  function Alternatives(c: Context, s: seq<Visit>, ts: seq<Technician>, t: Id, o: WorkOrder): map<Id, int> {
    if ts == [] then map[]
    else
      var front, last := Alternatives(c, s, ts[..|ts| - 1], t, o), ts[|ts| - 1];
      var known := TechnicianIndex(c.scenario.technicians);
      if last.id != t && last.id in EligibleIds(c.scenario.technicians, o) && last.id in known then
        front[last.id := CheapestDelta(c, known[last.id], RouteOf(s, last.id), o.id)]
      else front
  }

  predicate StartedFirst(c: Context, v: Visit, k: nat) {
    k == 0 && v.plan.orderId in c.frozenStarted
  }

  function PreviousPlace(c: Context, t: Technician, r: seq<Visit>, k: nat): Point
    requires k < |r|
  {
    if k == 0 && t.id in c.projections && r[k].plan.orderId !in c.frozenStarted then c.projections[t.id]
    else if k == 0 then t.depot
    else Place(c, r[k - 1].plan.orderId)
  }

  function NextPlace(c: Context, t: Technician, r: seq<Visit>, k: nat): Point
    requires k < |r|
  {
    if k == |r| - 1 then t.depot else Place(c, r[k + 1].plan.orderId)
  }

  function Leg(c: Context, t: Technician, r: seq<Visit>, k: nat): int
    requires k < |r|
  {
    if StartedFirst(c, r[k], k) then r[k].plan.travel
    else c.travel(PreviousPlace(c, t, r, k), Place(c, r[k].plan.orderId))
  }

  function ReturnLeg(c: Context, t: Technician, r: seq<Visit>): int
    requires r != []
  {
    c.travel(Place(c, r[|r| - 1].plan.orderId), t.depot)
  }

  predicate Locked(c: Context, o: Id, t: Id) {
    o in LockIndex(c.scenario.locks) && LockIndex(c.scenario.locks)[o] == t
  }

  /** The k-th visit of a route with every derived field rebuilt; the list `s` is the whole schedule. */
  function Rebuilt(c: Context, s: seq<Visit>, t: Technician, o: WorkOrder, r: seq<Visit>, k: nat): Visit
    requires k < |r|
  {
    var v := r[k];
    var leg := Leg(c, t, r, k);
    var returnAt := r[|r| - 1].plan.finish + ReturnLeg(c, t, r);
    var sequence := if v.sourceSequence != 0 then v.sourceSequence else v.plan.sequence;
    var hash := if v.sourceHash.Some? then v.sourceHash
                else Some(c.sourcePrint(v.plan.orderId, v.plan.techId, v.plan.start, v.plan.finish));
    var planPrint := c.planningPrint(v.plan.orderId, v.plan.techId);
    Visit(
      v.plan.(travel := leg, slaLate := Max(0, v.plan.finish - o.slaDeadline)),
      Locked(c, o.id, t.id), Changed(c.source, s, v.plan.orderId), sequence, hash, planPrint,
      Some(Evidence(
        EligibleIds(c.scenario.technicians, o), o.windowStart, o.windowEnd, o.reportedAt, ReadyAt(o),
        v.plan.arrival, v.plan.start, v.plan.finish, leg, ReturnLeg(c, t, r), returnAt, Max(0, returnAt - t.shiftEnd),
        Detour(c.travel, PreviousPlace(c, t, r, k), Place(c, o.id), NextPlace(c, t, r, k)),
        sequence, hash, planPrint,
        Alternatives(c, s, c.scenario.technicians, t.id, o))))
  }

  // ----- the whole schedule -----

  /** Every visit names a technician and an order of the scenario; otherwise the lookup fails. */
  predicate Known(c: Context, s: seq<Visit>) {
    forall v :: v in s ==>
      v.plan.techId in TechnicianIndex(c.scenario.technicians) && v.plan.orderId in OrderIndex(c.scenario.orders)
  }

  function RebuiltRoute(c: Context, s: seq<Visit>, t: Technician, r: seq<Visit>, n: nat): (q: seq<Visit>)
    requires n <= |r| && Known(c, r)
    ensures |q| == n
  {
    if n == 0 then []
    else RebuiltRoute(c, s, t, r, n - 1)
         + [Rebuilt(c, s, t, OrderIndex(c.scenario.orders)[r[n - 1].plan.orderId], r, n - 1)]
  }

  /** Sorting by technician and sequence puts the routes one behind the other. */
  function RebuiltRoutes(c: Context, s: seq<Visit>, ts: seq<Id>): seq<Visit>
    requires Known(c, s) && forall t :: t in ts ==> t in TechnicianIndex(c.scenario.technicians)
  {
    if ts == [] then []
    else
      var t, r := TechnicianIndex(c.scenario.technicians)[ts[|ts| - 1]], RouteOf(s, ts[|ts| - 1]);
      KnownRoute(c, s, ts[|ts| - 1]);
      RebuiltRoutes(c, s, ts[..|ts| - 1]) + RebuiltRoute(c, s, t, r, |r|)
  }

  lemma {:induction false} OfTechnicianMembers(s: seq<Visit>, t: Id, v: Visit)
    ensures v in OfTechnician(s, t) <==> v in s && v.plan.techId == t
  {
    if s != [] {
      assert s == s[..|s| - 1] + [s[|s| - 1]];
      OfTechnicianMembers(s[..|s| - 1], t, v);
    }
  }

  lemma RouteOfMembers(s: seq<Visit>, t: Id, v: Visit)
    ensures v in RouteOf(s, t) <==> v in s && v.plan.techId == t
  {
    OfTechnicianMembers(s, t, v);
    SortMembers(BySequence, OfTechnician(s, t), v);
  }

  lemma KnownRoute(c: Context, s: seq<Visit>, t: Id)
    requires Known(c, s)
    ensures Known(c, RouteOf(s, t))
  {
    forall v | v in RouteOf(s, t) ensures v in s {
      RouteOfMembers(s, t, v);
    }
  }

  lemma {:induction false} GroupsMembers(s: seq<Visit>, t: Id)
    ensures t in Groups(s) <==> exists v :: v in s && v.plan.techId == t
  {
    if s != [] {
      var front, last := s[..|s| - 1], s[|s| - 1];
      assert s == front + [last];
      GroupsMembers(front, t);
    }
  }

  function Crew(s: seq<Visit>): (ts: seq<Id>)
    ensures |ts| == |Groups(s)|
  {
    Sort(RankOrder, Groups(s))
  }

  lemma CrewKnown(c: Context, s: seq<Visit>)
    requires Known(c, s)
    ensures forall t :: t in Crew(s) ==> t in TechnicianIndex(c.scenario.technicians)
  {
    forall t | t in Crew(s) ensures t in TechnicianIndex(c.scenario.technicians) {
      SortMembers(RankOrder, Groups(s), t);
      GroupsMembers(s, t);
    }
  }

  function Normalized(c: Context, r: Result): Result
    requires Known(c, r.visits)
  {
    CrewKnown(c, r.visits);
    var visits := RebuiltRoutes(c, r.visits, Crew(r.visits));
    var figures := c.figures(visits, r.unassigned);
    Result(visits, r.unassigned, figures, c.score(figures, visits, r.unassigned))
  }

  method RebuildRoute(c: Context, s: seq<Visit>, t: Technician, r: seq<Visit>) returns (rebuilt: seq<Visit>)
    requires Known(c, r)
    ensures rebuilt == RebuiltRoute(c, s, t, r, |r|)
  {
    hide Rebuilt;
    rebuilt := [];
    for k := 0 to |r|
      invariant rebuilt == RebuiltRoute(c, s, t, r, k)
    {
      rebuilt := rebuilt + [Rebuilt(c, s, t, OrderIndex(c.scenario.orders)[r[k].plan.orderId], r, k)];
    }
  }

  /** `normalize_schedule`; `None` stands for the failed lookup of an unknown technician or order. */
  method NormalizeSchedule(c: Context, r: Result) returns (n: Option<Result>)
    ensures n == if Known(c, r.visits) then Some(Normalized(c, r)) else None
  {
    if !Known(c, r.visits) {
      return None;
    }
    CrewKnown(c, r.visits);
    var crew, technicians := Crew(r.visits), TechnicianIndex(c.scenario.technicians);
    hide Rebuilt, RebuiltRoute, RouteOf;
    var visits: seq<Visit> := [];
    for i := 0 to |crew|
      invariant visits == RebuiltRoutes(c, r.visits, crew[..i])
    {
      assert crew[..i + 1][..i] == crew[..i];
      var t, route := technicians[crew[i]], RouteOf(r.visits, crew[i]);
      KnownRoute(c, r.visits, crew[i]);
      var rebuilt := RebuildRoute(c, r.visits, t, route);
      visits := visits + rebuilt;
    }
    assert crew[..|crew|] == crew;
    var figures := c.figures(visits, r.unassigned);
    n := Some(Result(visits, r.unassigned, figures, c.score(figures, visits, r.unassigned)));
  }
}
