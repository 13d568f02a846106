/**
  Capacity options (`_capacity_scenario`, `_tail_append_counterfactual`): relax
  the day, append the unserved orders to route tails, and check the result
  against the committed plan. The program only checks afterwards; here the
  check is proved never to fail.
 */
module Capacity {
  import opened Domain
  import opened Sorting
  import opened Routes
  import opened Feasibility
  import opened Greedy
  import V = Verifier

  datatype Relaxation =
    | AddTechnician(candidate: Technician)
    | AddSkill(techId: Id, skill: nat)
    | ExtendShift
    | AllowOvertime

  /** The change one option makes to one existing technician. */
  function Adjust(x: Relaxation, t: Technician): Technician {
    match x
    case AddTechnician(_) => t
    case AddSkill(id, skill) => if t.id == id then t.(skills := t.skills + {skill}) else t
    case ExtendShift => t.(shiftEnd := if t.shiftEnd + 60 <= 1800 then t.shiftEnd + 60 else 1800)
    case AllowOvertime => t.(overtimeLimit := if t.overtimeLimit + 60 <= 240 then t.overtimeLimit + 60 else 240)
  }

  function AdjustAll(x: Relaxation, ts: seq<Technician>): (r: seq<Technician>)
    ensures |r| == |ts|
  {
    if ts == [] then [] else AdjustAll(x, ts[..|ts| - 1]) + [Adjust(x, ts[|ts| - 1])]
  }

  function Relax(sc: Scenario, x: Relaxation): Scenario {
    sc.(technicians := AdjustAll(x, sc.technicians) + if x.AddTechnician? then [x.candidate] else [])
  }

  /** `for technician in alternative.technicians`: the loop that rewrites the copied technicians. */
  method CapacityScenario(sc: Scenario, x: Relaxation) returns (alternative: Scenario, changed: bool)
    ensures alternative == Relax(sc, x)
    ensures changed <==> alternative.technicians != sc.technicians
  {
    var ts: seq<Technician> := [];
    changed := false;
    for i := 0 to |sc.technicians|
      invariant ts == AdjustAll(x, sc.technicians[..i])
      invariant changed <==> ts != sc.technicians[..i]
    {
      hide Adjust;
      var t := Adjust(x, sc.technicians[i]);
      changed := changed || t != sc.technicians[i];
      AdjustGrows(x, sc.technicians, i);
      SnocEqual(ts, t, sc.technicians[..i], sc.technicians[i]);
      ts := ts + [t];
    }
    assert sc.technicians[..|sc.technicians|] == sc.technicians;
    if x.AddTechnician? {
      ts := ts + [x.candidate];
      changed := true;
    }
    alternative := sc.(technicians := ts);
    assert x.AddTechnician? || AdjustAll(x, sc.technicians) + [] == AdjustAll(x, sc.technicians);
  }

  lemma AdjustGrows(x: Relaxation, ts: seq<Technician>, i: nat)
    requires i < |ts|
    ensures ts[..i + 1] == ts[..i] + [ts[i]]
    ensures AdjustAll(x, ts[..i + 1]) == AdjustAll(x, ts[..i]) + [Adjust(x, ts[i])]
  {
    hide Adjust;
    assert ts[..i + 1][..i] == ts[..i];
  }

  lemma SnocEqual(s: seq<Technician>, a: Technician, r: seq<Technician>, b: Technician)
    requires |s| == |r|
    ensures s + [a] == r + [b] <==> s == r && a == b
  {
    if s + [a] == r + [b] {
      assert s == (s + [a])[..|s|] == (r + [b])[..|r|] == r;
      assert a == (s + [a])[|s|] == (r + [b])[|r|];
    }
  }

  // ----- relaxing a day keeps every accepted schedule accepted -----

  predicate Easier(t: Technician, t': Technician) {
    && t'.id == t.id && t'.shiftStart == t.shiftStart && t'.depot == t.depot
    && t.skills <= t'.skills && Limit(t) <= Limit(t')
  }

  ghost predicate Relaxed(u: Rules, u': Rules) {
    && u' == u.(technicians := u'.technicians, external := u'.external)
    && (forall t :: t in u.technicians ==> t in u'.technicians && Easier(u.technicians[t], u'.technicians[t]))
  }

  lemma {:induction false} AdjustedIndex(x: Relaxation, ts: seq<Technician>, id: Id)
    ensures id in TechnicianIndex(AdjustAll(x, ts)) <==> id in TechnicianIndex(ts)
    ensures id in TechnicianIndex(ts) ==> TechnicianIndex(AdjustAll(x, ts))[id] == Adjust(x, TechnicianIndex(ts)[id])
  {
    if ts != [] {
      AdjustedIndex(x, ts[..|ts| - 1], id);
    }
  }

  lemma {:induction false} AdjustAllAt(x: Relaxation, ts: seq<Technician>, i: nat)
    requires i < |ts|
    ensures AdjustAll(x, ts)[i] == Adjust(x, ts[i])
  {
    hide Adjust;
    if i < |ts| - 1 {
      AdjustAllAt(x, ts[..|ts| - 1], i);
    }
  }

  /** A changed technician keeps identity, start and depot, and can only do more. */
  lemma AdjustEases(x: Relaxation, t: Technician)
    ensures ValidTechnician(t) ==> Easier(t, Adjust(x, t))
    ensures ValidTechnician(t) ==> ValidTechnician(Adjust(x, t))
    ensures Adjust(x, t).id == t.id
  {
  }

  /** What a candidate technician must satisfy; the other options need nothing. */
  predicate Admissible(sc: Scenario, x: Relaxation) {
    x.AddTechnician? ==> ValidTechnician(x.candidate) && x.candidate.id !in TechnicianIds(sc.technicians)
  }

  lemma RelaxedTechnicians(sc: Scenario, x: Relaxation)
    requires ValidScenario(sc)
    ensures TechnicianIds(Relax(sc, x).technicians)
         == TechnicianIds(sc.technicians) + if x.AddTechnician? then [x.candidate.id] else []
    ensures forall t :: t in Relax(sc, x).technicians ==>
              ValidTechnician(t) || (x.AddTechnician? && t == x.candidate)
  {
    hide Adjust, AdjustAll, ValidTechnician;
    var ts, ts' := sc.technicians, Relax(sc, x).technicians;
    forall i | 0 <= i < |ts| ensures ts'[i].id == ts[i].id && ValidTechnician(ts'[i]) {
      AdjustAllAt(x, ts, i);
      AdjustEases(x, ts[i]);
      assert ts[i] in ts;
    }
  }

  lemma RelaxedIndex(sc: Scenario, x: Relaxation, id: Id)
    requires ValidScenario(sc) && Distinct(TechnicianIds(Relax(sc, x).technicians)) && id in TechnicianIndex(sc.technicians)
    ensures id in TechnicianIndex(Relax(sc, x).technicians)
    ensures Easier(TechnicianIndex(sc.technicians)[id], TechnicianIndex(Relax(sc, x).technicians)[id])
  {
    var ts, ts' := sc.technicians, Relax(sc, x).technicians;
    var t := TechnicianIndex(ts)[id];
    TechnicianIndexSound(ts, id);
    AdjustedIndex(x, ts, id);
    AdjustEases(x, t);
    TechnicianIndexSound(AdjustAll(x, ts), id);
    hide Adjust, AdjustAll, TechnicianIndex, Easier;
    assert Adjust(x, t) in ts';
    TechnicianIndexComplete(ts', Adjust(x, t));
  }

  /**
    Re-validating the relaxed scenario never fails: training, longer shifts and
    more overtime keep every validator, and a hired candidate does exactly when
    it is a valid technician with a new id.
   */
  lemma RelaxedIsValid(sc: Scenario, x: Relaxation)
    requires ValidScenario(sc)
    ensures ValidScenario(Relax(sc, x)) <==> Admissible(sc, x)
  {
    RelaxedTechnicians(sc, x);
    var ids := TechnicianIds(sc.technicians);
    if x.AddTechnician? {
      DistinctAppend(ids, x.candidate.id);
      assert x.candidate in Relax(sc, x).technicians;
    } else {
      assert ids + [] == ids;
    }
    if Admissible(sc, x) {
      RelaxedLocks(sc, x);
    }
  }

  lemma RelaxedLocks(sc: Scenario, x: Relaxation)
    requires ValidScenario(sc) && Distinct(TechnicianIds(Relax(sc, x).technicians))
    ensures forall l :: l in sc.locks ==> ValidLock(Relax(sc, x), l)
  {
    hide Adjust, AdjustAll, TechnicianIndex, ActiveOrders;
    forall l | l in sc.locks ensures ValidLock(Relax(sc, x), l) {
      assert ValidLock(sc, l);
      RelaxedIndex(sc, x, l.techId);
      assert ActiveOrders(Relax(sc, x)) == ActiveOrders(sc) by {
        SameActiveOrders(sc, x);
      }
    }
  }

  lemma SameActiveOrders(sc: Scenario, x: Relaxation)
    ensures ActiveOrders(Relax(sc, x)) == ActiveOrders(sc)
  {
    hide Adjust, AdjustAll;
  }

  /** Every option relaxes the rules of the checker. */
  lemma RelaxRelaxes(sc: Scenario, x: Relaxation, travel: Travel, entries: map<Id, RouteEntry>, frozen: set<Id>)
    requires ValidScenario(sc) && Admissible(sc, x)
    ensures Relaxed(RulesOf(sc, travel, entries, frozen, {}, false),
                    RulesOf(Relax(sc, x), travel, entries, frozen, {}, false))
  {
    RelaxedIsValid(sc, x);
    SameActiveOrders(sc, x);
    hide TechnicianIndex, Easier, ActiveOrders, LockIndex, ValidLock, ValidTechnician, ValidOrder;
    forall id | id in TechnicianIndex(sc.technicians)
      ensures id in TechnicianIndex(Relax(sc, x).technicians)
              && Easier(TechnicianIndex(sc.technicians)[id], TechnicianIndex(Relax(sc, x).technicians)[id])
    {
      RelaxedIndex(sc, x, id);
    }
  }

  lemma {:induction false} RelaxedCursor(u: Rules, u': Rules, t: Technician, t': Technician, r: seq<Assignment>, k: nat)
    requires Relaxed(u, u') && Easier(t, t') && k <= |r|
    ensures CursorAt(u', t', r, k) == CursorAt(u, t, r, k)
  {
    if k > 0 {
      RelaxedCursor(u, u', t, t', r, k - 1);
    }
  }

  lemma RelaxedRoute(u: Rules, u': Rules, t: Technician, t': Technician, r: seq<Assignment>)
    requires Relaxed(u, u') && Easier(t, t') && RouteAccepted(u, t, r)
    ensures RouteAccepted(u', t', r)
  {
    forall k | 0 <= k < |r| ensures VisitOk(u', t', r, k) {
      assert VisitOk(u, t, r, k);
      RelaxedCursor(u, u', t, t', r, k);
    }
    RelaxedCursor(u, u', t, t', r, |r|);
  }

  lemma RelaxedRoutes(u: Rules, u': Rules, s: Schedule, left: seq<Id>)
    requires Relaxed(u, u') && RoutesAccepted(u, s)
    ensures RoutesAccepted(u', Schedule(s.assignments, left))
  {
    forall a | a in s.assignments
      ensures a.techId in u'.technicians
           && RouteAccepted(u', u'.technicians[a.techId], Route(s.assignments, a.techId))
    {
      RelaxedRoute(u, u', u.technicians[a.techId], u'.technicians[a.techId], Route(s.assignments, a.techId));
    }
  }

  /** Anything accepted stays accepted when a technician is added or made more capable. */
  lemma AcceptedUnderRelaxation(u: Rules, u': Rules, s: Schedule)
    requires Relaxed(u, u') && u'.external == u.external && Accepted(u, s)
    ensures Accepted(u', s)
  {
    RelaxedRoutes(u, u', s, s.unassigned);
  }

  // ----- the append loop -----

  /** `key=(sla_deadline, window_end, id)`. */
  predicate DueOrder(a: WorkOrder, b: WorkOrder) {
    || a.slaDeadline < b.slaDeadline
    || (a.slaDeadline == b.slaDeadline && a.windowEnd < b.windowEnd)
    || (a.slaDeadline == b.slaDeadline && a.windowEnd == b.windowEnd && a.id.rank <= b.id.rank)
  }

  /** `key=(technician_id, sequence)`. */
  predicate RosterOrder(a: Assignment, b: Assignment) {
    a.techId.rank < b.techId.rank || (a.techId == b.techId && a.sequence <= b.sequence)
  }

  lemma OrdersAreTotal()
    ensures TotalPreorder(DueOrder) && TotalPreorder(RosterOrder)
  {
  }

  /** The orders named in a list, each once, skipping ids the scenario does not know. */
  function Known(orders: map<Id, WorkOrder>, ids: seq<Id>): seq<WorkOrder> {
    if ids == [] then []
    else
      var front, id := ids[..|ids| - 1], ids[|ids| - 1];
      Known(orders, front) + (if id in front || id !in orders then [] else [orders[id]])
  }

  function Waiting(orders: map<Id, WorkOrder>, ids: seq<Id>): seq<WorkOrder> {
    Sort(DueOrder, Known(orders, ids))
  }

  /** The grouped and sorted routes of a schedule. */
  function RoutesOf(s: seq<Assignment>): map<Id, seq<Assignment>> {
    map t | t in V.TechIds(s) :: Route(s, t)
  }

  function YardOf(sc: Scenario, travel: Travel, entries: map<Id, RouteEntry>): Yard {
    Yard(sc.technicians, OrderIndex(sc.orders), travel, entries, map[])
  }

  ghost predicate KeyedOrders(orders: map<Id, WorkOrder>) {
    forall i :: i in orders ==> orders[i].id == i
  }

  ghost predicate VisitsKnown(orders: map<Id, WorkOrder>, s: seq<Assignment>) {
    forall a :: a in s ==> a.orderId in orders
  }

  lemma RoutesOfKnown(y: Yard, s: seq<Assignment>)
    requires VisitsKnown(y.orders, s)
    ensures StopsKnown(y, RoutesOf(s))
    ensures forall t :: RouteIn(RoutesOf(s), t) == Route(s, t)
  {
    var routes: map<Id, seq<Assignment>> := RoutesOf(s);
    forall t, i | t in routes && 0 <= i < |routes[t]| ensures routes[t][i].orderId in y.orders {
      RouteMembers(s, t, routes[t][i]);
    }
    forall t ensures RouteIn(routes, t) == Route(s, t) {
      if t !in routes && Route(s, t) != [] {
        RouteMembers(s, t, Route(s, t)[0]);
      }
    }
  }

  lemma {:induction false} KnownMembers(orders: map<Id, WorkOrder>, ids: seq<Id>, o: WorkOrder)
    requires KeyedOrders(orders)
    ensures o in Known(orders, ids) <==> o.id in ids && o.id in orders && orders[o.id] == o
  {
    if ids != [] {
      var front, id := ids[..|ids| - 1], ids[|ids| - 1];
      assert ids == front + [id];
      KnownMembers(orders, front, o);
      if id in front && id in orders {
        KnownMembers(orders, front, orders[id]);
      }
    }
  }

  lemma WaitingKnown(y: Yard, ids: seq<Id>)
    requires KeyedOrders(y.orders)
    ensures OrdersKnown(y, Waiting(y.orders, ids))
    ensures forall o :: o in Waiting(y.orders, ids) ==> o.id in ids
  {
    forall o | o in Waiting(y.orders, ids) ensures o.id in y.orders && y.orders[o.id] == o && o.id in ids {
      SortMembers(DueOrder, Known(y.orders, ids), o);
      KnownMembers(y.orders, ids, o);
    }
  }

  lemma OrderKeys(sc: Scenario)
    ensures KeyedOrders(OrderIndex(sc.orders))
  {
    forall i | i in OrderIndex(sc.orders) ensures OrderIndex(sc.orders)[i].id == i {
      OrderIndexSound(sc.orders, i);
    }
  }

  /** The board after the loop, before the final sort of the roster. */
  function Appended(y: Yard, s: Schedule): Board
    requires KeyedOrders(y.orders)
    requires VisitsKnown(y.orders, s.assignments)
  {
    RoutesOfKnown(y, s.assignments);
    WaitingKnown(y, s.unassigned);
    Run(y, Board(RoutesOf(s.assignments), s.assignments, []), Waiting(y.orders, s.unassigned))
  }

  function TailAppended(y: Yard, s: Schedule): Schedule
    requires KeyedOrders(y.orders)
    requires VisitsKnown(y.orders, s.assignments)
  {
    var b := Appended(y, s);
    Schedule(Sort(RosterOrder, b.visits), b.left)
  }

  /** One technician's entry in `choices`, or none. */
  method Consider(y: Yard, routes: map<Id, seq<Assignment>>, o: WorkOrder, t: Technician)
    returns (choice: Option<Offer>)
    requires StopsKnown(y, routes) && y.locked == map[]
    ensures choice == if Available(y, routes, t, o) then Some(OfferFrom(y, t, Tail(y, routes, t), o)) else None
  {
    if !(o.skills <= t.skills) {
      return None;
    }
    var route := if t.id in routes then routes[t.id] else [];
    var at: int, place;
    if route != [] {
      var tail := route[|route| - 1];
      at, place := tail.finish, y.orders[tail.orderId].location;
    } else if t.id in y.entries {
      at, place := y.entries[t.id].availableAt, y.entries[t.id].location;
    } else {
      at, place := t.shiftStart, t.depot;
    }
    var travel := y.travel(place, o.location);
    var arrival := at + travel;
    var start := Max(arrival, ReadyAt(o));
    var finish := start + o.duration;
    var terminal := if t.id in y.entries then y.entries[t.id].returnTo else t.depot;
    var home := y.travel(o.location, terminal);
    if start <= o.windowEnd && finish + home <= t.shiftEnd + t.overtimeLimit {
      return Some(Offer(start, travel, finish, arrival, t));
    }
    return None;
  }

  method Choices(y: Yard, routes: map<Id, seq<Assignment>>, o: WorkOrder) returns (choices: seq<Offer>)
    requires StopsKnown(y, routes) && y.locked == map[]
    ensures choices == Offers(y, routes, o, |y.technicians|)
  {
    choices := [];
    for i := 0 to |y.technicians|
      invariant choices == Offers(y, routes, o, i)
    {
      var choice := Consider(y, routes, o, y.technicians[i]);
      if choice.Some? {
        choices := choices + [choice.value];
      }
    }
  }

  /** The body of the loop over the pending orders. */
  method AppendOne(y: Yard, routes: map<Id, seq<Assignment>>, visits: seq<Assignment>, left: seq<Id>, o: WorkOrder)
    returns (routes': map<Id, seq<Assignment>>, visits': seq<Assignment>, left': seq<Id>)
    requires StopsKnown(y, routes) && y.locked == map[] && o.id in y.orders
    ensures Board(routes', visits', left') == Step(y, Board(routes, visits, left), o)
  {
    routes', visits', left' := routes, visits, left;
    var choices := Choices(y, routes, o);
    if choices == [] {
      left' := left + [o.id];
    } else {
      var f := Cheapest(choices);
      var route := if f.tech.id in routes then routes[f.tech.id] else [];
      var visit := Assignment(o.id, f.tech.id, |route| + 1, f.arrival, f.start, f.finish, f.travel,
                              Max(0, f.finish - o.slaDeadline));
      routes' := routes[f.tech.id := route + [visit]];
      visits' := visits + [visit];
    }
  }

  method AppendAll(y: Yard, start: Board, pending: seq<WorkOrder>) returns (b: Board)
    requires StopsKnown(y, start.routes) && y.locked == map[] && OrdersKnown(y, pending)
    ensures b == Run(y, start, pending)
  {
    var routes, visits, left := start.routes, start.visits, start.left;
    for i := 0 to |pending|
      invariant StopsKnown(y, routes)
      invariant Board(routes, visits, left) == Run(y, start, pending[..i])
    {
      assert pending[..i + 1][..i] == pending[..i];
      routes, visits, left := AppendOne(y, routes, visits, left, pending[i]);
    }
    assert pending[..|pending|] == pending;
    b := Board(routes, visits, left);
  }

  method SortedRoutes(s: seq<Assignment>) returns (routes: map<Id, seq<Assignment>>)
    ensures routes == RoutesOf(s)
  {
    var grouped := V.Grouped(s);
    routes := map t | t in grouped :: Sort(SequenceOrder, grouped[t]);
    forall t | t in grouped ensures Sort(SequenceOrder, grouped[t]) == Route(s, t) {
      assert V.Bucket(grouped, t) == grouped[t];
    }
  }

  /** `_tail_append_counterfactual`, loop by loop. */
  method TailAppendCounterfactual(sc: Scenario, selected: Schedule, travel: Travel, entries: map<Id, RouteEntry>)
    returns (result: Schedule)
    requires VisitsKnown(OrderIndex(sc.orders), selected.assignments)
    ensures KeyedOrders(OrderIndex(sc.orders))
    ensures result == TailAppended(YardOf(sc, travel, entries), selected)
  {
    OrderKeys(sc);
    var y := YardOf(sc, travel, entries);
    RoutesOfKnown(y, selected.assignments);
    WaitingKnown(y, selected.unassigned);
    var routes := SortedRoutes(selected.assignments);
    var b := AppendAll(y, Board(routes, selected.assignments, []), Waiting(y.orders, selected.unassigned));
    result := Schedule(Sort(RosterOrder, b.visits), b.left);
  }
}
