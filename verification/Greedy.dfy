/**
  The greedy insertion shared by `baseline_schedule` and the capacity
  counterfactual: orders are taken one by one in due order and appended to the
  route whose tail can start them first.
 */
module Greedy {
  import opened Domain
  import opened Routes
  import opened Feasibility

  /** What the insertion loop looks at. The counterfactual passes no locks, the baseline no entries. */
  datatype Yard = Yard(
    technicians: seq<Technician>,
    orders: map<Id, WorkOrder>,
    travel: Travel,
    entries: map<Id, RouteEntry>,
    locked: map<Id, Id>)

  datatype Offer = Offer(start: int, travel: int, finish: int, arrival: int, tech: Technician)

  /** The routes built so far, the flat list of their visits, and the orders nobody could take. */
  datatype Board = Board(routes: map<Id, seq<Assignment>>, visits: seq<Assignment>, left: seq<Id>)

  function RouteIn(routes: map<Id, seq<Assignment>>, t: Id): seq<Assignment> {
    if t in routes then routes[t] else []
  }

  ghost predicate StopsKnown(y: Yard, routes: map<Id, seq<Assignment>>) {
    forall t, i :: t in routes && 0 <= i < |routes[t]| ==> routes[t][i].orderId in y.orders
  }

  /** Where and when the route of `t` currently ends. */
  function Tail(y: Yard, routes: map<Id, seq<Assignment>>, t: Technician): Cursor
    requires StopsKnown(y, routes)
  {
    var r := RouteIn(routes, t.id);
    if r != [] then Cursor(r[|r| - 1].finish, y.orders[r[|r| - 1].orderId].location)
    else if t.id in y.entries then Cursor(y.entries[t.id].availableAt, y.entries[t.id].location)
    else Cursor(t.shiftStart, t.depot)
  }

  function End(y: Yard, t: Technician): Point {
    if t.id in y.entries then y.entries[t.id].returnTo else t.depot
  }

  function OfferFrom(y: Yard, t: Technician, c: Cursor, o: WorkOrder): Offer {
    var travel := y.travel(c.place, o.location);
    var start := Max(c.at + travel, ReadyAt(o));
    Offer(start, travel, start + o.duration, c.at + travel, t)
  }

  predicate Permitted(y: Yard, t: Technician, o: WorkOrder) {
    CanServe(t, o) && (o.id in y.locked ==> y.locked[o.id] == t.id)
  }

  /** The visit starts inside the window and the technician still gets home within the overtime limit. */
  predicate Fits(y: Yard, t: Technician, c: Cursor, o: WorkOrder) {
    var f := OfferFrom(y, t, c, o);
    f.start <= o.windowEnd && f.finish + y.travel(o.location, End(y, t)) <= Limit(t)
  }

  predicate Available(y: Yard, routes: map<Id, seq<Assignment>>, t: Technician, o: WorkOrder)
    requires StopsKnown(y, routes)
  {
    Permitted(y, t, o) && Fits(y, t, Tail(y, routes, t), o)
  }

  /** The offers of the first n technicians. */
  function Offers(y: Yard, routes: map<Id, seq<Assignment>>, o: WorkOrder, n: nat): (r: seq<Offer>)
    requires StopsKnown(y, routes) && n <= |y.technicians|
    ensures forall f :: f in r <==>
      exists i :: 0 <= i < n && Available(y, routes, y.technicians[i], o)
               && f == OfferFrom(y, y.technicians[i], Tail(y, routes, y.technicians[i]), o)
  {
    if n == 0 then []
    else
      var t := y.technicians[n - 1];
      Offers(y, routes, o, n - 1)
      + (if Available(y, routes, t, o) then [OfferFrom(y, t, Tail(y, routes, t), o)] else [])
  }

  /** The key order of the choice: earliest start, then least travel, then smallest id. */
  predicate NotAfter(a: Offer, b: Offer) {
    || a.start < b.start
    || (a.start == b.start && a.travel < b.travel)
    || (a.start == b.start && a.travel == b.travel && a.tech.id.rank <= b.tech.id.rank)
  }

  function Best(offers: seq<Offer>): (r: Offer)
    requires offers != []
    ensures r in offers && forall f :: f in offers ==> NotAfter(r, f)
  {
    if |offers| == 1 then offers[0]
    else
      var b := Best(offers[..|offers| - 1]);
      assert forall f :: f in offers ==> f in offers[..|offers| - 1] || f == offers[|offers| - 1];
      if NotAfter(b, offers[|offers| - 1]) then b else offers[|offers| - 1]
  }

  /** `min(choices, key=...)`. */
  method Cheapest(choices: seq<Offer>) returns (best: Offer)
    requires choices != []
    ensures best == Best(choices)
  {
    best := choices[0];
    for i := 1 to |choices|
      invariant best == Best(choices[..i])
    {
      assert choices[..i + 1][..i] == choices[..i];
      if !NotAfter(best, choices[i]) {
        best := choices[i];
      }
    }
    assert choices[..|choices|] == choices;
  }

  function VisitFor(o: WorkOrder, f: Offer, sequence: int): Assignment {
    Assignment(o.id, f.tech.id, sequence, f.arrival, f.start, f.finish, f.travel, Late(f.finish, o))
  }

  function Extended(b: Board, a: Assignment): Board {
    b.(routes := b.routes[a.techId := RouteIn(b.routes, a.techId) + [a]], visits := b.visits + [a])
  }

  function Place(b: Board, o: WorkOrder, f: Offer): Board {
    var r := RouteIn(b.routes, f.tech.id);
    Extended(b, VisitFor(o, f, |r| + 1))
  }

  /** One turn of the loop. */
  function Step(y: Yard, b: Board, o: WorkOrder): (r: Board)
    requires StopsKnown(y, b.routes) && o.id in y.orders
    ensures StopsKnown(y, r.routes)
  {
    var offers := Offers(y, b.routes, o, |y.technicians|);
    if offers == [] then b.(left := b.left + [o.id]) else Place(b, o, Best(offers))
  }

  ghost predicate OrdersKnown(y: Yard, pending: seq<WorkOrder>) {
    forall o :: o in pending ==> o.id in y.orders && y.orders[o.id] == o
  }

  function Run(y: Yard, b: Board, pending: seq<WorkOrder>): (r: Board)
    requires StopsKnown(y, b.routes) && OrdersKnown(y, pending)
    ensures StopsKnown(y, r.routes)
  {
    if pending == [] then b
    else Step(y, Run(y, b, pending[..|pending| - 1]), pending[|pending| - 1])
  }

  // ----- the loop keeps every route feasible -----

  lemma {:induction false} CursorPrefix(u: Rules, t: Technician, r: seq<Assignment>, a: Assignment, k: nat)
    requires k <= |r|
    ensures CursorAt(u, t, r + [a], k) == CursorAt(u, t, r, k)
  {
    if k > 0 {
      CursorPrefix(u, t, r, a, k - 1);
      assert (r + [a])[k - 1] == r[k - 1];
    }
  }

  lemma OriginPrefix(u: Rules, t: Technician, r: seq<Assignment>, a: Assignment, k: nat)
    requires k < |r|
    ensures Origin(u, t, r + [a], k) == Origin(u, t, r, k)
    ensures VisitOk(u, t, r + [a], k) == VisitOk(u, t, r, k)
  {
    CursorPrefix(u, t, r, a, k);
    assert (r + [a])[k] == r[k];
  }

  lemma RouteAcceptedAppend(u: Rules, t: Technician, r: seq<Assignment>, a: Assignment)
    requires RouteAccepted(u, t, r) && a.sequence == |r| + 1
    requires VisitOk(u, t, r + [a], |r|) && ReturnsInTime(u, t, r + [a])
    ensures RouteAccepted(u, t, r + [a])
  {
    forall k | 0 <= k < |r| + 1 ensures VisitOk(u, t, r + [a], k) {
      if k < |r| {
        OriginPrefix(u, t, r, a, k);
      }
    }
  }

  /** No active order belongs to the frozen past. */
  ghost predicate NothingFrozen(u: Rules) {
    u.frozen * u.orders.Keys == {}
  }

  /** A route entry names no future order, or one its own technician already serves. */
  ghost predicate EntriesServed(u: Rules, visits: seq<Assignment>) {
    forall t :: t in u.entries && u.entries[t].firstFuture.Some? ==>
      exists a :: a in visits && a.techId == t && a.orderId == u.entries[t].firstFuture.value
  }

  /** The yard of the loop and the rules of the checker describe the same day. */
  ghost predicate SameDay(y: Yard, u: Rules) {
    && WellKeyed(u)
    && Distinct(TechnicianIds(y.technicians))
    && u.technicians == TechnicianIndex(y.technicians)
    && (forall o :: o in u.orders ==> o in y.orders && y.orders[o] == u.orders[o])
    && y.travel == u.travel && y.entries == u.entries
    && NothingFrozen(u)
  }

  ghost predicate RoutesMatch(b: Board) {
    forall t :: RouteIn(b.routes, t) == Route(b.visits, t)
  }

  /** The state of the loop with `rest` still to be handled. */
  ghost predicate Progress(y: Yard, u: Rules, b: Board, rest: seq<Id>) {
    && StopsKnown(y, b.routes) && RoutesMatch(b)
    && EntriesServed(u, b.visits)
    && Covered(u, Schedule(b.visits, b.left + rest))
    && RoutesAccepted(u, Schedule(b.visits, b.left + rest))
  }

  lemma EmptyRoute(u: Rules, t: Technician)
    ensures RouteAccepted(u, t, [])
  {
  }

  lemma RouteOfBoard(u: Rules, s: Schedule, t: Technician)
    requires RoutesAccepted(u, s) && t.id in u.technicians && u.technicians[t.id] == t
    ensures RouteAccepted(u, t, Route(s.assignments, t.id))
    ensures forall k :: 0 <= k < |Route(s.assignments, t.id)| ==> Route(s.assignments, t.id)[k].orderId in u.orders
  {
    var r := Route(s.assignments, t.id);
    if r == [] {
      EmptyRoute(u, t);
    } else {
      RouteMembers(s.assignments, t.id, r[0]);
    }
    forall k | 0 <= k < |r| ensures r[k].orderId in u.orders {
      assert VisitOk(u, t, r, k);
    }
  }

  /** Behind an accepted route of unfrozen visits the technician stands at the last customer. */
  lemma CursorAtLast(u: Rules, t: Technician, r: seq<Assignment>)
    requires NothingFrozen(u) && RouteAccepted(u, t, r) && r != []
    ensures r[|r| - 1].orderId in u.orders
    ensures CursorAt(u, t, r, |r|) == Cursor(r[|r| - 1].finish, u.orders[r[|r| - 1].orderId].location)
  {
    assert VisitOk(u, t, r, |r| - 1);
    assert r[|r| - 1].orderId !in u.frozen * u.orders.Keys;
  }

  lemma EntryNotReopened(u: Rules, visits: seq<Assignment>, t: Id, a: Assignment)
    requires EntriesServed(u, visits) && a.orderId !in Ids(visits)
    ensures t in u.entries ==> u.entries[t].firstFuture != Some(a.orderId)
    ensures t in u.entries && Route(visits, t) == [] ==> u.entries[t].firstFuture.None?
  {
    if t in u.entries && u.entries[t].firstFuture.Some? {
      var v :| v in visits && v.techId == t && v.orderId == u.entries[t].firstFuture.value;
      IdListed(visits, v.orderId);
      RouteMembers(visits, t, v);
    }
  }

  /** The checker's cursor for a new last visit is exactly the tail the loop computed. */
  lemma TailIsOrigin(y: Yard, u: Rules, b: Board, t: Technician, a: Assignment)
    requires y.travel == u.travel && y.entries == u.entries && NothingFrozen(u)
    requires forall o :: o in u.orders ==> o in y.orders && y.orders[o] == u.orders[o]
    requires StopsKnown(y, b.routes) && RouteIn(b.routes, t.id) == Route(b.visits, t.id)
    requires EntriesServed(u, b.visits) && RouteAccepted(u, t, Route(b.visits, t.id))
    requires a.orderId in u.orders && a.orderId !in Ids(b.visits)
    ensures Origin(u, t, Route(b.visits, t.id) + [a], |Route(b.visits, t.id)|) == Tail(y, b.routes, t)
    ensures !FrozenPrefix(u, EntryOf(u, t.id), a)
  {
    var r := Route(b.visits, t.id);
    CursorPrefix(u, t, r, a, |r|);
    EntryNotReopened(u, b.visits, t.id, a);
    assert a.orderId !in u.frozen * u.orders.Keys;
    if r != [] {
      CursorAtLast(u, t, r);
    }
  }

  lemma TechnicianListed(y: Yard, u: Rules, t: Technician)
    requires SameDay(y, u) && t in y.technicians
    ensures t.id in u.technicians && u.technicians[t.id] == t
  {
    TechnicianIndexComplete(y.technicians, t);
  }

  /** A fitting offer yields an accepted longer route. */
  lemma PlacedRouteAccepted(y: Yard, u: Rules, b: Board, rest: seq<Id>, t: Technician, o: WorkOrder)
    requires SameDay(y, u) && Progress(y, u, b, rest)
    requires t.id in u.technicians && u.technicians[t.id] == t
    requires o.id in u.orders && u.orders[o.id] == o && o.id !in Ids(b.visits)
    requires CanServe(t, o) && LockRespected(u, o.id, t.id) && Fits(y, t, Tail(y, b.routes, t), o)
    ensures var r := Route(b.visits, t.id);
            RouteAccepted(u, t, r + [VisitFor(o, OfferFrom(y, t, Tail(y, b.routes, t), o), |r| + 1)])
  {
    var r := Route(b.visits, t.id);
    var a := VisitFor(o, OfferFrom(y, t, Tail(y, b.routes, t), o), |r| + 1);
    RouteOfBoard(u, Schedule(b.visits, b.left + rest), t);
    TailIsOrigin(y, u, b, t, a);
    CursorPrefix(u, t, r, a, |r|);
    assert (r + [a])[|r|] == a;
    RouteAcceptedAppend(u, t, r, a);
  }

  lemma CoveredMove(u: Rules, visits: seq<Assignment>, left: seq<Id>, left': seq<Id>, a: Assignment)
    requires Covered(u, Schedule(visits, left))
    requires a.orderId in left && Distinct(left') && Elements(left') == Elements(left) - {a.orderId}
    ensures Covered(u, Schedule(visits + [a], left'))
  {
    var ids, o := Ids(visits), a.orderId;
    var placed, open := Elements(ids), Elements(left);
    assert o in open && o !in placed * open;
    assert Ids(visits + [a]) == ids + [o];
    assert Elements(ids + [o]) == placed + {o};
    DistinctAppend(ids, o);
    assert (placed + {o}) * (open - {o}) == {};
    assert (placed + {o}) + (open - {o}) == placed + open;
  }

  lemma DistinctWithout(left: seq<Id>, o: Id, rest: seq<Id>)
    requires Distinct(left + ([o] + rest))
    ensures Distinct(left + rest)
    ensures Elements(left + rest) == Elements(left + ([o] + rest)) - {o}
  {
    var all := left + ([o] + rest);
    forall i, j | 0 <= i < j < |left + rest| ensures (left + rest)[i] != (left + rest)[j] {
      var i', j' := if i < |left| then i else i + 1, if j < |left| then j else j + 1;
      assert all[i'] == (left + rest)[i] && all[j'] == (left + rest)[j];
    }
    forall x ensures x in Elements(left + rest) <==> x in Elements(all) - {o} {
      assert all[|left|] == o;
      if x in left + rest {
        var i :| 0 <= i < |left + rest| && (left + rest)[i] == x;
        assert all[if i < |left| then i else i + 1] == x;
      }
    }
  }

  lemma RoutesAcceptedAppend(u: Rules, visits: seq<Assignment>, left: seq<Id>, left': seq<Id>, a: Assignment)
    requires WellKeyed(u) && RoutesAccepted(u, Schedule(visits, left))
    requires a.techId in u.technicians && a.sequence == |Route(visits, a.techId)| + 1
    requires RouteAccepted(u, u.technicians[a.techId], Route(visits, a.techId) + [a])
    ensures RoutesAccepted(u, Schedule(visits + [a], left'))
    ensures forall t :: Route(visits + [a], t) == Route(visits, t) + (if a.techId == t then [a] else [])
  {
    forall t ensures Route(visits + [a], t) == Route(visits, t) + (if a.techId == t then [a] else []) {
      if v :| v in visits && v.techId == t {
        assert RouteAccepted(u, u.technicians[t], Route(visits, t));
      } else {
        if Route(visits, t) != [] {
          RouteMembers(visits, t, Route(visits, t)[0]);
          assert false;
        }
      }
      RouteAppend(visits, t, a);
    }
    forall x | x in visits + [a]
      ensures x.techId in u.technicians && RouteAccepted(u, u.technicians[x.techId], Route(visits + [a], x.techId))
    {
      if x.techId != a.techId {
        assert Route(visits, x.techId) + [] == Route(visits, x.techId);
        assert x in visits;
      }
    }
  }

  /** Moving one order from the uncovered list to the end of a route that accepts it. */
  lemma ExtendKeepsProgress(y: Yard, u: Rules, b: Board, a: Assignment, rest: seq<Id>)
    requires WellKeyed(u) && a.orderId in y.orders && a.techId in u.technicians
    requires Progress(y, u, b, [a.orderId] + rest)
    requires a.sequence == |Route(b.visits, a.techId)| + 1
    requires RouteAccepted(u, u.technicians[a.techId], Route(b.visits, a.techId) + [a])
    ensures Progress(y, u, Extended(b, a), rest)
  {
    var before := b.left + ([a.orderId] + rest);
    OrderStillLeft(u, b.visits, b.left, a.orderId, rest);
    DistinctWithout(b.left, a.orderId, rest);
    CoveredMove(u, b.visits, before, b.left + rest, a);
    RoutesAcceptedAppend(u, b.visits, before, b.left + rest, a);
    EntriesServedAppend(u, b.visits, a);
    RoutesMatchAppend(b, a);
  }

  /** Placing one order on the tail of a fitting route. */
  lemma PlaceKeepsProgress(y: Yard, u: Rules, b: Board, o: WorkOrder, rest: seq<Id>, t: Technician)
    requires SameDay(y, u) && Progress(y, u, b, [o.id] + rest)
    requires o.id in u.orders && u.orders[o.id] == o && o.id in y.orders
    requires t.id in u.technicians && u.technicians[t.id] == t
    requires CanServe(t, o) && LockRespected(u, o.id, t.id)
    requires Fits(y, t, Tail(y, b.routes, t), o)
    ensures Progress(y, u, Place(b, o, OfferFrom(y, t, Tail(y, b.routes, t), o)), rest)
  {
    hide Fits, Tail, Covered, RouteAccepted, RoutesAccepted, Route, EntriesServed, WellKeyed;
    var r := RouteIn(b.routes, t.id);
    var a := VisitFor(o, OfferFrom(y, t, Tail(y, b.routes, t), o), |r| + 1);
    assert RouteAccepted(u, u.technicians[a.techId], Route(b.visits, a.techId) + [a]) by {
      OrderStillLeft(u, b.visits, b.left, o.id, rest);
      PlacedRouteAccepted(y, u, b, [o.id] + rest, t, o);
    }
    assert Place(b, o, OfferFrom(y, t, Tail(y, b.routes, t), o)) == Extended(b, a);
    assert a.sequence == |Route(b.visits, a.techId)| + 1 && u.technicians[a.techId] == t;
    ExtendKeepsProgress(y, u, b, a, rest);
  }

  lemma OrderStillLeft(u: Rules, visits: seq<Assignment>, left: seq<Id>, o: Id, rest: seq<Id>)
    requires Covered(u, Schedule(visits, left + ([o] + rest)))
    ensures o in left + ([o] + rest) && o !in Ids(visits) && Distinct(left + ([o] + rest))
  {
    var before := left + ([o] + rest);
    assert before[|left|] == o;
    assert o !in Elements(Ids(visits)) * Elements(before);
  }

  lemma EntriesServedAppend(u: Rules, visits: seq<Assignment>, a: Assignment)
    requires EntriesServed(u, visits)
    ensures EntriesServed(u, visits + [a])
  {
    forall x | x in u.entries && u.entries[x].firstFuture.Some?
      ensures exists v :: v in visits + [a] && v.techId == x && v.orderId == u.entries[x].firstFuture.value
    {
      var v :| v in visits && v.techId == x && v.orderId == u.entries[x].firstFuture.value;
      assert v in visits + [a];
    }
  }

  lemma RoutesMatchAppend(b: Board, a: Assignment)
    requires RoutesMatch(b)
    requires forall t :: Route(b.visits + [a], t) == Route(b.visits, t) + (if a.techId == t then [a] else [])
    ensures RoutesMatch(Extended(b, a))
  {
    forall t ensures Route(b.visits, t) + [] == Route(b.visits, t) {
    }
  }

  /** One turn of the loop keeps everything, whichever branch it takes. */
  lemma StepKeepsProgress(y: Yard, u: Rules, b: Board, o: WorkOrder, rest: seq<Id>)
    requires SameDay(y, u) && Progress(y, u, b, [o.id] + rest)
    requires o.id in u.orders && u.orders[o.id] == o && o.id in y.orders
    requires forall t :: Permitted(y, t, o) ==> LockRespected(u, o.id, t.id)
    ensures Progress(y, u, Step(y, b, o), rest)
  {
    var offers := Offers(y, b.routes, o, |y.technicians|);
    if offers == [] {
      assert b.left + ([o.id] + rest) == b.left + [o.id] + rest;
    } else {
      var f := Best(offers);
      var i :| 0 <= i < |y.technicians| && Available(y, b.routes, y.technicians[i], o)
               && f == OfferFrom(y, y.technicians[i], Tail(y, b.routes, y.technicians[i]), o);
      TechnicianListed(y, u, y.technicians[i]);
      PlaceKeepsProgress(y, u, b, o, rest, y.technicians[i]);
    }
  }

  /** The whole loop: from progress with all orders pending to progress with none. */
  lemma {:induction false} RunKeepsProgress(y: Yard, u: Rules, b: Board, pending: seq<WorkOrder>, rest: seq<Id>)
    requires SameDay(y, u) && OrdersKnown(y, pending)
    requires Progress(y, u, b, OrderIds(pending) + rest)
    requires forall o :: o in pending ==> o.id in u.orders && u.orders[o.id] == o
    requires forall o, t :: o in pending && Permitted(y, t, o) ==> LockRespected(u, o.id, t.id)
    ensures Progress(y, u, Run(y, b, pending), rest)
  {
    if pending == [] {
      assert OrderIds(pending) + rest == rest;
    } else {
      var front, o := pending[..|pending| - 1], pending[|pending| - 1];
      assert OrderIds(pending) + rest == OrderIds(front) + ([o.id] + rest);
      RunKeepsProgress(y, u, b, front, [o.id] + rest);
      StepKeepsProgress(y, u, Run(y, b, front), o, rest);
    }
  }
}
