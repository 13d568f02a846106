/**
  The greedy loop leaves no order behind that still fits: a route only gets
  later as it grows, because travel obeys the triangle inequality up to one
  minute and every service takes at least one.
 */
module Maximality {
  import opened Domain
  import opened Feasibility
  import opened Greedy

  /** What rounding leaves of the triangle inequality (proved for the Euclidean provider in module Grid). */
  ghost predicate SlackTriangle(m: Travel) {
    forall a, b, c :: m(a, c) <= m(a, b) + m(b, c) + 1
  }

  ghost predicate NoRoom(y: Yard, routes: map<Id, seq<Assignment>>, o: WorkOrder)
    requires StopsKnown(y, routes)
  {
    forall t :: t in y.technicians ==> !Available(y, routes, t, o)
  }

  /** A detour through another customer never makes an order fit again. */
  lemma DetourIsLater(y: Yard, t: Technician, c: Cursor, p: WorkOrder, o: WorkOrder)
    requires SlackTriangle(y.travel) && p.duration >= 1
    requires !Fits(y, t, c, o)
    ensures !Fits(y, t, Cursor(OfferFrom(y, t, c, p).finish, p.location), o)
  {
    assert y.travel(c.place, o.location) <= y.travel(c.place, p.location) + y.travel(p.location, o.location) + 1;
  }

  /** Every offer comes from an available technician, and every available technician makes one. */
  lemma OfferTaker(y: Yard, routes: map<Id, seq<Assignment>>, o: WorkOrder, f: Offer)
    requires StopsKnown(y, routes) && f in Offers(y, routes, o, |y.technicians|)
    ensures f.tech in y.technicians && Available(y, routes, f.tech, o)
    ensures f == OfferFrom(y, f.tech, Tail(y, routes, f.tech), o)
  {
  }

  lemma OfferMade(y: Yard, routes: map<Id, seq<Assignment>>, o: WorkOrder, t: Technician)
    requires StopsKnown(y, routes) && t in y.technicians && Available(y, routes, t, o)
    ensures Offers(y, routes, o, |y.technicians|) != []
  {
    var i :| 0 <= i < |y.technicians| && y.technicians[i] == t;
    assert OfferFrom(y, y.technicians[i], Tail(y, routes, y.technicians[i]), o)
        in Offers(y, routes, o, |y.technicians|);
  }

  lemma SameTechnician(y: Yard, s: Technician, t: Technician)
    requires Distinct(TechnicianIds(y.technicians)) && s in y.technicians && t in y.technicians && s.id == t.id
    ensures s == t
  {
    TechnicianIndexComplete(y.technicians, s);
    TechnicianIndexComplete(y.technicians, t);
  }

  lemma StepKeepsNoRoom(y: Yard, b: Board, p: WorkOrder, o: WorkOrder)
    requires SlackTriangle(y.travel) && Distinct(TechnicianIds(y.technicians))
    requires StopsKnown(y, b.routes) && p.id in y.orders && y.orders[p.id] == p && p.duration >= 1
    requires NoRoom(y, b.routes, o)
    ensures NoRoom(y, Step(y, b, p).routes, o)
  {
    var offers := Offers(y, b.routes, p, |y.technicians|);
    if offers != [] {
      var f := Best(offers);
      OfferTaker(y, b.routes, p, f);
      forall t | t in y.technicians ensures !Available(y, Place(b, p, f).routes, t, o) {
        PlaceKeepsNoRoom(y, b, p, o, f, t);
      }
    }
  }

  lemma PlaceKeepsNoRoom(y: Yard, b: Board, p: WorkOrder, o: WorkOrder, f: Offer, t: Technician)
    requires SlackTriangle(y.travel) && Distinct(TechnicianIds(y.technicians))
    requires StopsKnown(y, b.routes) && p.id in y.orders && y.orders[p.id] == p && p.duration >= 1
    requires f.tech in y.technicians && f == OfferFrom(y, f.tech, Tail(y, b.routes, f.tech), p)
    requires t in y.technicians && !Available(y, b.routes, t, o)
    requires StopsKnown(y, Place(b, p, f).routes)
    ensures !Available(y, Place(b, p, f).routes, t, o)
  {
    if t.id == f.tech.id {
      SameTechnician(y, t, f.tech);
      assert Tail(y, Place(b, p, f).routes, t) == Cursor(f.finish, p.location);
      if Permitted(y, t, o) {
        DetourIsLater(y, t, Tail(y, b.routes, t), p, o);
      }
    }
  }

  ghost predicate AllTakeTime(pending: seq<WorkOrder>) {
    forall o :: o in pending ==> o.duration >= 1
  }

  /** An order without room never gets room again, whatever is appended meanwhile. */
  lemma {:induction false} RunKeepsNoRoom(y: Yard, b: Board, pending: seq<WorkOrder>, o: WorkOrder)
    requires SlackTriangle(y.travel) && Distinct(TechnicianIds(y.technicians))
    requires StopsKnown(y, b.routes) && OrdersKnown(y, pending) && AllTakeTime(pending)
    requires NoRoom(y, b.routes, o)
    ensures NoRoom(y, Run(y, b, pending).routes, o)
  {
    if pending != [] {
      RunKeepsNoRoom(y, b, pending[..|pending| - 1], o);
      StepKeepsNoRoom(y, Run(y, b, pending[..|pending| - 1]), pending[|pending| - 1], o);
    }
  }

  /** An order that found no offer had no room when it was tried. */
  lemma DroppedHadNoRoom(y: Yard, b: Board, o: WorkOrder)
    requires StopsKnown(y, b.routes) && o.id in y.orders
    requires Offers(y, b.routes, o, |y.technicians|) == []
    ensures NoRoom(y, b.routes, o)
  {
    forall t | t in y.technicians ensures !Available(y, b.routes, t, o) {
      if Available(y, b.routes, t, o) {
        OfferMade(y, b.routes, o, t);
      }
    }
  }

  /** Nothing is left that any permitted technician's final route could still take. */
  lemma {:induction false} RunIsMaximal(y: Yard, b: Board, pending: seq<WorkOrder>, id: Id)
    requires SlackTriangle(y.travel) && Distinct(TechnicianIds(y.technicians))
    requires StopsKnown(y, b.routes) && OrdersKnown(y, pending) && AllTakeTime(pending)
    requires id in Run(y, b, pending).left && id !in b.left
    ensures id in y.orders && NoRoom(y, Run(y, b, pending).routes, y.orders[id])
  {
    if pending != [] {
      var front, o := pending[..|pending| - 1], pending[|pending| - 1];
      var before := Run(y, b, front);
      if id in before.left {
        RunIsMaximal(y, b, front, id);
        StepKeepsNoRoom(y, before, o, y.orders[id]);
      } else {
        DroppedHadNoRoom(y, before, o);
      }
    }
  }

  /** When nothing fits, the loop changes nothing but the list of leftovers. */
  lemma {:induction false} NoRoomMeansNoChange(y: Yard, b: Board, pending: seq<WorkOrder>)
    requires StopsKnown(y, b.routes) && OrdersKnown(y, pending)
    requires forall o :: o in pending ==> NoRoom(y, b.routes, o)
    ensures Run(y, b, pending) == b.(left := b.left + OrderIds(pending))
  {
    if pending == [] {
      assert b.left + OrderIds(pending) == b.left;
    } else {
      var front, o := pending[..|pending| - 1], pending[|pending| - 1];
      NoRoomMeansNoChange(y, b, front);
      var offers := Offers(y, b.routes, o, |y.technicians|);
      if offers != [] {
        OfferTaker(y, b.routes, o, offers[0]);
      }
      assert OrderIds(pending) == OrderIds(front) + [o.id];
      assert b.left + OrderIds(front) + [o.id] == b.left + OrderIds(pending);
    }
  }
}
