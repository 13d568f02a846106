/**
  Whom the greedy loop chooses, in the words of the visit it writes: nobody who
  could have taken the order would have started earlier, nor as early after a
  shorter leg, nor as early after as long a leg under a smaller id. The
  statements use neither the key order of the loop nor its choice.
 */
module GreedyChoice {
  import opened Domain
  import opened Sorting
  import opened Feasibility
  import opened Greedy
  import opened Maximality
  import opened Capacity
  import B = Baseline

  /** Service starts at the first minute at which the technician is there, the window is open and the order is reported. */
  ghost predicate StartsAtEarliest(o: WorkOrder, arrival: int, start: int) {
    && start >= arrival && start >= o.windowStart && (o.reportedAt.Some? ==> start >= o.reportedAt.value)
    && (start == arrival || start == o.windowStart || (o.reportedAt.Some? && start == o.reportedAt.value))
  }

  /** Appended to the route of `t`, the order would be reached after this leg, served from this start, and `t` home in time. */
  ghost predicate CouldTake(y: Yard, routes: map<Id, seq<Assignment>>, t: Technician, o: WorkOrder, leg: int, start: int)
    requires StopsKnown(y, routes)
  {
    var tail := Tail(y, routes, t);
    var home := if t.id in y.entries then y.entries[t.id].returnTo else t.depot;
    && o.skills <= t.skills && (o.id in y.locked ==> y.locked[o.id] == t.id)
    && leg == y.travel(tail.place, o.location) && StartsAtEarliest(o, tail.at + leg, start)
    && start <= o.windowEnd
    && start + o.duration + y.travel(o.location, home) <= t.shiftEnd + t.overtimeLimit
  }

  /** The visit is what its technician could take, and no technician could do better. */
  ghost predicate BestVisit(y: Yard, routes: map<Id, seq<Assignment>>, o: WorkOrder, a: Assignment)
    requires StopsKnown(y, routes)
  {
    && a.orderId == o.id
    && (exists t :: t in y.technicians && t.id == a.techId && CouldTake(y, routes, t, o, a.travel, a.start)
                    && a.arrival == Tail(y, routes, t).at + a.travel)
    && a.finish == a.start + o.duration
    && (a.finish > o.slaDeadline ==> a.slaLate == a.finish - o.slaDeadline)
    && (a.finish <= o.slaDeadline ==> a.slaLate == 0)
    && a.sequence == |RouteIn(routes, a.techId)| + 1
    && (forall t, leg, start :: t in y.technicians && CouldTake(y, routes, t, o, leg, start) ==>
          || a.start < start
          || (a.start == start && a.travel < leg)
          || (a.start == start && a.travel == leg && a.techId.rank <= t.id.rank))
  }

  ghost predicate NobodyCould(y: Yard, routes: map<Id, seq<Assignment>>, o: WorkOrder)
    requires StopsKnown(y, routes)
  {
    forall t, leg, start :: t in y.technicians ==> !CouldTake(y, routes, t, o, leg, start)
  }

  lemma CouldTakeIsAvailable(y: Yard, routes: map<Id, seq<Assignment>>, t: Technician, o: WorkOrder, leg: int, start: int)
    requires StopsKnown(y, routes)
    ensures CouldTake(y, routes, t, o, leg, start) <==>
              Available(y, routes, t, o) && var f := OfferFrom(y, t, Tail(y, routes, t), o); f.travel == leg && f.start == start
  {
    hide Tail;
  }

  lemma EveryTakerOffers(y: Yard, routes: map<Id, seq<Assignment>>, o: WorkOrder, t: Technician, leg: int, start: int)
    requires StopsKnown(y, routes) && t in y.technicians && CouldTake(y, routes, t, o, leg, start)
    ensures exists f :: f in Offers(y, routes, o, |y.technicians|) && f.travel == leg && f.start == start && f.tech == t
  {
    hide CouldTake, Available, Tail, OfferFrom;
    CouldTakeIsAvailable(y, routes, t, o, leg, start);
    OfferFields(y, t, Tail(y, routes, t), o);
    var i :| 0 <= i < |y.technicians| && y.technicians[i] == t;
    assert OfferFrom(y, t, Tail(y, routes, t), o) in Offers(y, routes, o, |y.technicians|);
  }

  lemma ChosenIsBest(y: Yard, routes: map<Id, seq<Assignment>>, o: WorkOrder, f: Offer)
    requires StopsKnown(y, routes) && f in Offers(y, routes, o, |y.technicians|)
    requires forall g :: g in Offers(y, routes, o, |y.technicians|) ==> NotAfter(f, g)
    ensures BestVisit(y, routes, o, VisitFor(o, f, |RouteIn(routes, f.tech.id)| + 1))
  {
    hide CouldTake, Available, Tail, OfferFrom, Offers;
    OfferTaker(y, routes, o, f);
    OfferFields(y, f.tech, Tail(y, routes, f.tech), o);
    CouldTakeIsAvailable(y, routes, f.tech, o, f.travel, f.start);
    forall t, leg, start | t in y.technicians && CouldTake(y, routes, t, o, leg, start)
      ensures f.start < start || (f.start == start && f.travel < leg)
              || (f.start == start && f.travel == leg && f.tech.id.rank <= t.id.rank)
    {
      EveryTakerOffers(y, routes, o, t, leg, start);
    }
  }

  /** One turn of the loop. */
  lemma StepChoosesBest(y: Yard, b: Board, o: WorkOrder)
    requires StopsKnown(y, b.routes) && o.id in y.orders
    ensures var r := Step(y, b, o);
            || (NobodyCould(y, b.routes, o) && r == b.(left := b.left + [o.id]))
            || (r.left == b.left && exists a :: BestVisit(y, b.routes, o, a) && r.visits == b.visits + [a])
  {
    hide CouldTake, BestVisit;
    var offers := Offers(y, b.routes, o, |y.technicians|);
    if offers == [] {
      hide Offers;
      forall t, leg, start | t in y.technicians ensures !CouldTake(y, b.routes, t, o, leg, start) {
        if CouldTake(y, b.routes, t, o, leg, start) {
          EveryTakerOffers(y, b.routes, o, t, leg, start);
        }
      }
    } else {
      hide Offers;
      ChosenIsBest(y, b.routes, o, Best(offers));
    }
  }

  lemma OfferFields(y: Yard, t: Technician, c: Cursor, o: WorkOrder)
    ensures var f := OfferFrom(y, t, c, o);
            f.tech == t && f.finish == f.start + o.duration && f.arrival == c.at + f.travel
  {
  }

  /** The board when the i-th pending order has its turn. */
  function BoardAt(y: Yard, b: Board, pending: seq<WorkOrder>, i: nat): (r: Board)
    requires StopsKnown(y, b.routes) && OrdersKnown(y, pending) && i <= |pending|
    ensures StopsKnown(y, r.routes)
  {
    Run(y, b, pending[..i])
  }

  /**
    Over a whole run: every visit that was added is the best one at the turn of
    its order, and every order that was left over could be taken by nobody then.
   */
  lemma {:induction false} RunChoosesBest(y: Yard, b: Board, pending: seq<WorkOrder>)
    requires StopsKnown(y, b.routes) && OrdersKnown(y, pending)
    ensures b.visits <= Run(y, b, pending).visits && b.left <= Run(y, b, pending).left
    ensures forall a :: a in Run(y, b, pending).visits[|b.visits|..] ==>
              exists i :: 0 <= i < |pending| && BestVisit(y, BoardAt(y, b, pending, i).routes, pending[i], a)
    ensures forall id :: id in Run(y, b, pending).left[|b.left|..] ==>
              exists i :: 0 <= i < |pending| && pending[i].id == id
                          && NobodyCould(y, BoardAt(y, b, pending, i).routes, pending[i])
  {
    hide BestVisit, NobodyCould, Step;
    if pending != [] {
      var n := |pending| - 1;
      var front, o := pending[..n], pending[n];
      RunChoosesBest(y, b, front);
      StepChoosesBest(y, Run(y, b, front), o);
      forall i | 0 <= i < n ensures BoardAt(y, b, pending, i) == BoardAt(y, b, front, i) {
        assert front[..i] == pending[..i];
      }
      var before, after := Run(y, b, front), Run(y, b, pending);
      assert after == Step(y, before, o) && BoardAt(y, b, pending, n) == before;
      hide Run;
      forall a | a in after.visits[|b.visits|..]
        ensures exists i :: 0 <= i < |pending| && BestVisit(y, BoardAt(y, b, pending, i).routes, pending[i], a)
      {
        if a in before.visits[|b.visits|..] {
          var i :| 0 <= i < n && BestVisit(y, BoardAt(y, b, front, i).routes, front[i], a);
          assert BestVisit(y, BoardAt(y, b, pending, i).routes, pending[i], a);
        } else {
          assert BestVisit(y, BoardAt(y, b, pending, n).routes, pending[n], a);
        }
      }
      forall id | id in after.left[|b.left|..]
        ensures exists i :: 0 <= i < |pending| && pending[i].id == id
                            && NobodyCould(y, BoardAt(y, b, pending, i).routes, pending[i])
      {
        if id in before.left[|b.left|..] {
          var i :| 0 <= i < n && front[i].id == id && NobodyCould(y, BoardAt(y, b, front, i).routes, front[i]);
          assert pending[i].id == id && NobodyCould(y, BoardAt(y, b, pending, i).routes, pending[i]);
        } else {
          assert pending[n].id == id && NobodyCould(y, BoardAt(y, b, pending, n).routes, pending[n]);
        }
      }
    }
  }

  /** Every visit of the baseline is the best one at the turn of its order, and nobody could take what it left over. */
  lemma BaselineChoosesBest(sc: Scenario, m: Travel)
    requires ValidScenario(sc)
    ensures forall a :: a in B.BaselinePlan(sc, m).assignments ==>
              exists i :: 0 <= i < |B.Queue(sc)| && BestVisit(B.YardOf(sc, m), B.Turn(sc, m, i).routes, B.Queue(sc)[i], a)
    ensures forall id :: id in B.BaselinePlan(sc, m).unassigned ==>
              exists i :: 0 <= i < |B.Queue(sc)| && B.Queue(sc)[i].id == id
                          && NobodyCould(B.YardOf(sc, m), B.Turn(sc, m, i).routes, B.Queue(sc)[i])
  {
    hide BestVisit, NobodyCould, B.Queue, Run, ValidScenario;
    B.QueueKnown(sc, m);
    var y, queue := B.YardOf(sc, m), B.Queue(sc);
    RunChoosesBest(y, B.EMPTY_BOARD, queue);
    var b := B.BaselineBoard(sc, m);
    assert b.visits[0..] == b.visits && b.left[0..] == b.left;
    forall i | 0 <= i < |queue| ensures BoardAt(y, B.EMPTY_BOARD, queue, i) == B.Turn(sc, m, i) {
    }
  }

  /** The same for every visit a capacity option appends to a committed plan. */
  lemma AppendChoosesBest(y: Yard, s: Schedule)
    requires KeyedOrders(y.orders) && VisitsKnown(y.orders, s.assignments)
    ensures StopsKnown(y, RoutesOf(s.assignments)) && OrdersKnown(y, Waiting(y.orders, s.unassigned))
    ensures var start, pending := Board(RoutesOf(s.assignments), s.assignments, []), Waiting(y.orders, s.unassigned);
            && s.assignments <= Appended(y, s).visits
            && (forall a :: a in Appended(y, s).visits[|s.assignments|..] ==>
                  exists i :: 0 <= i < |pending| && BestVisit(y, BoardAt(y, start, pending, i).routes, pending[i], a))
            && (forall id :: id in Appended(y, s).left ==>
                  exists i :: 0 <= i < |pending| && pending[i].id == id
                              && NobodyCould(y, BoardAt(y, start, pending, i).routes, pending[i]))
  {
    hide BestVisit, NobodyCould, Run, RoutesOf, Waiting;
    RoutesOfKnown(y, s.assignments);
    WaitingKnown(y, s.unassigned);
    var start, pending := Board(RoutesOf(s.assignments), s.assignments, []), Waiting(y.orders, s.unassigned);
    RunChoosesBest(y, start, pending);
    assert Appended(y, s).left[0..] == Appended(y, s).left;
  }

  // ----- whose turn it is -----

  /** The queue of the baseline: by deadline, then by urgency, then by id. */
  lemma QueueOrder(sc: Scenario, i: nat, j: nat)
    requires i < j < |B.Queue(sc)|
    ensures var a, b := B.Queue(sc)[i], B.Queue(sc)[j];
            && a.slaDeadline <= b.slaDeadline
            && (a.slaDeadline == b.slaDeadline && b.priority.Urgent? ==> a.priority.Urgent?)
            && (a.slaDeadline == b.slaDeadline && b.priority.High? ==> a.priority.Urgent? || a.priority.High?)
            && (a.slaDeadline == b.slaDeadline && a.priority.Low? ==> b.priority.Low?)
            && (a.slaDeadline == b.slaDeadline && a.priority == b.priority ==> a.id.rank <= b.id.rank)
  {
    assert TotalPreorder(B.UrgencyOrder);
    SortSorted(B.UrgencyOrder, NotCompleted(sc.orders));
    hide Sort;
    assert B.UrgencyOrder(B.Queue(sc)[i], B.Queue(sc)[j]);
  }

  /** The pending orders of an append: by deadline, then by the end of the window, then by id. */
  lemma WaitingOrder(orders: map<Id, WorkOrder>, ids: seq<Id>, i: nat, j: nat)
    requires i < j < |Waiting(orders, ids)|
    ensures var a, b := Waiting(orders, ids)[i], Waiting(orders, ids)[j];
            && a.slaDeadline <= b.slaDeadline
            && (a.slaDeadline == b.slaDeadline ==> a.windowEnd <= b.windowEnd)
            && (a.slaDeadline == b.slaDeadline && a.windowEnd == b.windowEnd ==> a.id.rank <= b.id.rank)
  {
    OrdersAreTotal();
    SortSorted(DueOrder, Known(orders, ids));
    hide Sort;
    assert DueOrder(Waiting(orders, ids)[i], Waiting(orders, ids)[j]);
  }

  /** The appended schedule lists its visits by technician and along each route. */
  lemma AppendedOrder(y: Yard, s: Schedule, i: nat, j: nat)
    requires KeyedOrders(y.orders) && VisitsKnown(y.orders, s.assignments)
    requires i < j < |TailAppended(y, s).assignments|
    ensures var a, b := TailAppended(y, s).assignments[i], TailAppended(y, s).assignments[j];
            a.techId.rank <= b.techId.rank && (a.techId == b.techId ==> a.sequence <= b.sequence)
    ensures multiset(TailAppended(y, s).assignments) == multiset(Appended(y, s).visits)
  {
    OrdersAreTotal();
    SortSorted(RosterOrder, Appended(y, s).visits);
    SortContents(RosterOrder, Appended(y, s).visits);
    hide Sort, Appended;
    assert RosterOrder(TailAppended(y, s).assignments[i], TailAppended(y, s).assignments[j]);
  }
}
