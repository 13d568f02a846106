/**
  `baseline_schedule`: the deterministic greedy plan. Its routes are always
  feasible; both checkers accept it exactly when every locked order fits at its
  turn; and no order it leaves out fits behind a permitted technician's route.
 */
module Baseline {
  import opened Domain
  import opened Sorting
  import opened Routes
  import opened Feasibility
  import opened Greedy
  import opened Maximality
  import opened CheckerAgreement
  import P = PlanVerifier

  function Rank(p: Priority): int {
    match p
    case Urgent => 0
    case High => 1
    case Normal => 2
    case Low => 3
  }

  /** `key=(sla_deadline, priority rank, id)`. */
  predicate UrgencyOrder(a: WorkOrder, b: WorkOrder) {
    || a.slaDeadline < b.slaDeadline
    || (a.slaDeadline == b.slaDeadline && Rank(a.priority) < Rank(b.priority))
    || (a.slaDeadline == b.slaDeadline && Rank(a.priority) == Rank(b.priority) && a.id.rank <= b.id.rank)
  }

  function Queue(sc: Scenario): seq<WorkOrder> {
    Sort(UrgencyOrder, NotCompleted(sc.orders))
  }

  function YardOf(sc: Scenario, m: Travel): Yard {
    Yard(sc.technicians, ActiveOrders(sc), m, map[], LockIndex(sc.locks))
  }

  const EMPTY_BOARD: Board := Board(map[], [], [])

  lemma QueueKnown(sc: Scenario, m: Travel)
    requires ValidScenario(sc)
    ensures OrdersKnown(YardOf(sc, m), Queue(sc))
  {
    forall o | o in Queue(sc) ensures o.id in ActiveOrders(sc) && ActiveOrders(sc)[o.id] == o {
      SortMembers(UrgencyOrder, NotCompleted(sc.orders), o);
      NotCompletedMembers(sc.orders, o);
      ActiveOrdersComplete(sc, o);
    }
  }

  function BaselineBoard(sc: Scenario, m: Travel): (b: Board)
    requires ValidScenario(sc)
    ensures StopsKnown(YardOf(sc, m), b.routes)
  {
    QueueKnown(sc, m);
    Run(YardOf(sc, m), EMPTY_BOARD, Queue(sc))
  }

  function BaselinePlan(sc: Scenario, m: Travel): Schedule
    requires ValidScenario(sc)
  {
    Schedule(BaselineBoard(sc, m).visits, BaselineBoard(sc, m).left)
  }

  // ----- the loop with its `state` dictionary -----

  /** `state[tech.id]` holds exactly where each route ends. */
  ghost predicate StateTracks(y: Yard, state: map<Id, Cursor>, routes: map<Id, seq<Assignment>>) {
    && StopsKnown(y, routes) && y.entries == map[]
    && forall t :: t in y.technicians ==> t.id in state && state[t.id] == Tail(y, routes, t)
  }

  method Choices(y: Yard, state: map<Id, Cursor>, ghost routes: map<Id, seq<Assignment>>, o: WorkOrder)
    returns (choices: seq<Offer>)
    requires StateTracks(y, state, routes)
    ensures choices == Offers(y, routes, o, |y.technicians|)
  {
    choices := [];
    for i := 0 to |y.technicians|
      invariant choices == Offers(y, routes, o, i)
    {
      var t := y.technicians[i];
      if o.skills <= t.skills && (o.id in y.locked ==> t.id == y.locked[o.id]) {
        var at, place := state[t.id].at, state[t.id].place;
        var travel := y.travel(place, o.location);
        var arrival := at + travel;
        var start := Max(arrival, ReadyAt(o));
        var finish := start + o.duration;
        var home := y.travel(o.location, t.depot);
        if start <= o.windowEnd && finish + home <= t.shiftEnd + t.overtimeLimit {
          choices := choices + [Offer(start, travel, finish, arrival, t)];
        }
      }
    }
  }

  /** One order of the queue: choose a technician, append the visit, advance the state. */
  method PlaceOne(y: Yard, state: map<Id, Cursor>, b: Board, o: WorkOrder)
    returns (state': map<Id, Cursor>, b': Board)
    requires Distinct(TechnicianIds(y.technicians)) && StateTracks(y, state, b.routes)
    requires o.id in y.orders && y.orders[o.id] == o
    ensures b' == Step(y, b, o) && StopsKnown(y, b'.routes) && StateTracks(y, state', b'.routes)
  {
    var choices := Choices(y, state, b.routes, o);
    if choices == [] {
      return state, b.(left := b.left + [o.id]);
    }
    var f := Cheapest(choices);
    OfferTaker(y, b.routes, o, f);
    var route := if f.tech.id in b.routes then b.routes[f.tech.id] else [];
    var arrival := state[f.tech.id].at + f.travel;
    var visit := Assignment(o.id, f.tech.id, |route| + 1, arrival, f.start, f.finish, f.travel,
                            Max(0, f.finish - o.slaDeadline));
    b' := Board(b.routes[f.tech.id := route + [visit]], b.visits + [visit], b.left);
    state' := state[f.tech.id := Cursor(f.finish, o.location)];
    TrackOne(y, state, b.routes, f.tech, visit, o);
  }

  /** The dictionary follows the one route that grew. */
  lemma TrackOne(y: Yard, state: map<Id, Cursor>, routes: map<Id, seq<Assignment>>, tech: Technician, a: Assignment,
                 o: WorkOrder)
    requires Distinct(TechnicianIds(y.technicians)) && StateTracks(y, state, routes) && tech in y.technicians
    requires a.orderId == o.id && o.id in y.orders && y.orders[o.id] == o
    ensures var grown := routes[tech.id := (if tech.id in routes then routes[tech.id] else []) + [a]];
            StopsKnown(y, grown) && StateTracks(y, state[tech.id := Cursor(a.finish, o.location)], grown)
  {
    forall t | t in y.technicians && t.id == tech.id ensures t == tech {
      SameTechnician(y, t, tech);
    }
  }

  /** `{t.id: (t.shift_start, t.start_location) for t in technicians}`. */
  method InitialState(y: Yard) returns (state: map<Id, Cursor>)
    requires Distinct(TechnicianIds(y.technicians)) && y.entries == map[]
    ensures StateTracks(y, state, map[])
  {
    state := map[];
    for i := 0 to |y.technicians|
      invariant forall t :: t in y.technicians[..i] ==> t.id in state && state[t.id] == Cursor(t.shiftStart, t.depot)
    {
      var t := y.technicians[i];
      assert y.technicians[..i + 1] == y.technicians[..i] + [t];
      forall x | x in y.technicians[..i] && x.id == t.id ensures x == t {
        SameTechnician(y, x, t);
      }
      state := state[t.id := Cursor(t.shiftStart, t.depot)];
    }
    assert y.technicians[..|y.technicians|] == y.technicians;
  }

  method BaselineSchedule(sc: Scenario, m: Travel) returns (plan: Schedule)
    requires ValidScenario(sc)
    ensures plan == BaselinePlan(sc, m)
  {
    hide Step, StateTracks;
    QueueKnown(sc, m);
    var y, queue := YardOf(sc, m), Queue(sc);
    var state := InitialState(y);
    var b := EMPTY_BOARD;
    for i := 0 to |queue|
      invariant StopsKnown(y, b.routes) && StateTracks(y, state, b.routes)
      invariant b == Run(y, EMPTY_BOARD, queue[..i])
    {
      assert queue[..i + 1][..i] == queue[..i];
      state, b := PlaceOne(y, state, b, queue[i]);
    }
    assert queue[..|queue|] == queue;
    plan := Schedule(b.visits, b.left);
  }

  // ----- what the plan is worth -----

  lemma {:induction false} NotCompletedDistinct(orders: seq<WorkOrder>)
    requires Distinct(OrderIds(orders))
    ensures Distinct(OrderIds(NotCompleted(orders)))
  {
    if orders != [] {
      var front, last := orders[..|orders| - 1], orders[|orders| - 1];
      var kept := NotCompleted(front);
      assert OrderIds(orders) == OrderIds(front) + [last.id];
      DistinctAppend(OrderIds(front), last.id);
      NotCompletedDistinct(front);
      forall i | 0 <= i < |kept| ensures OrderIds(kept)[i] != last.id {
        NotCompletedMembers(front, kept[i]);
        var j :| 0 <= j < |front| && front[j] == kept[i];
        assert OrderIds(front)[j] != last.id;
      }
      DistinctAppend(OrderIds(kept), last.id);
      assert OrderIds(kept + [last]) == OrderIds(kept) + [last.id];
      assert kept + [] == kept;
    }
  }

  /** The queue holds every active order once. */
  lemma QueueIsActive(sc: Scenario)
    requires ValidScenario(sc)
    ensures Distinct(OrderIds(Queue(sc))) && Elements(OrderIds(Queue(sc))) == ActiveOrders(sc).Keys
  {
    var active, queue := NotCompleted(sc.orders), Queue(sc);
    NotCompletedDistinct(sc.orders);
    SortContents(UrgencyOrder, active);
    assert Distinct(active) by {
      forall i, j | 0 <= i < j < |active| ensures active[i] != active[j] {
        assert OrderIds(active)[i] != OrderIds(active)[j];
      }
    }
    DistinctIsCounted(active);
    DistinctIsCounted(queue);
    forall i, j | 0 <= i < j < |queue| ensures OrderIds(queue)[i] != OrderIds(queue)[j] {
      SortMembers(UrgencyOrder, active, queue[i]);
      SortMembers(UrgencyOrder, active, queue[j]);
      OrderIndexComplete(active, queue[i]);
      OrderIndexComplete(active, queue[j]);
    }
    forall id ensures id in OrderIds(queue) <==> id in ActiveOrders(sc) {
      QueueHolds(sc, id);
    }
  }

  lemma QueueHolds(sc: Scenario, id: Id)
    requires ValidScenario(sc)
    ensures id in OrderIds(Queue(sc)) <==> id in ActiveOrders(sc)
  {
    var active, queue := NotCompleted(sc.orders), Queue(sc);
    if id in OrderIds(queue) {
      var i :| 0 <= i < |queue| && OrderIds(queue)[i] == id;
      SortMembers(UrgencyOrder, active, queue[i]);
      OrderIndexSound(active, id);
    }
    if id in ActiveOrders(sc) {
      OrderIndexSound(active, id);
      var o := ActiveOrders(sc)[id];
      SortMembers(UrgencyOrder, active, o);
      var i :| 0 <= i < |queue| && queue[i] == o;
      assert OrderIds(queue)[i] == id;
    }
  }

  lemma BaselineStarts(sc: Scenario, m: Travel)
    requires ValidScenario(sc)
    ensures SameDay(YardOf(sc, m), FreshDay(sc, m))
    ensures Progress(YardOf(sc, m), FreshDay(sc, m), EMPTY_BOARD, OrderIds(Queue(sc)) + [])
  {
    RulesAreWellKeyed(sc, m, map[], {}, {}, false);
    QueueIsActive(sc);
    var rest := OrderIds(Queue(sc));
    assert [] + (rest + []) == rest;
    assert Ids([]) == [];
    assert Elements([]) + Elements(rest) + {} == Elements(rest);
    forall t ensures RouteIn(EMPTY_BOARD.routes, t) == Route([], t) {
    }
  }

  /** Whatever the locks, every route of the baseline is feasible and every active order is covered once. */
  lemma BaselineProgress(sc: Scenario, m: Travel)
    requires ValidScenario(sc)
    ensures Covered(FreshDay(sc, m), BaselinePlan(sc, m)) && RoutesAccepted(FreshDay(sc, m), BaselinePlan(sc, m))
  {
    var y, u := YardOf(sc, m), FreshDay(sc, m);
    QueueKnown(sc, m);
    BaselineStarts(sc, m);
    RunKeepsProgress(y, u, EMPTY_BOARD, Queue(sc), []);
    var b := BaselineBoard(sc, m);
    assert b.left + [] == b.left;
  }

  ghost predicate DropsLockedOrder(sc: Scenario, s: Schedule) {
    exists l :: l in sc.locks && l.orderId in s.unassigned
  }

  /** Nothing but a dropped lock can make a checker refuse the baseline. */
  lemma AcceptedUnlessDropped(sc: Scenario, m: Travel)
    requires ValidScenario(sc)
    ensures Accepted(FreshDay(sc, m), BaselinePlan(sc, m)) <==> !DropsLockedOrder(sc, BaselinePlan(sc, m))
    ensures NothingStarted(sc) ==>
      (P.Sound(sc, m, P.NOTHING_KNOWN, BaselinePlan(sc, m)) <==> !DropsLockedOrder(sc, BaselinePlan(sc, m)))
  {
    var u, s := FreshDay(sc, m), BaselinePlan(sc, m);
    BaselineProgress(sc, m);
    if DropsLockedOrder(sc, s) {
      var l :| l in sc.locks && l.orderId in s.unassigned;
      LockIndexSound(sc.locks, l.orderId);
      assert l.orderId in (Elements(s.unassigned) + u.external) * u.locked.Keys;
    } else {
      if w :| w in (Elements(s.unassigned) + u.external) * u.locked.Keys {
        LockIndexSound(sc.locks, w);
      }
      assert (Elements(s.unassigned) + u.external) * u.locked.Keys == {};
    }
    if NothingStarted(sc) {
      PendingCheckersAgree(sc, m, s);
      if P.Sound(sc, m, P.NOTHING_KNOWN, s) {
        PlacementAgrees(sc, m, false, s);
      }
    }
  }

  // ----- which locks are dropped -----

  lemma TurnKnown(sc: Scenario, m: Travel, i: nat)
    requires ValidScenario(sc) && i <= |Queue(sc)|
    ensures OrdersKnown(YardOf(sc, m), Queue(sc)[..i])
  {
    QueueKnown(sc, m);
  }

  /** The plan when the i-th order of the queue has its turn. */
  function Turn(sc: Scenario, m: Travel, i: nat): (b: Board)
    requires ValidScenario(sc) && i <= |Queue(sc)|
    ensures StopsKnown(YardOf(sc, m), b.routes)
  {
    TurnKnown(sc, m, i);
    Run(YardOf(sc, m), EMPTY_BOARD, Queue(sc)[..i])
  }

  /** When its turn comes, the locked order still fits behind the route of its technician. */
  ghost predicate FitsAtItsTurn(sc: Scenario, m: Travel, l: Lock)
    requires ValidScenario(sc) && l in sc.locks
  {
    var t := TechnicianIndex(sc.technicians)[l.techId];
    forall i :: 0 <= i < |Queue(sc)| && Queue(sc)[i].id == l.orderId ==>
      Fits(YardOf(sc, m), t, Tail(YardOf(sc, m), Turn(sc, m, i).routes, t), Queue(sc)[i])
  }

  /** An order is left over exactly when it finds no offer at its turn. */
  lemma {:induction false} LeftAtItsTurn(y: Yard, pending: seq<WorkOrder>, i: nat)
    requires OrdersKnown(y, pending) && Distinct(OrderIds(pending)) && i < |pending|
    requires StopsKnown(y, EMPTY_BOARD.routes)
    ensures OrdersKnown(y, pending[..i])
    ensures pending[i].id in Run(y, EMPTY_BOARD, pending).left
            <==> Offers(y, Run(y, EMPTY_BOARD, pending[..i]).routes, pending[i], |y.technicians|) == []
  {
    hide Offers, Best, Step;
    var n := |pending| - 1;
    var front, last := pending[..n], pending[n];
    DistinctFront(pending);
    OnlyPendingLeft(y, front);
    OneMoreLeft(y, Run(y, EMPTY_BOARD, front), last, pending[i].id);
    if i < n {
      LeftAtItsTurn(y, front, i);
      assert front[..i] == pending[..i] && front[i] == pending[i];
    }
  }

  lemma DistinctFront(pending: seq<WorkOrder>)
    requires pending != [] && Distinct(OrderIds(pending))
    ensures var n := |pending| - 1;
            Distinct(OrderIds(pending[..n])) && forall k :: 0 <= k < n ==> pending[k].id != pending[n].id
  {
    var n, ids := |pending| - 1, OrderIds(pending);
    forall j, k | 0 <= j < k < n ensures OrderIds(pending[..n])[j] != OrderIds(pending[..n])[k] {
      assert ids[j] != ids[k];
    }
    forall k | 0 <= k < n ensures pending[k].id != pending[n].id {
      assert ids[k] != ids[n];
    }
  }

  lemma OneMoreLeft(y: Yard, b: Board, o: WorkOrder, id: Id)
    requires StopsKnown(y, b.routes) && o.id in y.orders
    ensures id in Step(y, b, o).left
            <==> id in b.left || (id == o.id && Offers(y, b.routes, o, |y.technicians|) == [])
  {
    hide Offers, Best;
  }

  lemma {:induction false} OnlyPendingLeft(y: Yard, pending: seq<WorkOrder>)
    requires StopsKnown(y, EMPTY_BOARD.routes) && OrdersKnown(y, pending)
    ensures forall id :: id in Run(y, EMPTY_BOARD, pending).left ==>
              exists k :: 0 <= k < |pending| && pending[k].id == id
  {
    if pending != [] {
      var front, last := pending[..|pending| - 1], pending[|pending| - 1];
      OnlyPendingLeft(y, front);
      forall id | id in Run(y, EMPTY_BOARD, pending).left
        ensures exists k :: 0 <= k < |pending| && pending[k].id == id
      {
        OneMoreLeft(y, Run(y, EMPTY_BOARD, front), last, id);
        if id in Run(y, EMPTY_BOARD, front).left {
          var k :| 0 <= k < |front| && front[k].id == id;
          assert pending[k].id == id;
        }
      }
    }
  }

  /** A locked order has one possible taker, so it finds no offer exactly when it does not fit there. */
  lemma LockedOffers(sc: Scenario, m: Travel, l: Lock, b: Board, o: WorkOrder)
    requires ValidScenario(sc) && l in sc.locks && o.id == l.orderId
    requires o.id in ActiveOrders(sc) && ActiveOrders(sc)[o.id] == o && StopsKnown(YardOf(sc, m), b.routes)
    ensures l.techId in TechnicianIndex(sc.technicians)
    ensures var y, t := YardOf(sc, m), TechnicianIndex(sc.technicians)[l.techId];
            Offers(y, b.routes, o, |y.technicians|) == [] <==> !Fits(y, t, Tail(y, b.routes, t), o)
  {
    var y, t := YardOf(sc, m), TechnicianIndex(sc.technicians)[l.techId];
    TechnicianIndexSound(sc.technicians, l.techId);
    LockIndexComplete(sc, l);
    hide ValidScenario, ActiveOrders, TechnicianIndex, LockIndex, Fits, Tail;
    if Fits(y, t, Tail(y, b.routes, t), o) {
      OfferMade(y, b.routes, o, t);
    }
    var offers := Offers(y, b.routes, o, |y.technicians|);
    if offers != [] {
      OfferTaker(y, b.routes, o, offers[0]);
      SameTechnicianListed(sc, offers[0].tech, t);
    }
  }

  lemma SameTechnicianListed(sc: Scenario, s: Technician, t: Technician)
    requires ValidScenario(sc) && s in sc.technicians && t in sc.technicians && s.id == t.id
    ensures s == t
  {
    TechnicianIndexComplete(sc.technicians, s);
    TechnicianIndexComplete(sc.technicians, t);
  }

  /** With one lock per order the dictionary of locks returns the listed lock, and its technician can serve the order. */
  lemma LockIndexComplete(sc: Scenario, l: Lock)
    requires ValidScenario(sc) && l in sc.locks
    ensures l.orderId in LockIndex(sc.locks) && LockIndex(sc.locks)[l.orderId] == l.techId
    ensures l.orderId in ActiveOrders(sc) && l.techId in TechnicianIndex(sc.technicians)
    ensures CanServe(TechnicianIndex(sc.technicians)[l.techId], ActiveOrders(sc)[l.orderId])
  {
    LockIndexSound(sc.locks, l.orderId);
    assert ValidLock(sc, l);
    hide ActiveOrders, TechnicianIndex, LockIndex;
    var i :| 0 <= i < |sc.locks| && sc.locks[i] == l;
    var k := Lock(l.orderId, LockIndex(sc.locks)[l.orderId]);
    var j :| 0 <= j < |sc.locks| && sc.locks[j] == k;
    assert LockedIds(sc.locks)[i] == LockedIds(sc.locks)[j];
  }

  /** Every order has one turn. */
  lemma OneTurn(sc: Scenario, m: Travel, l: Lock, i: nat)
    requires ValidScenario(sc) && l in sc.locks && i < |Queue(sc)| && Queue(sc)[i].id == l.orderId
    requires Distinct(OrderIds(Queue(sc))) && l.techId in TechnicianIndex(sc.technicians)
    ensures var t := TechnicianIndex(sc.technicians)[l.techId];
            FitsAtItsTurn(sc, m, l) <==> Fits(YardOf(sc, m), t, Tail(YardOf(sc, m), Turn(sc, m, i).routes, t), Queue(sc)[i])
  {
    assert ValidLock(sc, l);
    hide Queue, ValidScenario, Fits, Tail, Run, Turn, TechnicianIndex, YardOf;
    forall k | 0 <= k < |Queue(sc)| && Queue(sc)[k].id == l.orderId ensures k == i {
      assert OrderIds(Queue(sc))[k] == OrderIds(Queue(sc))[i];
    }
  }

  /** The branch that fails: a locked order is dropped exactly when it does not fit at its turn. */
  lemma LockDroppedExactly(sc: Scenario, m: Travel, l: Lock)
    requires ValidScenario(sc) && l in sc.locks
    ensures l.orderId in BaselinePlan(sc, m).unassigned <==> !FitsAtItsTurn(sc, m, l)
  {
    LockIndexComplete(sc, l);
    QueueIsActive(sc);
    QueueKnown(sc, m);
    hide Queue, ValidScenario, ActiveOrders, TechnicianIndex, Fits, Tail, Run, FitsAtItsTurn;
    var i :| 0 <= i < |Queue(sc)| && OrderIds(Queue(sc))[i] == l.orderId;
    OneTurn(sc, m, l, i);
    LeftAtItsTurn(YardOf(sc, m), Queue(sc), i);
    LockedOffers(sc, m, l, Turn(sc, m, i), Queue(sc)[i]);
  }

  /** Both checkers accept the baseline if and only if every locked order fits when its turn comes. */
  lemma BaselineAcceptedExactly(sc: Scenario, m: Travel)
    requires ValidScenario(sc)
    ensures Accepted(FreshDay(sc, m), BaselinePlan(sc, m)) <==> forall l :: l in sc.locks ==> FitsAtItsTurn(sc, m, l)
    ensures NothingStarted(sc) ==>
      (P.Sound(sc, m, P.NOTHING_KNOWN, BaselinePlan(sc, m)) <==> forall l :: l in sc.locks ==> FitsAtItsTurn(sc, m, l))
  {
    hide Accepted, P.Sound, FitsAtItsTurn, ValidScenario;
    AcceptedUnlessDropped(sc, m);
    forall l | l in sc.locks ensures l.orderId in BaselinePlan(sc, m).unassigned <==> !FitsAtItsTurn(sc, m, l) {
      LockDroppedExactly(sc, m, l);
    }
  }

  /** Without locks the baseline is always accepted. */
  lemma UnlockedBaselineAccepted(sc: Scenario, m: Travel)
    requires ValidScenario(sc) && sc.locks == []
    ensures Accepted(FreshDay(sc, m), BaselinePlan(sc, m))
    ensures NothingStarted(sc) ==> P.Sound(sc, m, P.NOTHING_KNOWN, BaselinePlan(sc, m))
  {
    hide Accepted, P.Sound;
    BaselineAcceptedExactly(sc, m);
  }

  /** Greedy maximality of the baseline. */
  lemma BaselineIsMaximal(sc: Scenario, m: Travel, id: Id)
    requires ValidScenario(sc) && SlackTriangle(m)
    requires id in BaselinePlan(sc, m).unassigned
    ensures id in ActiveOrders(sc)
    ensures StopsKnown(YardOf(sc, m), BaselineBoard(sc, m).routes)
         && NoRoom(YardOf(sc, m), BaselineBoard(sc, m).routes, ActiveOrders(sc)[id])
  {
    QueueKnown(sc, m);
    forall o | o in Queue(sc) ensures o.duration >= 1 {
      SortMembers(UrgencyOrder, NotCompleted(sc.orders), o);
      NotCompletedMembers(sc.orders, o);
    }
    RunIsMaximal(YardOf(sc, m), EMPTY_BOARD, Queue(sc), id);
  }

  // ----- the triangle inequality is what maximality needs -----

  /** Over these roads no valid scenario has an unassigned order that still fits. */
  ghost predicate AlwaysMaximal(m: Travel) {
    forall sc: Scenario, id: Id :: ValidScenario(sc) && id in BaselinePlan(sc, m).unassigned ==>
      id in ActiveOrders(sc) && NoRoom(YardOf(sc, m), BaselineBoard(sc, m).routes, ActiveOrders(sc)[id])
  }

  /** A technician at `home`, an order at `far`, and a less urgent one at `via`, from where the first comes into reach. */
  datatype Shortcut = Shortcut(home: Point, via: Point, far: Point)

  /** Going via the other customer, with a minute of service there, is quicker. */
  predicate Quicker(m: Travel, x: Shortcut) {
    m(x.home, x.far) > m(x.home, x.via) + m(x.via, x.far) + 1
  }

  const FIRST := Id(2)
  const SECOND := Id(3)

  function Traveller(x: Shortcut): Technician {
    Technician(Id(1), {1}, 0, 1800, x.home, 240, 100)
  }

  /** The minute at which the far customer is reached via the other one. */
  function Detoured(m: Travel, x: Shortcut): nat {
    m(x.home, x.via) + 1 + m(x.via, x.far)
  }

  function FarOrder(m: Travel, x: Shortcut): WorkOrder {
    WorkOrder(FIRST, {1}, x.far, 1, 0, Detoured(m, x), 0, Normal, false, 1, Status.Pending, None)
  }

  function ViaOrder(m: Travel, x: Shortcut): WorkOrder {
    WorkOrder(SECOND, {1}, x.via, 1, 0, Detoured(m, x), 1, Normal, false, 1, Status.Pending, None)
  }

  function ShortcutDay(m: Travel, x: Shortcut): Scenario {
    Scenario([Traveller(x)], [FarOrder(m, x), ViaOrder(m, x)], [])
  }

  lemma PairFacts(o: WorkOrder, p: WorkOrder)
    requires o.id != p.id && !o.status.Completed? && !p.status.Completed? && UrgencyOrder(o, p)
    ensures NotCompleted([o, p]) == [o, p] && OrderIndex([o, p]) == map[o.id := o, p.id := p]
    ensures Sort(UrgencyOrder, [o, p]) == [o, p]
  {
    assert [o, p][..1] == [o] && [o][..0] == [];
    assert NotCompleted([o]) == [o];
    assert OrderIndex([o]) == map[o.id := o];
    assert Sort(UrgencyOrder, []) == [];
    assert Sort(UrgencyOrder, [o]) == [o];
  }

  lemma ShortcutFacts(m: Travel, x: Shortcut)
    ensures var o, p := FarOrder(m, x), ViaOrder(m, x);
            && ValidScenario(ShortcutDay(m, x)) && Queue(ShortcutDay(m, x)) == [o, p]
            && ActiveOrders(ShortcutDay(m, x)) == map[FIRST := o, SECOND := p]
  {
    PairFacts(FarOrder(m, x), ViaOrder(m, x));
    hide NotCompleted, OrderIndex, Sort;
  }

  /** The choice of a single technician. */
  lemma LoneStep(y: Yard, b: Board, t: Technician, o: WorkOrder)
    requires y.technicians == [t] && StopsKnown(y, b.routes) && o.id in y.orders
    ensures Step(y, b, o) == if Available(y, b.routes, t, o) then Place(b, o, OfferFrom(y, t, Tail(y, b.routes, t), o))
                             else b.(left := b.left + [o.id])
  {
    hide Available, OfferFrom, Tail, Place;
    assert Offers(y, b.routes, o, 0) == [];
    assert Offers(y, b.routes, o, 1) == if Available(y, b.routes, t, o) then [OfferFrom(y, t, Tail(y, b.routes, t), o)] else [];
  }

  lemma PairRun(y: Yard, b: Board, o: WorkOrder, p: WorkOrder)
    requires StopsKnown(y, b.routes) && OrdersKnown(y, [o, p])
    ensures Run(y, b, [o, p]) == Step(y, Step(y, b, o), p)
  {
    hide Step;
    assert [o, p][..1] == [o] && [o][..0] == [];
    assert Run(y, b, []) == b;
    assert Run(y, b, [o]) == Step(y, b, o);
  }

  function ShortcutYard(m: Travel, x: Shortcut): Yard {
    Yard([Traveller(x)], map[FIRST := FarOrder(m, x), SECOND := ViaOrder(m, x)], m, map[], map[])
  }

  /** From home the far order does not fit and the other does; from the other, the far order fits. */
  lemma ShortcutFits(m: Travel, x: Shortcut)
    requires Quicker(m, x) && forall a, b :: m(a, b) <= 679
    ensures var y, t, start, via := ShortcutYard(m, x), Traveller(x), Cursor(0, x.home), Cursor(m(x.home, x.via) + 1, x.via);
            && !Fits(y, t, start, FarOrder(m, x)) && Fits(y, t, start, ViaOrder(m, x)) && Fits(y, t, via, FarOrder(m, x))
            && OfferFrom(y, t, start, ViaOrder(m, x)).finish == m(x.home, x.via) + 1
  {
  }

  /** What the loop does on the shortcut: leave the far order, place the other, and could then serve both. */
  lemma ShortcutRun(m: Travel, x: Shortcut)
    requires Quicker(m, x) && forall a, b :: m(a, b) <= 679
    ensures var y := ShortcutYard(m, x);
            && OrdersKnown(y, [FarOrder(m, x), ViaOrder(m, x)]) && StopsKnown(y, EMPTY_BOARD.routes)
            && var b := Run(y, EMPTY_BOARD, [FarOrder(m, x), ViaOrder(m, x)]);
               b.left == [FIRST] && Available(y, b.routes, Traveller(x), FarOrder(m, x))
  {
    ShortcutFits(m, x);
    var y, t, o, p := ShortcutYard(m, x), Traveller(x), FarOrder(m, x), ViaOrder(m, x);
    hide Fits, OfferFrom, Quicker;
    var f := OfferFrom(y, t, Cursor(0, x.home), p);
    OfferTech(y, t, Cursor(0, x.home), p);
    assert Tail(y, EMPTY_BOARD.routes, t) == Cursor(0, x.home);
    PairRun(y, EMPTY_BOARD, o, p);
    LoneStep(y, EMPTY_BOARD, t, o);
    LoneStep(y, Step(y, EMPTY_BOARD, o), t, p);
    hide Step, Run;
    assert Step(y, EMPTY_BOARD, o) == Board(map[], [], [FIRST]);
    var b := Step(y, Step(y, EMPTY_BOARD, o), p);
    assert b == Place(Board(map[], [], [FIRST]), p, f);
    assert Tail(y, b.routes, t) == Cursor(m(x.home, x.via) + 1, x.via);
  }

  lemma OfferTech(y: Yard, t: Technician, c: Cursor, o: WorkOrder)
    ensures OfferFrom(y, t, c, o).tech == t
  {
  }

  /** The far order is left out although it fits behind the other one in the end. */
  lemma ShortcutMissed(m: Travel, x: Shortcut)
    requires Quicker(m, x) && forall a, b :: m(a, b) <= 679
    ensures !AlwaysMaximal(m)
  {
    var sc := ShortcutDay(m, x);
    ShortcutFacts(m, x);
    QueueKnown(sc, m);
    assert LockIndex([]) == map[];
    hide Queue, ValidScenario, ActiveOrders, LockIndex, Sort, Quicker, Run, Available;
    assert YardOf(sc, m) == ShortcutYard(m, x);
    ShortcutRun(m, x);
    assert Traveller(x) in YardOf(sc, m).technicians;
    assert FIRST in BaselinePlan(sc, m).unassigned;
  }

  /**
    Over roads on which no leg takes longer than 679 minutes, so that three legs
    fit into the longest day, the baseline of every valid scenario is maximal if
    and only if travel obeys the triangle inequality up to one minute.
   */
  lemma MaximalExactly(m: Travel)
    requires forall a, b :: m(a, b) <= 679
    ensures AlwaysMaximal(m) <==> SlackTriangle(m)
  {
    hide ValidScenario, NoRoom, BaselineBoard, ActiveOrders;
    if SlackTriangle(m) {
      forall sc: Scenario, id: Id | ValidScenario(sc) && id in BaselinePlan(sc, m).unassigned
        ensures id in ActiveOrders(sc) && NoRoom(YardOf(sc, m), BaselineBoard(sc, m).routes, ActiveOrders(sc)[id])
      {
        BaselineIsMaximal(sc, m, id);
      }
    } else {
      var a, b, c :| !(m(a, c) <= m(a, b) + m(b, c) + 1);
      ShortcutMissed(m, Shortcut(a, b, c));
    }
  }

  // ----- a lock that no plan can keep -----

  const SHORT_DAY := Technician(Id(1), {1}, 0, 60, Point(0.0, 0.0), 0, 100)
  const LONG_VISIT := WorkOrder(Id(2), {1}, Point(0.0, 0.0), 100, 0, 1000, 1000, Normal, false, 1, Status.Pending, None)
  const LONG_LOCK := Scenario([SHORT_DAY], [LONG_VISIT], [Lock(Id(2), Id(1))])

  lemma LongLockFacts()
    ensures ActiveOrders(LONG_LOCK) == map[Id(2) := LONG_VISIT] && ValidScenario(LONG_LOCK)
    ensures Queue(LONG_LOCK) == [LONG_VISIT]
  {
    var t, o, l := SHORT_DAY, LONG_VISIT, Lock(Id(2), Id(1));
    assert [t][..0] == [] && [o][..0] == [] && [l][..0] == [];
    assert NotCompleted([o]) == [o];
    assert OrderIndex([o]) == map[o.id := o];
    assert TechnicianIndex([t]) == map[t.id := t];
    assert Sort(UrgencyOrder, []) == [];
    assert Sort(UrgencyOrder, [o]) == [o];
  }

  /** The dropped lock is real: a locked order longer than its technician's day. */
  lemma BaselineMayDropALock()
    ensures exists sc: Scenario, m: Travel :: ValidScenario(sc) && DropsLockedOrder(sc, BaselinePlan(sc, m))
  {
    var sc, o := LONG_LOCK, LONG_VISIT;
    var m: Travel := (a, b) => 0;
    LongLockFacts();
    QueueKnown(sc, m);
    hide Queue, ValidScenario, ActiveOrders, Sort;
    var y := YardOf(sc, m);
    assert !Available(y, map[], SHORT_DAY, o);
    assert [o][..0] == [];
    assert Offers(y, map[], o, 0) == [];
    assert Offers(y, map[], o, 1) == [];
    assert Run(y, EMPTY_BOARD, []) == EMPTY_BOARD;
    assert Run(y, EMPTY_BOARD, [o]) == Step(y, EMPTY_BOARD, o);
    assert BaselinePlan(sc, m).unassigned == [o.id];
    assert Lock(Id(2), Id(1)) in sc.locks;
  }
}
