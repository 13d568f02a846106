/**
  Two runs of the same route under common random numbers. Because every draw is
  keyed by ids and never by time, a run that starts later stays later: this
  orders the two execution policies, and it bounds what an emergency can do.
 */
module RiskCoupling {
  import opened Domain
  import opened Risk
  import opened RiskTimeline
  import opened Trial
  import opened TrialBooks

  // ----- comparing books -----

  predicate Served(x: Outcome) {
    x.disposition.OnTime? || x.disposition.Late?
  }

  /** `y` is the same visit, served no earlier than in `x`. */
  predicate NoLaterOutcome(x: Outcome, y: Outcome) {
    || x == y
    || (Served(x) && Served(y) && LateOf(x) <= LateOf(y) && (y.disposition.OnTime? ==> x.disposition.OnTime?))
  }

  ghost predicate NoLater(a: Tally, b: Tally) {
    && a.outcomes.Keys == b.outcomes.Keys && a.windowViolations.Keys == b.windowViolations.Keys
    && (forall id :: id in a.outcomes ==> NoLaterOutcome(a.outcomes[id], b.outcomes[id]))
    && (forall id :: id in a.windowViolations && a.windowViolations[id] ==> b.windowViolations[id])
    && a.onTime >= b.onTime && a.totalLate <= b.totalLate && a.unserved == b.unserved
    && a.noShowFailure == b.noShowFailure && (a.windowFailure ==> b.windowFailure)
  }

  lemma RecordNoLater(a: Tally, b: Tally, t: Id, o: WorkOrder, start: int, finish: int, start': int, finish': int,
                      noShow: bool)
    requires NoLater(a, b) && start <= start' && finish <= finish'
    ensures NoLater(Record(a, t, o, start, finish, noShow), Record(b, t, o, start', finish', noShow))
  {
  }

  lemma MergeNoLater(a: Tally, b: Tally, c: Tally, d: Tally)
    requires NoLater(a, b) && NoLater(c, d)
    ensures NoLater(Merge(a, c), Merge(b, d))
  {
  }

  lemma NoLaterSelf(a: Tally)
    ensures NoLater(a, a)
  {
  }

  // ----- two worlds, one pair of states -----

  /** The same trial, where `v` may also hold visits back to their published start. */
  ghost predicate SamePace(w: World, v: World) {
    v == w.(follow := v.follow) && (w.follow ==> v.follow)
  }

  /** Same place on the route; `y` is no earlier and its books no better. */
  ghost predicate Behind(x: RouteState, y: RouteState) {
    && x.tech == y.tech && x.next == y.next && x.location == y.location && x.predecessor == y.predecessor
    && x.ready == None && y.ready == None && x.current <= y.current && NoLater(x.tally, y.tally)
  }

  /** If the leg ends no earlier, the visit starts and finishes no earlier, and the door opens or not alike. */
  lemma LaterArrivalLaterVisit(w: World, v: World, x: RouteState, y: RouteState, a: Assignment)
    requires SamePace(w, v) && w.jitter <= 100 && a.orderId in w.orders
    requires ArrivalAt(w, x, w.orders[a.orderId]) <= ArrivalAt(v, y, v.orders[a.orderId])
    ensures var s, t := OrderTiming(w, x, a), OrderTiming(v, y, a);
            s.arrival <= t.arrival && s.start <= t.start && s.finish <= t.finish && s.noShow == t.noShow
            && t.finish - t.start == s.finish - s.start
  {
    hide ArrivalAt, KeyedDraw;
    StayIsShared(w, v, w.orders[a.orderId]);
  }

  lemma StayIsShared(w: World, v: World, o: WorkOrder)
    requires SamePace(w, v) && w.jitter <= 100
    ensures Stay(w, o) == Stay(v, o) && NoShowOf(w, o.id) == NoShowOf(v, o.id)
  {
    hide KeyedDraw;
  }

  lemma SameLeg(w: World, v: World, x: RouteState, y: RouteState, o: WorkOrder)
    requires SamePace(w, v) && Behind(x, y)
    ensures ArrivalAt(w, x, o) <= ArrivalAt(v, y, o)
  {
    hide KeyedDraw, Delayed, NoLater;
  }

  /** Serving the next visit of both runs once the leg of `y` ends no earlier. */
  lemma ServeBehind(w: World, v: World, x: RouteState, y: RouteState)
    requires SamePace(w, v) && Fits(w, x) && Fits(v, y) && x.tech == y.tech && x.next == y.next
    requires x.next < Visits(w, x.tech) && NoLater(x.tally, y.tally)
    requires var o := w.orders[RouteFor(w, x.tech)[x.next].orderId]; ArrivalAt(w, x, o) <= ArrivalAt(v, y, o)
    ensures Behind(Serve(w, x), Serve(v, y))
  {
    hide NoLater, Record, OrderTiming, ArrivalAt;
    var a := RouteFor(w, x.tech)[x.next];
    LaterArrivalLaterVisit(w, v, x, y, a);
    var s, t := OrderTiming(w, x, a), OrderTiming(v, y, a);
    RecordNoLater(x.tally, y.tally, x.tech, w.orders[a.orderId], s.start, s.finish, t.start, t.finish, s.noShow);
  }

  lemma {:induction false} ServeAllBehind(w: World, v: World, x: RouteState, y: RouteState)
    requires SamePace(w, v) && Fits(w, x) && Fits(v, y) && Behind(x, y)
    ensures Behind(ServeAll(w, x), ServeAll(v, y))
    decreases Visits(w, x.tech) - x.next
  {
    hide NoLater, ArrivalAt;
    if x.next < Visits(w, x.tech) {
      var o := w.orders[RouteFor(w, x.tech)[x.next].orderId];
      SameLeg(w, v, x, y, o);
      ServeBehind(w, v, x, y);
      assert Fits(w, Serve(w, x)) && Fits(v, Serve(v, y));
      ServeAllBehind(w, v, Serve(w, x), Serve(v, y));
    }
  }

  lemma {:induction false} AfterBehind(w: World, v: World, x: RouteState, y: RouteState, k: nat)
    requires SamePace(w, v) && Fits(w, x) && Fits(v, y) && Behind(x, y) && x.next + k <= Visits(w, x.tech)
    ensures Behind(After(w, x, k), After(v, y, k))
  {
    hide NoLater, ArrivalAt;
    if k > 0 {
      AfterBehind(w, v, x, y, k - 1);
      var p, q := After(w, x, k - 1), After(v, y, k - 1);
      SameLeg(w, v, p, q, w.orders[RouteFor(w, x.tech)[p.next].orderId]);
      ServeBehind(w, v, p, q);
    }
  }

  lemma ReturnBehind(w: World, v: World, x: RouteState, y: RouteState)
    requires SamePace(w, v) && x.tech in w.technicians && Behind(x, y)
    ensures ReturnFinish(w, x) <= ReturnFinish(v, y)
  {
    hide KeyedDraw, Delayed, NoLater;
  }

  /** A finished route compared with a finished route. */
  ghost predicate FinishedBehind(x: RouteState, y: RouteState) {
    && x.tech == y.tech && x.current <= y.current && NoLater(x.tally, y.tally)
    && x.totalOvertime <= y.totalOvertime && (x.overtimeFailure ==> y.overtimeFailure)
  }

  // ----- EARLIEST_FEASIBLE_EXECUTION against FOLLOW_PUBLISHED_SCHEDULE -----

  lemma {:induction false} ServeAllKeeps(w: World, s: RouteState)
    requires Fits(w, s)
    ensures var r := ServeAll(w, s);
            r.returned == s.returned && r.response == s.response
            && r.totalOvertime == s.totalOvertime && r.overtimeFailure == s.overtimeFailure
    decreases Visits(w, s.tech) - s.next
  {
    hide Record, OrderTiming;
    if s.next < Visits(w, s.tech) {
      ServeAllKeeps(w, Serve(w, s));
    }
  }

  lemma QuietRouteDominance(w: World, v: World, t: Id)
    requires SamePace(w, v) && WellFormed(w) && WellFormed(v) && t in w.technicians
    ensures FinishedBehind(FinishRoute(w, NewState(w, t)), FinishRoute(v, NewState(v, t)))
  {
    hide NoLater, ServeAll, ReturnFinish;
    var x, y := NewState(w, t), NewState(v, t);
    NoLaterSelf(EMPTY_TALLY);
    ServeAllBehind(w, v, x, y);
    ServeAllKeeps(w, x);
    ServeAllKeeps(v, y);
    ReturnBehind(w, v, ServeAll(w, x), ServeAll(v, y));
  }

  /** Visit by visit: starting as early as feasible is never later than following the published times. */
  lemma EarliestVisitsNoLater(w: World, v: World, t: Id, k: nat)
    requires SamePace(w, v) && WellFormed(w) && WellFormed(v) && t in w.technicians && k < Visits(w, t)
    ensures var m, n := Moment(w, NewState(w, t), k), Moment(v, NewState(v, t), k);
            m.arrival <= n.arrival && m.start <= n.start && m.finish <= n.finish
  {
    hide NoLater, ArrivalAt, Record;
    var x, y := NewState(w, t), NewState(v, t);
    NoLaterSelf(EMPTY_TALLY);
    AfterBehind(w, v, x, y, k);
    NewFits(w, t);
    NewFits(v, t);
    AfterOneMore(w, x, k);
    AfterOneMore(v, y, k);
    hide NewState, After, Moment, Serve;
    var a := RouteFor(w, t)[k];
    SameLeg(w, v, After(w, x, k), After(v, y, k), w.orders[a.orderId]);
    LaterArrivalLaterVisit(w, v, After(w, x, k), After(v, y, k), a);
  }

  /** The relation between two whole trials. */
  ghost predicate TrialNoWorse(a: TrialResult, b: TrialResult) {
    && NoLater(a.tally, b.tally) && a.totalOvertime <= b.totalOvertime && (a.overtimeFailure ==> b.overtimeFailure)
    && a.overtime.Keys == b.overtime.Keys && (forall t :: t in a.overtime ==> a.overtime[t] <= b.overtime[t])
  }

  lemma AddNoWorse(p: Plan, q: Plan, a: TrialResult, b: TrialResult, x: RouteState, y: RouteState)
    requires TrialNoWorse(a, b) && FinishedBehind(x, y) && x.tech in p.world.technicians
    requires p.world.technicians == q.world.technicians
    ensures TrialNoWorse(AddRoute(p, a, x), AddRoute(q, b, y))
  {
    hide NoLater;
    MergeNoLater(a.tally, b.tally, x.tally, y.tally);
  }

  lemma {:induction false} CollectNoWorse(p: Plan, q: Plan, absent: set<Id>, s: TrialResult, n: nat)
    requires ValidPlan(p) && ValidPlan(q) && q == p.(world := q.world) && SamePace(p.world, q.world) && n <= |p.roster|
    ensures TrialNoWorse(Collect(p, absent, None, None, s, n), Collect(q, absent, None, None, s, n))
  {
    hide NoLater, AddRoute, FinishRoute, NewState, Collect;
    if n == 0 {
      CollectNone(p, absent, None, None, s);
      CollectNone(q, absent, None, None, s);
      NoLaterSelf(s.tally);
    } else {
      var t := p.roster[n - 1];
      CollectNoWorse(p, q, absent, s, n - 1);
      CollectStep(p, absent, None, None, s, n);
      CollectStep(q, absent, None, None, s, n);
      if t !in absent {
        QuietRouteDominance(p.world, q.world, t);
        AddNoWorse(p, q, Collect(p, absent, None, None, s, n - 1), Collect(q, absent, None, None, s, n - 1),
                   Final(p, None, None, t), Final(q, None, None, t));
      }
    }
  }

  lemma {:induction false} SameBooked(p: Plan, q: Plan, absent: set<Id>, n: nat)
    requires q == p.(world := q.world) && q.world.routes == p.world.routes && n <= |p.roster|
    ensures Booked(p, absent, n) == Booked(q, absent, n)
  {
    if n > 0 {
      SameBooked(p, q, absent, n - 1);
    }
  }

  /**
    Common-random-number dominance: without an emergency, for every draw, the
    earliest-feasible policy is no worse than following the published schedule,
    order by order, technician by technician and in every total.
   */
  lemma PolicyDominance(p: Plan, q: Plan, absent: set<Id>)
    requires ValidPlan(p) && ValidPlan(q) && q == p.(world := p.world.(follow := true)) && !p.world.follow
    ensures TrialNoWorse(TrialOutcome(p, absent, None), TrialOutcome(q, absent, None))
  {
    hide Collect, Booked;
    SameBooked(p, q, absent, |p.roster|);
    CollectNoWorse(p, q, absent, Opening(p, absent, None, None), |p.roster|);
  }
}
