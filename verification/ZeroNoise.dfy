/**
  With all noise switched off and FOLLOW_PUBLISHED_SCHEDULE, simulating a checked
  plan is replaying it: every published minute, the punctuality figures, the
  overtime, and no disruption.
 */
module ZeroNoise {
  import opened Domain
  import opened Sorting
  import opened Routes
  import F = Feasibility
  import opened Kpi
  import opened Risk
  import opened RiskTimeline
  import opened Trial
  import opened CapacityTheorems
  import opened PlainPlans

  // ----- sums that ignore order -----

  function SumOf<T>(s: seq<T>, f: T -> int): int {
    if s == [] then 0 else SumOf(s[..|s| - 1], f) + f(s[|s| - 1])
  }

  lemma {:induction false} SumInsert<T>(leq: (T, T) -> bool, s: seq<T>, a: T, f: T -> int)
    ensures SumOf(Insert(leq, s, a), f) == SumOf(s, f) + f(a)
  {
    if s == [] || leq(s[|s| - 1], a) {
      assert (s + [a])[..|s|] == s;
    } else {
      SumInsert(leq, s[..|s| - 1], a, f);
      var front := Insert(leq, s[..|s| - 1], a);
      assert (front + [s[|s| - 1]])[..|front|] == front;
    }
  }

  lemma {:induction false} SumSort<T>(leq: (T, T) -> bool, s: seq<T>, f: T -> int)
    ensures SumOf(Sort(leq, s), f) == SumOf(s, f)
  {
    if s != [] {
      SumSort(leq, s[..|s| - 1], f);
      SumInsert(leq, Sort(leq, s[..|s| - 1]), s[|s| - 1], f);
    }
  }

  /** Per-technician sums add up to the sum over the whole list. */
  lemma {:induction false} SumByTechnician(s: seq<Assignment>, roster: seq<Id>, f: Assignment -> int, g: Id -> int)
    requires Distinct(roster) && forall a :: a in s ==> a.techId in roster
    requires forall t :: g(t) == SumOf(Mine(s, t), f)
    ensures SumOf(roster, g) == SumOf(s, f)
  {
    if s == [] {
      SumZero(roster, g);
    } else {
      var front, last := s[..|s| - 1], s[|s| - 1];
      var h: Id -> int := t => SumOf(Mine(front, t), f);
      SumByTechnician(front, roster, f, h);
      forall t ensures g(t) == h(t) + (if t == last.techId then f(last) else 0) {
        if t == last.techId {
          assert (Mine(front, t) + [last])[..|Mine(front, t)|] == Mine(front, t);
        } else {
          assert Mine(front, t) + [] == Mine(front, t);
        }
      }
      SumBump(roster, h, g, last.techId, f(last));
    }
  }

  lemma {:induction false} SumZero(roster: seq<Id>, g: Id -> int)
    requires forall t :: g(t) == 0
    ensures SumOf(roster, g) == 0
  {
    if roster != [] {
      SumZero(roster[..|roster| - 1], g);
    }
  }

  /** Raising one technician's share by d raises the total by d. */
  lemma {:induction false} SumBump(roster: seq<Id>, h: Id -> int, g: Id -> int, t: Id, d: int)
    requires Distinct(roster) && forall x :: g(x) == h(x) + (if x == t then d else 0)
    ensures SumOf(roster, g) == SumOf(roster, h) + (if t in roster then d else 0)
  {
    if roster != [] {
      var front, last := roster[..|roster| - 1], roster[|roster| - 1];
      assert roster == front + [last];
      SumBump(front, h, g, t, d);
    }
  }

  // ----- one route -----

  ghost predicate Noiseless(w: World) {
    w.delayMax == 0 && w.jitter == 0 && w.noShow == 0 && w.follow
  }

  function LateMinutes(a: Assignment): int {
    a.slaLate
  }

  function Promptness(a: Assignment): int {
    if a.slaLate <= 0 then 1 else 0
  }

  /** What the books say after replaying the first k visits. */
  ghost predicate Replayed(w: World, t: Id, r: seq<Assignment>, k: nat, s: RouteState)
    requires k <= |r|
  {
    && s.tally.onTime == SumOf(r[..k], Promptness) && s.tally.totalLate == SumOf(r[..k], LateMinutes)
    && s.tally.unserved == 0 && !s.tally.noShowFailure && !s.tally.windowFailure
    && s.ready == None && !s.returned
  }

  /** The simulated technician stands where the checker's cursor stands. */
  ghost predicate StandsAt(u: F.Rules, t: Technician, r: seq<Assignment>, k: nat, s: RouteState)
    requires k <= |r| && AllKnown(u.orders, r)
  {
    if k == 0 then s.current == Departure(u, t) && s.location == DeparturePlace(u, t)
    else s.current == r[k - 1].finish && s.location == u.orders[r[k - 1].orderId].location
  }

  lemma QuietTiming(w: World, s: RouteState, a: Assignment)
    requires Noiseless(w) && a.orderId in w.orders && w.orders[a.orderId].duration >= 1 && s.ready == None
    ensures var o := w.orders[a.orderId];
            var arrival := s.current + w.travel(s.location, o.location);
            var start := Max(Max(arrival, ReadyAt(o)), a.start);
            OrderTiming(w, s, a) == Timing(arrival, start, start + o.duration, false)
  {
  }

  /** Replaying one visit reproduces its published minutes. */
  lemma ReplayMoment(w: World, u: F.Rules, t: Technician, r: seq<Assignment>, k: nat, s: RouteState)
    requires Noiseless(w) && SimulatesRules(w, u) && PlainRoute(u, t, r) && AllKnown(u.orders, r)
    requires k < |r| && StandsAt(u, t, r, k, s) && s.ready == None
    ensures r[k].orderId in w.orders
    ensures OrderTiming(w, s, r[k]) == Timing(r[k].arrival, r[k].start, r[k].finish, false)
    ensures r[k].start <= w.orders[r[k].orderId].windowEnd
    ensures r[k].slaLate == Max(0, r[k].finish - w.orders[r[k].orderId].slaDeadline)
  {
    hide PlainRoute, OrderTiming;
    PlainOrigin(u, t, r, k);
    PlainVisit(u, t, r, k);
    QuietTiming(w, s, r[k]);
  }

  lemma {:induction false} ReplayRoute(w: World, u: F.Rules, t: Technician, r: seq<Assignment>, k: nat)
    requires Noiseless(w) && SimulatesRules(w, u) && PlainRoute(u, t, r) && AllKnown(u.orders, r)
    requires t.id in w.technicians && w.technicians[t.id] == t && r == RouteFor(w, t.id) && k <= |r|
    ensures var s := After(w, NewState(w, t.id), k);
            StandsAt(u, t, r, k, s) && Replayed(w, t.id, r, k, s)
  {
    hide PlainRoute, OrderTiming;
    if k == 0 {
      assert r[..0] == [];
    } else {
      ReplayRoute(w, u, t, r, k - 1);
      var before := After(w, NewState(w, t.id), k - 1);
      ReplayMoment(w, u, t, r, k - 1, before);
      assert r[..k][..k - 1] == r[..k - 1];
      assert w.orders[r[k - 1].orderId] == u.orders[r[k - 1].orderId];
    }
  }

  /** Visit by visit: the simulated arrival, start and finish are the published ones. */
  lemma ReplayPublishedTimes(w: World, u: F.Rules, t: Technician, r: seq<Assignment>, k: nat)
    requires Noiseless(w) && SimulatesRules(w, u) && PlainRoute(u, t, r)
    requires t.id in w.technicians && w.technicians[t.id] == t && r == RouteFor(w, t.id) && k < |r|
    ensures Moment(w, NewState(w, t.id), k) == Timing(r[k].arrival, r[k].start, r[k].finish, false)
  {
    PlainKnown(u, t, r);
    ReplayRoute(w, u, t, r, k);
    ReplayMoment(w, u, t, r, k, After(w, NewState(w, t.id), k));
  }

  /** The finished route has the published punctuality and the overtime of the KPIs, and broke nothing. */
  lemma ReplayFinish(w: World, u: F.Rules, t: Technician, r: seq<Assignment>)
    requires Noiseless(w) && SimulatesRules(w, u) && PlainRoute(u, t, r) && F.Terminal(u, t) == t.depot
    requires t.id in w.technicians && w.technicians[t.id] == t && r == RouteFor(w, t.id)
    requires t.shiftStart <= t.shiftEnd
    ensures AllKnown(u.orders, r)
    ensures var s := FinishRoute(w, NewState(w, t.id));
            && s.tally.onTime == SumOf(r, Promptness) && s.tally.totalLate == SumOf(r, LateMinutes)
            && s.tally.unserved == 0 && !s.tally.noShowFailure && !s.tally.windowFailure
            && s.totalOvertime == RouteKpi(u.orders, u.travel, t, r).overtime && !s.overtimeFailure
  {
    hide PlainRoute, Serve, StandsAt, ReturnFinish;
    PlainKnown(u, t, r);
    ServeAllIsAfter(w, NewState(w, t.id));
    ReplayRoute(w, u, t, r, |r|);
    assert r[..|r|] == r;
    var s := After(w, NewState(w, t.id), |r|);
    OccupiedTelescopes(u, t, r);
    QuietReturn(w, u, t, r, s);
  }

  lemma QuietReturn(w: World, u: F.Rules, t: Technician, r: seq<Assignment>, s: RouteState)
    requires Noiseless(w) && SimulatesRules(w, u) && AllKnown(u.orders, r) && StandsAt(u, t, r, |r|, s)
    requires F.Terminal(u, t) == t.depot && s.tech == t.id && t.id in w.technicians && w.technicians[t.id] == t
    ensures r != [] ==> ReturnFinish(w, s) == RouteEnd(u.orders, u.travel, t, r)
  {
  }

  // ----- the whole trial -----

  /** Everything one route of the replay rests on. */
  ghost predicate Replayable(p: Plan, u: F.Rules, s: Schedule) {
    && ValidPlan(p) && Noiseless(p.world) && SimulatesRules(p.world, u)
    && p.unassigned == s.unassigned
    && (forall t :: t in u.technicians ==>
          && RouteFor(p.world, t) == Route(s.assignments, t)
          && PlainRoute(u, u.technicians[t], Route(s.assignments, t))
          && F.Terminal(u, u.technicians[t]) == u.technicians[t].depot
          && u.technicians[t].shiftStart <= u.technicians[t].shiftEnd)
  }

  lemma CommittedIsReplayable(p: Plan, sc: Scenario, m: Travel, entries: map<Id, RouteEntry>, frozen: set<Id>, s: Schedule)
    requires CommittedPlan(sc, m, entries, frozen, s) && EntriesOpen(s, entries)
    requires Simulates(p, Day(sc, m, entries, frozen), s) && EndsAtDepots(Day(sc, m, entries, frozen)) && Noiseless(p.world)
    ensures Replayable(p, Day(sc, m, entries, frozen), s)
  {
    var u := Day(sc, m, entries, frozen);
    SimulatedRules(p, sc, m, entries, frozen, s);
    hide PlainRoute, CommittedPlan, EntriesOpen, Route, SimulatesRules, TechnicianIndex;
    forall t | t in u.technicians
      ensures PlainRoute(u, u.technicians[t], Route(s.assignments, t))
              && u.technicians[t].shiftStart <= u.technicians[t].shiftEnd
    {
      TechnicianIndexSound(sc.technicians, t);
      CommittedRoute(sc, m, entries, frozen, s, u.technicians[t]);
    }
  }

  /** The published overtime of one technician. */
  function PublishedOvertime(u: F.Rules, s: Schedule, t: Id): int {
    if t in u.technicians && (forall k :: 0 <= k < |Route(s.assignments, t)| ==> Route(s.assignments, t)[k].orderId in u.orders)
    then RouteKpi(u.orders, u.travel, u.technicians[t], Route(s.assignments, t)).overtime
    else 0
  }

  lemma {:induction false} BookedQuiet(p: Plan, n: nat)
    requires n <= |p.roster|
    ensures Booked(p, {}, n) == UnassignedTally(p.unassigned)
  {
    if n > 0 {
      BookedQuiet(p, n - 1);
    }
  }

  /** What has been collected after n technicians, in terms of each technician's shares. */
  ghost predicate QuietTotals(p: Plan, s: Schedule, r: TrialResult, n: nat, onTime: Id -> int, late: Id -> int,
                              overtime: Id -> int)
    requires n <= |p.roster|
  {
    && r.tally.onTime == SumOf(p.roster[..n], onTime) && r.tally.totalLate == SumOf(p.roster[..n], late)
    && r.totalOvertime == SumOf(p.roster[..n], overtime) && r.tally.unserved == |s.unassigned|
    && !r.tally.noShowFailure && !r.tally.windowFailure && !r.overtimeFailure
  }

  /** The shares of each technician: routes as published. */
  ghost predicate Shares(u: F.Rules, s: Schedule, onTime: Id -> int, late: Id -> int, overtime: Id -> int) {
    && (forall t :: onTime(t) == SumOf(Route(s.assignments, t), Promptness))
    && (forall t :: late(t) == SumOf(Route(s.assignments, t), LateMinutes))
    && (forall t :: overtime(t) == PublishedOvertime(u, s, t))
  }

  lemma AddQuiet(p: Plan, s: Schedule, r: TrialResult, f: RouteState, n: nat, onTime: Id -> int, late: Id -> int,
                 overtime: Id -> int)
    requires 0 < n <= |p.roster| && QuietTotals(p, s, r, n - 1, onTime, late, overtime)
    requires f.tech == p.roster[n - 1] && f.tech in p.world.technicians
    requires f.tally.onTime == onTime(f.tech) && f.tally.totalLate == late(f.tech) && f.totalOvertime == overtime(f.tech)
    requires f.tally.unserved == 0 && !f.tally.noShowFailure && !f.tally.windowFailure && !f.overtimeFailure
    ensures QuietTotals(p, s, AddRoute(p, r, f), n, onTime, late, overtime)
  {
    assert p.roster[..n][..n - 1] == p.roster[..n - 1];
  }

  lemma {:induction false} CollectQuiet(p: Plan, u: F.Rules, s: Schedule, n: nat, onTime: Id -> int, late: Id -> int,
                                        overtime: Id -> int)
    requires Replayable(p, u, s) && n <= |p.roster| && Shares(u, s, onTime, late, overtime)
    ensures QuietTotals(p, s, Collect(p, {}, None, None, Opening(p, {}, None, None), n), n, onTime, late, overtime)
  {
    hide PlainRoute, Final, SimulatesRules, Noiseless, QuietTotals, AddRoute, Booked;
    var opening := Opening(p, {}, None, None);
    if n == 0 {
      OpeningQuiet(p, s, onTime, late, overtime);
    } else {
      var t := p.roster[n - 1];
      CollectQuiet(p, u, s, n - 1, onTime, late, overtime);
      FinalKeepsTech(p, None, None, t);
      ReplayTechnician(p, u, s, t);
      AddQuiet(p, s, Collect(p, {}, None, None, opening, n - 1), Final(p, None, None, t), n, onTime, late, overtime);
    }
  }

  lemma OpeningQuiet(p: Plan, s: Schedule, onTime: Id -> int, late: Id -> int, overtime: Id -> int)
    requires ValidPlan(p) && p.unassigned == s.unassigned
    ensures QuietTotals(p, s, Opening(p, {}, None, None), 0, onTime, late, overtime)
  {
    BookedQuiet(p, |p.roster|);
    assert p.roster[..0] == [];
  }

  lemma ReplayTechnician(p: Plan, u: F.Rules, s: Schedule, t: Id)
    requires Replayable(p, u, s) && t in p.world.technicians
    ensures var r, f := Route(s.assignments, t), Final(p, None, None, t);
            && f.tally.onTime == SumOf(r, Promptness) && f.tally.totalLate == SumOf(r, LateMinutes)
            && f.tally.unserved == 0 && !f.tally.noShowFailure && !f.tally.windowFailure
            && f.totalOvertime == PublishedOvertime(u, s, t) && !f.overtimeFailure
  {
    hide PlainRoute, FinishRoute, RouteKpi, Noiseless, NewState;
    var tech := u.technicians[t];
    assert tech.id == t;
    ReplayFinish(p.world, u, tech, Route(s.assignments, t));
    forall k | 0 <= k < |Route(s.assignments, t)| ensures Route(s.assignments, t)[k].orderId in u.orders {
      assert Route(s.assignments, t)[k] in Route(s.assignments, t);
    }
  }

  // ----- against the published KPIs -----

  lemma {:induction false} CountedSums(orders: map<Id, WorkOrder>, s: seq<Assignment>)
    requires forall a :: a in s ==> Counts(orders, a)
    ensures OnTimeCount(orders, s) == SumOf(s, Promptness) && LateSum(orders, s) == SumOf(s, LateMinutes)
  {
    if s != [] {
      assert s[|s| - 1] in s;
      CountedSums(orders, s[..|s| - 1]);
    }
  }

  /** Published overtime summed in scenario order is the KPI total. */
  lemma {:induction false} OvertimeTotal(u: F.Rules, orders: map<Id, WorkOrder>, ts: seq<Technician>, s: Schedule,
                                         overtime: Id -> int)
    requires VisitsKnown(orders, s.assignments) && forall t :: overtime(t) == PublishedOvertime(u, s, t)
    requires forall o :: o in u.orders ==> o in orders && orders[o] == u.orders[o]
    requires forall t :: t in ts ==> t.id in u.technicians && u.technicians[t.id] == t
    requires forall t :: AllKnown(u.orders, Route(s.assignments, t))
    ensures OvertimeSum(Figures(orders, u.travel, ts, s.assignments)) == SumOf(TechnicianIds(ts), overtime)
  {
    hide Route;
    if ts != [] {
      var front, last := ts[..|ts| - 1], ts[|ts| - 1];
      OvertimeTotal(u, orders, front, s, overtime);
      assert TechnicianIds(ts)[..|ts| - 1] == TechnicianIds(front);
      var r := Route(s.assignments, last.id);
      forall k | 0 <= k < |r| ensures r[k].orderId in u.orders {
        assert r[k] in r;
      }
      var ks := Figures(orders, u.travel, front, s.assignments);
      var k := RouteKpi(orders, u.travel, last, r);
      assert (ks + [k])[..|ks|] == ks;
      SameFigures(u.orders, orders, u.travel, last, r);
    }
  }

  lemma RosterSums(sc: Scenario, s: Schedule, roster: seq<Id>, f: Assignment -> int, g: Id -> int)
    requires roster == Sort(RankOrder, TechnicianIds(sc.technicians)) && Distinct(TechnicianIds(sc.technicians))
    requires forall a :: a in s.assignments ==> a.techId in TechnicianIndex(sc.technicians)
    requires forall t :: g(t) == SumOf(Route(s.assignments, t), f)
    ensures SumOf(roster, g) == SumOf(s.assignments, f)
  {
    SortContents(RankOrder, TechnicianIds(sc.technicians));
    DistinctIsCounted(TechnicianIds(sc.technicians));
    DistinctIsCounted(roster);
    forall a | a in s.assignments ensures a.techId in roster {
      TechnicianIndexSound(sc.technicians, a.techId);
      var i :| 0 <= i < |sc.technicians| && sc.technicians[i].id == a.techId;
      assert TechnicianIds(sc.technicians)[i] == a.techId;
      SortMembers(RankOrder, TechnicianIds(sc.technicians), a.techId);
    }
    forall t ensures g(t) == SumOf(Mine(s.assignments, t), f) {
      SumSort(SequenceOrder, Mine(s.assignments, t), f);
    }
    SumByTechnician(s.assignments, roster, f, g);
  }

  /**
    Zero-noise refinement: replaying a committed plan without noise gives its
    on-time count, its total lateness, its overtime and its unassigned count,
    and no failure of any kind.
   */
  lemma ZeroNoiseReplay(p: Plan, sc: Scenario, m: Travel, entries: map<Id, RouteEntry>, frozen: set<Id>, s: Schedule)
    requires CommittedPlan(sc, m, entries, frozen, s) && EntriesOpen(s, entries)
    requires Simulates(p, Day(sc, m, entries, frozen), s) && EndsAtDepots(Day(sc, m, entries, frozen)) && Noiseless(p.world)
    ensures VisitsKnown(OrderIndex(sc.orders), s.assignments)
    ensures var r, k := TrialOutcome(p, {}, None), KpisOf(sc, m, s);
            && r.tally.onTime == k.onTime && r.tally.totalLate == k.totalLate
            && r.totalOvertime == k.totalOvertime && r.tally.unserved == k.unassigned
            && !r.tally.noShowFailure && !r.tally.windowFailure && !r.overtimeFailure
  {
    hide Collect, PlainRoute, SimulatesRules, PublishedOvertime, Figures, Sort, Route, SumOf, OnTimeCount, LateSum, LateCount,
         HighMissed, OvertimeSum, OrderIndex, ActiveOrders, LockIndex, Counts;
    var u := Day(sc, m, entries, frozen);
    CommittedVisits(sc, m, entries, frozen, s);
    CommittedIsReplayable(p, sc, m, entries, frozen, s);
    RosterById(p, sc);
    hide Simulates, EntriesOpen, EndsAtDepots;
    var onTime: Id -> int := t => SumOf(Route(s.assignments, t), Promptness);
    var late: Id -> int := t => SumOf(Route(s.assignments, t), LateMinutes);
    var overtime: Id -> int := t => PublishedOvertime(u, s, t);
    CollectQuiet(p, u, s, |p.roster|, onTime, late, overtime);
    assert p.roster[..|p.roster|] == p.roster;
    RosterSums(sc, s, p.roster, Promptness, onTime);
    RosterSums(sc, s, p.roster, LateMinutes, late);
    CountedSums(OrderIndex(sc.orders), s.assignments);
    forall t | t in sc.technicians ensures t.id in u.technicians && u.technicians[t.id] == t {
      TechnicianIndexComplete(sc.technicians, t);
    }
    OvertimeTotal(u, OrderIndex(sc.orders), sc.technicians, s, overtime);
    SumSort(RankOrder, TechnicianIds(sc.technicians), overtime);
  }

  /** A full plan has no entries and nothing frozen, and every such plan is replayed as published. */
  lemma FullPlanReplay(p: Plan, sc: Scenario, m: Travel, s: Schedule)
    requires CommittedPlan(sc, m, map[], {}, s) && Simulates(p, Day(sc, m, map[], {}), s) && Noiseless(p.world)
    ensures VisitsKnown(OrderIndex(sc.orders), s.assignments)
    ensures var r, k := TrialOutcome(p, {}, None), KpisOf(sc, m, s);
            && r.tally.onTime == k.onTime && r.tally.totalLate == k.totalLate
            && r.totalOvertime == k.totalOvertime && r.tally.unserved == k.unassigned
            && !r.tally.noShowFailure && !r.tally.windowFailure && !r.overtimeFailure
  {
    hide CommittedPlan, Simulates, KpisOf, TrialOutcome;
    ZeroNoiseReplay(p, sc, m, map[], {}, s);
  }
}
