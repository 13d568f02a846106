/**
  For which delay limits an emergency can never improve a trial, over all trials
  the program can run: exactly up to one percent if any roads are allowed that
  obey the triangle inequality up to a minute, and exactly up to 56 percent on
  the shipped provider in the service area.
 */
module EmergencyLimits {
  import opened Domain
  import opened Sorting
  import opened Routes
  import F = Feasibility
  import opened Maximality
  import opened Kpi
  import opened Risk
  import opened RiskTimeline
  import opened Trial
  import opened TrialPairs
  import opened RiskCoupling
  import opened CapacityTheorems
  import opened PlainPlans
  import opened EmergencyDelay
  import opened Grid

  /** An event as it is drawn for a trial of the day. */
  ghost predicate DrawnEvent(sc: Scenario, e: Event) {
    && 30 <= e.duration <= 90 && e.slaDeadline == Min(2760, e.time + 120)
    && (exists t :: t in sc.technicians && t.shiftStart <= e.time)
    && (exists t :: t in sc.technicians && e.time < t.shiftEnd)
    && (exists t :: t in sc.technicians && e.skill in t.skills)
  }

  /** A trial of a committed plan with a drawn event. */
  ghost predicate RealTrial(p: Plan, sc: Scenario, frozen: set<Id>, s: Schedule, e: Event) {
    var m, entries := p.world.travel, p.world.entries;
    && CommittedPlan(sc, m, entries, frozen, s) && EntriesOpen(s, entries) && SlackTriangle(m)
    && Simulates(p, Day(sc, m, entries, frozen), s) && DrawnEvent(sc, e)
  }

  /** The emergency improves nothing: no figure of the trial and no start of the responder. */
  ghost predicate NothingGained(p: Plan, absent: set<Id>, e: Event)
    requires ValidPlan(p)
  {
    var quiet, hit, t := TrialOutcome(p, absent, None), TrialOutcome(p, absent, Some(e)), Responder(p, absent, Some(e));
    && TrialNoWorse(quiet, Shift(hit, -Lost(Some(e), hit.responder)))
    && (t.Some? && t.value in p.world.technicians ==> NeverHastens(p.world, t.value, e))
  }

  lemma CoveredGainsNothing(p: Plan, absent: set<Id>, e: Event)
    requires ValidPlan(p) && forall t :: t in p.world.technicians ==> Covered(p.world, t, e)
    ensures NothingGained(p, absent, e)
  {
    hide Covered, NeverHastens, TrialNoWorse, TrialOutcome, Responder;
    EmergencyNeverHelps(p, absent, e);
    var t := Responder(p, absent, Some(e));
    if t.Some? && t.value in p.world.technicians {
      CoveredNeverHastens(p.world, t.value, e);
    }
  }

  // ----- how long the legs of a committed plan can be -----

  /** On a plain route every visit is over by the end of the overtime limit. */
  lemma {:induction false} FinishWithin(u: F.Rules, t: Technician, r: seq<Assignment>, k: nat)
    requires PlainRoute(u, t, r) && k < |r|
    ensures 0 <= r[k].arrival <= r[k].finish <= F.Limit(t)
    decreases |r| - k
  {
    hide PlainRoute, F.Origin, F.CursorAt;
    FinishFromZero(u, t, r, k);
    PlainOrigin(u, t, r, k);
    PlainVisit(u, t, r, k);
    if k + 1 < |r| {
      FinishWithin(u, t, r, k + 1);
      PlainOrigin(u, t, r, k + 1);
      PlainVisit(u, t, r, k + 1);
    } else {
      PlainReturns(u, t, r);
    }
  }

  lemma {:induction false} FinishFromZero(u: F.Rules, t: Technician, r: seq<Assignment>, k: nat)
    requires PlainRoute(u, t, r) && k < |r|
    ensures 0 <= r[k].arrival <= r[k].finish
  {
    hide PlainRoute, F.Origin, F.CursorAt;
    PlainOrigin(u, t, r, k);
    PlainVisit(u, t, r, k);
    if k > 0 {
      FinishFromZero(u, t, r, k - 1);
    }
  }

  lemma PlainReturns(u: F.Rules, t: Technician, r: seq<Assignment>)
    requires PlainRoute(u, t, r) && r != []
    ensures r[|r| - 1].orderId in u.orders
    ensures r[|r| - 1].finish + u.travel(u.orders[r[|r| - 1].orderId].location, F.Terminal(u, t)) <= F.Limit(t)
  {
    PlainOrigin(u, t, r, |r| - 1);
    hide F.CursorAt, F.Origin, F.VisitOk;
  }

  /** The minutes of a leg are the minutes the checker saw. */
  lemma LegWithin(w: World, u: F.Rules, t: Technician, r: seq<Assignment>, k: nat)
    requires SimulatesRules(w, u) && PlainRoute(u, t, r) && r == RouteFor(w, t.id) && r != [] && k <= |r|
    requires t.id in w.technicians && w.technicians[t.id] == t
    ensures Leg(w, t.id, k) <= F.Limit(t)
  {
    hide PlainRoute, F.Origin, F.CursorAt;
    if k < |r| {
      PlainOrigin(u, t, r, k);
      PlainVisit(u, t, r, k);
      FinishWithin(u, t, r, k);
      if k > 0 {
        FinishWithin(u, t, r, k - 1);
      }
    } else {
      FinishWithin(u, t, r, k - 1);
      PlainReturns(u, t, r);
    }
  }

  lemma WorstGrows(a: nat, b: nat, percent: nat, limit: nat)
    requires a <= b && percent <= limit
    ensures Worst(a, percent) <= Worst(b, limit)
  {
    assert a * percent <= b * percent <= b * limit;
  }

  /** No leg of a committed route is longer than the longest day. */
  lemma RealLegs(p: Plan, sc: Scenario, frozen: set<Id>, s: Schedule, e: Event, t: Id, k: nat)
    requires RealTrial(p, sc, frozen, s, e) && t in p.world.technicians
    requires 0 < Visits(p.world, t) && k <= Visits(p.world, t)
    ensures Leg(p.world, t, k) <= 2040
  {
    hide Leg, PlainRoute, CommittedPlan, EntriesOpen, TechnicianIndex, Route;
    var m, entries := p.world.travel, p.world.entries;
    SimulatedRules(p, sc, m, entries, frozen, s);
    TechnicianIndexSound(sc.technicians, t);
    var tech := p.world.technicians[t];
    CommittedRoute(sc, m, entries, frozen, s, tech);
    LegWithin(p.world, Day(sc, m, entries, frozen), tech, RouteFor(p.world, t), k);
  }

  /** Up to one percent of delay no trial gains from an emergency. */
  lemma SmallDelaysGainNothing(p: Plan, sc: Scenario, frozen: set<Id>, s: Schedule, absent: set<Id>, e: Event)
    requires RealTrial(p, sc, frozen, s, e) && p.world.delayMax <= 1
    ensures NothingGained(p, absent, e)
  {
    hide NothingGained, CommittedPlan, EntriesOpen, Leg, Worst;
    forall t, k | t in p.world.technicians && 0 <= k <= Visits(p.world, t) && Visits(p.world, t) > 0
      ensures Leg(p.world, t, k) <= 2040
    {
      RealLegs(p, sc, frozen, s, e, t, k);
    }
    WorstLegs();
    ShortLegsGainNothing(p, sc, frozen, s, absent, e, 2040, 1);
  }

  lemma WorstLegs()
    ensures Worst(2040, 1) == 21 && Worst(51, 56) == 29
  {
  }

  /** Legs too short for any delay to reach half an hour. */
  lemma ShortLegsGainNothing(p: Plan, sc: Scenario, frozen: set<Id>, s: Schedule, absent: set<Id>, e: Event,
                             longest: nat, percent: nat)
    requires RealTrial(p, sc, frozen, s, e) && p.world.delayMax <= percent && Worst(longest, percent) < 30
    requires forall t, k :: t in p.world.technicians && 0 <= k <= Visits(p.world, t) && Visits(p.world, t) > 0 ==>
               Leg(p.world, t, k) <= longest
    ensures NothingGained(p, absent, e)
  {
    hide NothingGained, CommittedPlan, EntriesOpen, Leg, Worst;
    forall t, k | t in p.world.technicians && 0 <= k <= Visits(p.world, t) && Visits(p.world, t) > 0
      ensures Worst(Leg(p.world, t, k), p.world.delayMax) < e.duration
    {
      assert Leg(p.world, t, k) <= longest;
      WorstGrows(Leg(p.world, t, k), longest, p.world.delayMax, percent);
    }
    CoveredGainsNothing(p, absent, e);
  }

  // ----- the shipped provider in the service area -----

  /** Every place of the trial has coordinates from 0 to 100. */
  ghost predicate AllInArea(w: World, e: Event) {
    && InServiceArea(e.place)
    && (forall t :: t in w.technicians ==> InServiceArea(w.technicians[t].depot))
    && (forall o :: o in w.orders ==> InServiceArea(w.orders[o].location))
    && (forall t :: t in w.entries ==> InServiceArea(w.entries[t].location) && InServiceArea(w.entries[t].returnTo))
  }

  lemma LegInArea(w: World, e: Event, dist: (Point, Point) -> real, t: Id, k: nat)
    requires WellFormed(w) && t in w.technicians && k <= Visits(w, t) && AllInArea(w, e) && Shipped(w.travel, dist)
    ensures Leg(w, t, k) <= 51
  {
    hide Shipped, InServiceArea;
    LongestLeg(w.travel, dist, LegStart(w, t, k),
               if k < Visits(w, t) then w.orders[RouteFor(w, t)[k].orderId].location else Terminal(w, t));
  }

  /** On the shipped roads no trial gains from an emergency up to 56 percent of delay. */
  lemma ShippedDelaysGainNothing(p: Plan, sc: Scenario, frozen: set<Id>, s: Schedule, absent: set<Id>, e: Event,
                                 dist: (Point, Point) -> real)
    requires RealTrial(p, sc, frozen, s, e) && AllInArea(p.world, e) && Shipped(p.world.travel, dist)
    requires p.world.delayMax <= 56
    ensures NothingGained(p, absent, e)
  {
    hide NothingGained, CommittedPlan, EntriesOpen, Leg, Worst, Shipped, AllInArea;
    forall t, k | t in p.world.technicians && 0 <= k <= Visits(p.world, t) && Visits(p.world, t) > 0
      ensures Leg(p.world, t, k) <= 51
    {
      LegInArea(p.world, e, dist, t, k);
    }
    WorstLegs();
    ShortLegsGainNothing(p, sc, frozen, s, absent, e, 51, 56);
  }

  // ----- one technician, one visit, one emergency on the way -----

  /**
    A detour worth taking: the visit is due at the minute it is finished when the
    emergency is served first and no leg is delayed, but the direct leg is delayed
    for longer than the emergency takes.
   */
  datatype Detour = Detour(home: Point, spot: Point, door: Point, out: nat, first: nat, second: nat, back: nat, percent: nat)

  ghost predicate Tempting(m: Travel, x: Detour) {
    && SlackTriangle(m)
    && m(x.home, x.door) == x.out && m(x.home, x.spot) == x.first && m(x.spot, x.door) == x.second
    && m(x.door, x.home) == x.back
    && x.first + 30 + x.second < x.out + Worst(x.out, x.percent)
    && x.first + x.second <= 1700 && x.back <= 200
  }

  const WORKER := Id(1)
  const CALLER := Id(2)

  function Worker(x: Detour): Technician {
    Technician(WORKER, {1}, 0, 1800, x.home, 240, 100)
  }

  function Due(x: Detour): nat {
    x.first + 30 + x.second + 1
  }

  function Caller(x: Detour): WorkOrder {
    WorkOrder(CALLER, {1}, x.door, 1, 0, 1800, Due(x), Normal, false, 1200, Pending, None)
  }

  function OneVisit(x: Detour): Assignment {
    Assignment(CALLER, WORKER, 1, x.out, x.out, x.out + 1, x.out, Max(0, x.out + 1 - Due(x)))
  }

  function SmallDay(x: Detour): Scenario {
    Scenario([Worker(x)], [Caller(x)], [])
  }

  function SmallPlan(x: Detour): Schedule {
    Schedule([OneVisit(x)], [])
  }

  /** Only the direct leg is delayed, and as much as it can be. */
  function OnlyTheDirectLeg(percent: nat): Draws {
    k => if k == TravelDraw(DepotOf(WORKER), CALLER) then percent else 0
  }

  function SmallTrial(m: Travel, x: Detour): Plan {
    Plan(World(map[WORKER := Worker(x)], map[CALLER := Caller(x)], map[WORKER := [OneVisit(x)]], map[], m,
               OnlyTheDirectLeg(x.percent), x.percent, 0, 0, true), [WORKER], [])
  }

  function Call(x: Detour): Event {
    Event(0, x.spot, 30, 1, 120)
  }

  lemma SmallIndexes(x: Detour)
    ensures TechnicianIndex([Worker(x)]) == map[WORKER := Worker(x)]
    ensures OrderIndex([Caller(x)]) == map[CALLER := Caller(x)]
    ensures ActiveOrders(SmallDay(x)) == map[CALLER := Caller(x)]
    ensures Route([OneVisit(x)], WORKER) == [OneVisit(x)]
    ensures ValidScenario(SmallDay(x))
  {
    var t, o, a := Worker(x), Caller(x), OneVisit(x);
    assert [t][..0] == [] && [o][..0] == [] && [a][..0] == [];
    assert NotCompleted([o]) == [] + [o];
    assert Mine([a], WORKER) == [] + [a];
    assert Sort(SequenceOrder, [a]) == [] + [a];
  }

  /** The one-visit plan is accepted for its scenario. */
  lemma SmallPlanIsCommitted(m: Travel, x: Detour)
    requires Tempting(m, x)
    ensures CommittedPlan(SmallDay(x), m, map[], {}, SmallPlan(x))
  {
    hide SlackTriangle, Worst, TechnicianIndex, OrderIndex, ActiveOrders, Route;
    SmallIndexes(x);
    var u, s := Day(SmallDay(x), m, map[], {}), SmallPlan(x);
    assert LockIndex([]) == map[];
    SmallRouteAccepted(u, x);
    assert Ids(s.assignments) == [CALLER];
    assert F.Elements([CALLER]) == {CALLER};
    assert F.Elements<Id>([]) == {};
  }

  lemma SmallRouteAccepted(u: F.Rules, x: Detour)
    requires Tempting(u.travel, x) && u.technicians == map[WORKER := Worker(x)] && u.orders == map[CALLER := Caller(x)]
    requires u.locked == map[] && u.entries == map[] && u.frozen == {} && u.external == {} && !u.startedFirst
    ensures F.RouteAccepted(u, Worker(x), [OneVisit(x)])
  {
    hide SlackTriangle;
    var t, r := Worker(x), [OneVisit(x)];
    assert F.CursorAt(u, t, r, 0) == F.Cursor(0, x.home);
    assert F.Origin(u, t, r, 0) == F.Cursor(0, x.home);
    SlackOut(u.travel, x);
    assert F.VisitOk(u, t, r, 0);
    assert F.CursorAt(u, t, r, 1) == F.Cursor(x.out + 1, x.door);
  }

  lemma SlackOut(m: Travel, x: Detour)
    requires Tempting(m, x)
    ensures x.out <= x.first + x.second + 1
  {
    hide Worst;
  }

  lemma SmallTrialIsReal(m: Travel, x: Detour)
    requires Tempting(m, x)
    ensures RealTrial(SmallTrial(m, x), SmallDay(x), {}, SmallPlan(x), Call(x))
  {
    hide CommittedPlan, SlackTriangle, Worst, TechnicianIndex, OrderIndex, ActiveOrders, Route;
    SmallPlanIsCommitted(m, x);
    SmallIndexes(x);
    assert Worker(x) in SmallDay(x).technicians;
  }

  /** Without the emergency the visit is late, by the delay of the direct leg. */
  lemma QuietIsLate(m: Travel, x: Detour)
    requires Tempting(m, x)
    ensures var w := SmallTrial(m, x).world;
            && WellFormed(w)
            && FinishRoute(w, NewState(w, WORKER)).tally.outcomes.Keys == {CALLER}
            && FinishRoute(w, NewState(w, WORKER)).tally.outcomes[CALLER].disposition == Disposition.Late
  {
    hide SlackTriangle, Worst;
    var w := SmallTrial(m, x).world;
    var s := NewState(w, WORKER);
    DirectLeg(m, x);
    assert ServeAll(w, s) == Serve(w, s);
  }

  lemma DirectLeg(m: Travel, x: Detour)
    requires Tempting(m, x)
    ensures var w := SmallTrial(m, x).world;
            && ArrivalAt(w, NewState(w, WORKER), Caller(x)) == x.out + Worst(x.out, x.percent)
  {
    hide SlackTriangle, Delayed, Worst;
    DelayedExactly(x.out, x.percent);
    var w := SmallTrial(m, x).world;
    assert KeyedDraw(w.draws, TravelDraw(DepotOf(WORKER), CALLER), x.percent + 1) == x.percent;
  }

  lemma DelayedExactly(minutes: nat, percent: nat)
    ensures Delayed(minutes, percent) == minutes + Worst(minutes, percent)
  {
    assert minutes * (100 + percent) == minutes * 100 + minutes * percent;
  }

  /** The state after the emergency, with no delay on the way there. */
  lemma AfterTheCall(m: Travel, x: Detour)
    requires Tempting(m, x)
    ensures var w := SmallTrial(m, x).world;
            var y := ApplyEmergency(w, NewState(w, WORKER), Call(x));
            && WellFormed(w) && Fits(w, y) && ToCheckpoint(w, NewState(w, WORKER), Call(x)) == NewState(w, WORKER)
            && y.tech == WORKER && y.next == 0 && y.ready == None && y.tally == EMPTY_TALLY
            && y.current == x.first + 30 && ArrivalAt(w, y, Caller(x)) == x.first + 30 + x.second
  {
    hide SlackTriangle, Worst;
  }

  /** With the emergency on the way it is on time. */
  lemma HitIsOnTime(m: Travel, x: Detour)
    requires Tempting(m, x)
    ensures var w := SmallTrial(m, x).world;
            && WellFormed(w)
            && Respond(w, WORKER, Call(x)).tally.outcomes.Keys == {CALLER}
            && Respond(w, WORKER, Call(x)).tally.outcomes[CALLER].disposition == OnTime
  {
    AfterTheCall(m, x);
    SlackOut(m, x);
    hide SlackTriangle, Worst, ArrivalAt, ApplyEmergency, ToCheckpoint, NewState, KeyedDraw;
    var w := SmallTrial(m, x).world;
    var y := ApplyEmergency(w, NewState(w, WORKER), Call(x));
    OneMinuteStay(m, x);
    assert ServeAll(w, y) == Serve(w, y);
  }

  lemma OneMinuteStay(m: Travel, x: Detour)
    ensures var w := SmallTrial(m, x).world;
            Stay(w, Caller(x)) == 1 && !NoShowOf(w, CALLER)
  {
  }

  lemma WorkerAnswers(m: Travel, x: Detour)
    requires Tempting(m, x)
    ensures ValidPlan(SmallTrial(m, x)) && Responder(SmallTrial(m, x), {}, Some(Call(x))) == Some(WORKER)
  {
    hide SlackTriangle, Worst;
    var p := SmallTrial(m, x);
    var w, e := p.world, Call(x);
    SlackOut(m, x);
    assert Projection(w, WORKER, e) == NewState(w, WORKER);
    assert EmergencyFinish(w, NewState(w, WORKER), e) == x.first + 30;
    assert PlannedEnd(w, WORKER, 1, x.first + 30 + x.second + 1, x.door) == x.first + 30 + x.second + 1 + x.back;
    assert PlannedEnd(w, WORKER, 0, x.first + 30, x.spot) == x.first + 30 + x.second + 1 + x.back;
    assert Qualifies(w, {}, e, WORKER);
    ResponderIsBest(p, {}, e);
  }

  lemma OneRoute(m: Travel, x: Detour, target: Option<Id>, e: Option<Event>)
    requires ValidPlan(SmallTrial(m, x)) && Responder(SmallTrial(m, x), {}, e) == target
    ensures TrialOutcome(SmallTrial(m, x), {}, e).tally.outcomes
         == Final(SmallTrial(m, x), target, e, WORKER).tally.outcomes
  {
    hide Final;
    var p := SmallTrial(m, x);
    var response := OutcomeShape(p, {}, e);
    var clean := CleanOpening(p, {}, target, response);
    CollectStep(p, {}, target, e, clean, 1);
    CollectNone(p, {}, target, e, clean);
    assert Booked(p, {}, 0).outcomes == map[] && Booked(p, {}, 1) == Booked(p, {}, 0);
    assert map[] + Final(p, target, e, WORKER).tally.outcomes == Final(p, target, e, WORKER).tally.outcomes;
  }

  lemma QuietTrial(m: Travel, x: Detour)
    requires Tempting(m, x) && ValidPlan(SmallTrial(m, x))
    ensures var y := TrialOutcome(SmallTrial(m, x), {}, None).tally;
            CALLER in y.outcomes && y.outcomes[CALLER].disposition == Disposition.Late
  {
    hide TrialOutcome, Tempting, Responder, FinishRoute, NewState, ValidPlan;
    QuietIsLate(m, x);
    NobodyToAsk(SmallTrial(m, x));
    OneRoute(m, x, None, None);
  }

  lemma HitTrial(m: Travel, x: Detour)
    requires Tempting(m, x) && ValidPlan(SmallTrial(m, x))
    requires Responder(SmallTrial(m, x), {}, Some(Call(x))) == Some(WORKER)
    ensures var y := TrialOutcome(SmallTrial(m, x), {}, Some(Call(x))).tally;
            CALLER in y.outcomes && y.outcomes[CALLER].disposition == OnTime
  {
    hide TrialOutcome, Tempting, Responder, Respond, ValidPlan;
    HitIsOnTime(m, x);
    OneRoute(m, x, Some(WORKER), Some(Call(x)));
  }

  /** A tempting detour gives a trial that gains from its emergency. */
  lemma DetourGains(m: Travel, x: Detour)
    requires Tempting(m, x)
    ensures ValidPlan(SmallTrial(m, x))
    ensures RealTrial(SmallTrial(m, x), SmallDay(x), {}, SmallPlan(x), Call(x))
    ensures !NothingGained(SmallTrial(m, x), {}, Call(x))
  {
    hide *;
    SmallTrialIsReal(m, x);
    WorkerAnswers(m, x);
    QuietTrial(m, x);
    HitTrial(m, x);
    LateThenOnTime(SmallTrial(m, x), {}, Call(x), CALLER);
  }

  lemma NobodyToAsk(p: Plan)
    requires ValidPlan(p)
    ensures Responder(p, {}, None) == None
  {
  }

  lemma LateThenOnTime(p: Plan, absent: set<Id>, e: Event, id: Id)
    requires ValidPlan(p) && id in TrialOutcome(p, absent, None).tally.outcomes
    requires id in TrialOutcome(p, absent, Some(e)).tally.outcomes
    requires TrialOutcome(p, absent, None).tally.outcomes[id].disposition == Disposition.Late
    requires TrialOutcome(p, absent, Some(e)).tally.outcomes[id].disposition == OnTime
    ensures !NothingGained(p, absent, e)
  {
    hide TrialOutcome, Responder, NeverHastens, ValidPlan;
  }

  // ----- the exact limits -----

  /** At this delay limit no trial gains from an emergency. */
  ghost predicate NeverGains(percent: nat) {
    forall p: Plan, sc: Scenario, frozen: set<Id>, s: Schedule, absent: set<Id>, e: Event ::
      RealTrial(p, sc, frozen, s, e) && p.world.delayMax == percent ==> NothingGained(p, absent, e)
  }

  ghost predicate NeverGainsInArea(dist: (Point, Point) -> real, percent: nat) {
    forall p: Plan, sc: Scenario, frozen: set<Id>, s: Schedule, absent: set<Id>, e: Event ::
      RealTrial(p, sc, frozen, s, e) && ShippedTrial(p.world, e, dist) && p.world.delayMax == percent ==>
        NothingGained(p, absent, e)
  }

  /** The trial drives the shipped roads inside the service area. */
  ghost predicate ShippedTrial(w: World, e: Event, dist: (Point, Point) -> real) {
    AllInArea(w, e) && Shipped(w.travel, dist)
  }

  /** Everything lies close together, but the way to the door is long. */
  function LongWay(a: Point, b: Point): nat {
    if a == b then 0 else if b == OPPOSITE then 1600 else 100
  }

  lemma LongWayTempts(percent: nat)
    requires percent >= 2
    ensures Tempting(LongWay, Detour(CORNER, CORNER, OPPOSITE, 1600, 0, 1600, 100, percent))
  {
    assert 1600 * percent >= 3200;
  }

  function ShippedRoads(dist: (Point, Point) -> real): Travel {
    (a, b) => ShippedMinutes(dist, a, b)
  }

  function ShippedMinutes(dist: (Point, Point) -> real, a: Point, b: Point): nat {
    if dist(a, b) >= 0.0 then Minutes(dist, PER_UNIT, LEAST, a, b) else 0
  }

  lemma RoadsAreShipped(dist: (Point, Point) -> real)
    requires Hypot(dist)
    ensures Shipped(ShippedRoads(dist), dist)
  {
    hide Minutes;
    forall a, b ensures dist(a, b) >= 0.0 {
      assert IsDistance(a, b, dist(a, b));
    }
  }

  lemma AreaTempts(m: Travel, dist: (Point, Point) -> real, percent: nat)
    requires Shipped(m, dist) && percent >= 57
    ensures Tempting(m, Detour(CORNER, CENTRE, OPPOSITE, 51, 25, 25, 51, percent))
  {
    GridIsSlackTriangle(m, dist, PER_UNIT, LEAST);
    hide Shipped, SlackTriangle;
    AcrossTheArea(m, dist);
    assert 51 * percent >= 2907;
  }

  /**
    Over all roads with the slack triangle, a trial that gains from its emergency
    exists exactly from two percent of delay on.
   */
  lemma GainsFromTwoPercent(percent: nat)
    ensures NeverGains(percent) <==> percent <= 1
  {
    hide CommittedPlan, EntriesOpen, DrawnEvent, SlackTriangle, ValidPlan, NothingGained, SmallTrial, Tempting;
    if percent <= 1 {
      forall p: Plan, sc: Scenario, frozen: set<Id>, s: Schedule, absent: set<Id>, e: Event
        | RealTrial(p, sc, frozen, s, e) && p.world.delayMax == percent
        ensures NothingGained(p, absent, e)
      {
        SmallDelaysGainNothing(p, sc, frozen, s, absent, e);
      }
    } else {
      var x := Detour(CORNER, CORNER, OPPOSITE, 1600, 0, 1600, 100, percent);
      LongWayTempts(percent);
      DetourGains(LongWay, x);
      SmallTrialIs(LongWay, x);
    }
  }

  lemma SmallTrialIs(m: Travel, x: Detour)
    ensures var w := SmallTrial(m, x).world;
            w.delayMax == x.percent && w.travel == m && w.entries == map[]
            && w.technicians == map[WORKER := Worker(x)] && w.orders == map[CALLER := Caller(x)]
  {
  }

  /**
    On the shipped provider and inside the service area, it exists exactly from
    57 percent of delay on; the default limit is 35.
   */
  lemma ShippedGainsFrom57Percent(dist: (Point, Point) -> real, percent: nat)
    requires Hypot(dist)
    ensures NeverGainsInArea(dist, percent) <==> percent <= 56
  {
    hide CommittedPlan, EntriesOpen, DrawnEvent, SlackTriangle, ValidPlan, NothingGained, SmallTrial, Tempting,
         ShippedTrial, Hypot, ShippedRoads;
    if percent <= 56 {
      forall p: Plan, sc: Scenario, frozen: set<Id>, s: Schedule, absent: set<Id>, e: Event
        | RealTrial(p, sc, frozen, s, e) && ShippedTrial(p.world, e, dist) && p.world.delayMax == percent
        ensures NothingGained(p, absent, e)
      {
        ShippedTrialGainsNothing(p, sc, frozen, s, absent, e, dist);
      }
    } else {
      var m, x := ShippedRoads(dist), Detour(CORNER, CENTRE, OPPOSITE, 51, 25, 25, 51, percent);
      RoadsAreShipped(dist);
      AreaTempts(m, dist, percent);
      DetourGains(m, x);
      SmallTrialIs(m, x);
      SmallTrialInArea(m, x, dist);
    }
  }

  lemma ShippedTrialGainsNothing(p: Plan, sc: Scenario, frozen: set<Id>, s: Schedule, absent: set<Id>, e: Event,
                                 dist: (Point, Point) -> real)
    requires RealTrial(p, sc, frozen, s, e) && ShippedTrial(p.world, e, dist) && p.world.delayMax <= 56
    ensures NothingGained(p, absent, e)
  {
    hide RealTrial, NothingGained, Shipped, AllInArea;
    ShippedDelaysGainNothing(p, sc, frozen, s, absent, e, dist);
  }

  lemma SmallTrialInArea(m: Travel, x: Detour, dist: (Point, Point) -> real)
    requires Shipped(m, dist) && InServiceArea(x.home) && InServiceArea(x.spot) && InServiceArea(x.door)
    ensures ShippedTrial(SmallTrial(m, x).world, Call(x), dist)
  {
    hide Shipped;
  }
}
