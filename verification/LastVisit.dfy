/**
  An emergency at the minute the last visit ends, on the shipped provider: the
  choice of the responder sends them home first, the run does not, and the
  direct way is a minute longer than the way through the depot.
 */
module LastVisit {
  import opened Domain
  import opened Sorting
  import opened Routes
  import F = Feasibility
  import opened Maximality
  import opened Risk
  import opened RiskTimeline
  import opened Trial
  import opened CapacityTheorems
  import opened PlainPlans
  import opened EmergencyLimits
  import opened Grid

  const LONER := Id(1)
  const ERRAND := Id(2)
  const BEYOND := Id(3)

  /** A shift from the centre of the service area that ends at minute 131, without overtime. */
  const LONE_SHIFT := Technician(LONER, {1}, 0, 131, CENTRE, 0, 100)

  /** A visit at one corner, and an order at the opposite one that nobody has the skill for. */
  const ERRAND_ORDER := WorkOrder(ERRAND, {1}, CORNER, 1, 0, 131, 131, Normal, false, 1200, Pending, None)
  const BEYOND_ORDER := WorkOrder(BEYOND, {2}, OPPOSITE, 1, 0, 131, 131, Normal, false, 1200, Pending, None)

  const ERRAND_VISIT := Assignment(ERRAND, LONER, 1, 25, 25, 26, 25, 0)

  const LONE_DAY := Scenario([LONE_SHIFT], [ERRAND_ORDER, BEYOND_ORDER], [])
  const LONE_PLAN := Schedule([ERRAND_VISIT], [BEYOND])

  /** The emergency is reported at the minute the visit ends, at the place of the other order. */
  const AT_THE_END := Event(26, OPPOSITE, 30, 1, 146)

  function LoneTrial(m: Travel): Plan {
    Plan(World(map[LONER := LONE_SHIFT], map[ERRAND := ERRAND_ORDER, BEYOND := BEYOND_ORDER],
               map[LONER := [ERRAND_VISIT]], map[], m, k => 0, 0, 0, 0, true), [LONER], [BEYOND])
  }

  lemma LoneIndexes()
    ensures TechnicianIndex([LONE_SHIFT]) == map[LONER := LONE_SHIFT]
    ensures ActiveOrders(LONE_DAY) == map[ERRAND := ERRAND_ORDER, BEYOND := BEYOND_ORDER]
    ensures Route([ERRAND_VISIT], LONER) == [ERRAND_VISIT]
    ensures ValidScenario(LONE_DAY)
  {
    var t, o, p, a := LONE_SHIFT, ERRAND_ORDER, BEYOND_ORDER, ERRAND_VISIT;
    assert [t][..0] == [] && [o, p][..1] == [o] && [o][..0] == [] && [a][..0] == [];
    assert NotCompleted([o]) == [o];
    assert NotCompleted([o, p]) == [o, p];
    assert OrderIndex([o]) == map[ERRAND := o];
    assert Mine([a], LONER) == [] + [a];
    assert Sort(SequenceOrder, [a]) == [] + [a];
  }

  lemma LoneRouteAccepted(u: F.Rules)
    requires u.travel(CENTRE, CORNER) == u.travel(CORNER, CENTRE) == 25
    requires u.technicians == map[LONER := LONE_SHIFT] && u.orders == map[ERRAND := ERRAND_ORDER, BEYOND := BEYOND_ORDER]
    requires u.locked == map[] && u.entries == map[] && u.frozen == {} && u.external == {} && !u.startedFirst
    ensures F.RouteAccepted(u, LONE_SHIFT, [ERRAND_VISIT])
  {
    var t, r := LONE_SHIFT, [ERRAND_VISIT];
    assert F.CursorAt(u, t, r, 0) == F.Cursor(0, CENTRE);
    assert F.Origin(u, t, r, 0) == F.Cursor(0, CENTRE);
    assert F.VisitOk(u, t, r, 0);
    assert F.CursorAt(u, t, r, 1) == F.Cursor(26, CORNER);
  }

  lemma LonePlanIsCommitted(m: Travel)
    requires m(CENTRE, CORNER) == m(CORNER, CENTRE) == 25
    ensures CommittedPlan(LONE_DAY, m, map[], {}, LONE_PLAN)
  {
    hide TechnicianIndex, OrderIndex, ActiveOrders, Route;
    LoneIndexes();
    var u, s := Day(LONE_DAY, m, map[], {}), LONE_PLAN;
    assert LockIndex([]) == map[];
    LoneRouteAccepted(u);
    assert Ids(s.assignments) == [ERRAND];
    assert F.Elements([ERRAND]) == {ERRAND};
    assert F.Elements([BEYOND]) == {BEYOND};
  }

  lemma LoneTrialIsReal(m: Travel)
    requires m(CENTRE, CORNER) == m(CORNER, CENTRE) == 25 && SlackTriangle(m)
    ensures RealTrial(LoneTrial(m), LONE_DAY, {}, LONE_PLAN, AT_THE_END)
  {
    hide CommittedPlan, SlackTriangle, TechnicianIndex, OrderIndex, ActiveOrders, Route;
    LonePlanIsCommitted(m);
    LoneIndexes();
    assert LONE_SHIFT in LONE_DAY.technicians;
  }

  /**
    A trial of an accepted plan without any noise whose responder is chosen with
    a planned end at the overtime limit and comes home a minute after it: the
    projection takes 25 and 25 minutes through the depot, the direct way 51.
   */
  lemma HomeAMinuteLate(m: Travel, dist: (Point, Point) -> real)
    requires Shipped(m, dist)
    ensures RealTrial(LoneTrial(m), LONE_DAY, {}, LONE_PLAN, AT_THE_END)
    ensures Responder(LoneTrial(m), {}, Some(AT_THE_END)) == Some(LONER)
    ensures var r := Respond(LoneTrial(m).world, LONER, AT_THE_END); r.current == 132 && r.overtimeFailure
  {
    AcrossTheArea(m, dist);
    GridIsSlackTriangle(m, dist, PER_UNIT, LEAST);
    hide Shipped, SlackTriangle, RealTrial, Qualifies, Respond, Responder;
    LoneTrialIsReal(m);
    LonersRun(m);
    assert ValidPlan(LoneTrial(m));
    ResponderIsBest(LoneTrial(m), {}, AT_THE_END);
  }

  lemma LonersRun(m: Travel)
    requires m(CENTRE, CORNER) == m(CORNER, CENTRE) == m(CENTRE, OPPOSITE) == m(OPPOSITE, CENTRE) == 25
    requires m(CORNER, OPPOSITE) == 51
    ensures var w := LoneTrial(m).world;
            && WellFormed(w) && Qualifies(w, {}, AT_THE_END, LONER)
            && Respond(w, LONER, AT_THE_END).current == 132 && Respond(w, LONER, AT_THE_END).overtimeFailure
  {
    var w := LoneTrial(m).world;
    var s := NewState(w, LONER);
    LonersVisit(m);
    var z := Serve(w, s);
    assert ProjectFrom(w, z, AT_THE_END).current == 51;
    assert PlannedEnd(w, LONER, 1, 106, OPPOSITE) == 131;
    assert ToCheckpoint(w, s, AT_THE_END) == z;
    assert ServeAll(w, ApplyEmergency(w, z, AT_THE_END)) == ApplyEmergency(w, z, AT_THE_END);
  }

  lemma LonersVisit(m: Travel)
    requires m(CENTRE, CORNER) == 25
    ensures var w := LoneTrial(m).world;
            var z := Serve(w, NewState(w, LONER));
            WellFormed(w) && z.current == 26 && z.location == CORNER && z.next == 1 && z.ready == None && z.tech == LONER
  {
  }
}
