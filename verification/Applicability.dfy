/**
  Whether a published plan still fits the current data: the reducer that every
  scenario command runs, folded over whole histories of commands.
 */
module Applicability {
  import opened Domain

  datatype Impact =
    | MetadataOnly | CommercialOnly | PlanningObjective | PlanningConstraint | AssignmentFeasibility
    | NewDemand | CapacityAdded | RemovedUnassignedDemand | Execution

  /** What a plan refers to. */
  datatype Dependencies = Dependencies(placed: set<Id>, unplaced: set<Id>)

  datatype Projection = Projection(
    routeExecutable: bool,
    coverageComplete: bool,
    planningCurrent: bool,
    metricsCurrent: bool,
    commercialCurrent: bool,
    reoptimization: bool,
    blocked: set<Id>)

  const FRESH := Projection(true, true, true, true, true, false, {})

  /** One committed command: its impact, the orders after it, and the assignments it found infeasible. */
  datatype Command = Command(impact: Impact, orders: seq<WorkOrder>, flagged: seq<Id>)

  function DependenciesOf(s: Schedule): Dependencies {
    Dependencies(set a | a in s.assignments :: a.orderId, set id | id in s.unassigned)
  }

  function Listed(c: Command): set<Id> {
    set o | o in c.orders :: o.id
  }

  function PendingIds(c: Command): set<Id> {
    set o | o in c.orders && o.status.Pending? :: o.id
  }

  function Demand(c: Command): set<Id> {
    set o | o in c.orders && !o.status.Completed? :: o.id
  }

  /** Assignments whose start can still be blocked: not begun, or no longer listed at all. */
  function Blockable(d: Dependencies, c: Command): set<Id> {
    PendingIds(c) + (d.placed - Listed(c))
  }

  predicate Judges(i: Impact) {
    i.AssignmentFeasibility? || i.Execution?
  }

  /** Impacts after which the planning evidence is no longer current. */
  predicate Replans(i: Impact) {
    i.PlanningObjective? || i.PlanningConstraint? || i.NewDemand? || i.RemovedUnassignedDemand? || Judges(i)
  }

  /** The infeasible assignments of the plan that the command can block. */
  function Flagged(d: Dependencies, c: Command): (r: set<Id>)
    ensures r <= d.placed && r <= Blockable(d, c)
  {
    if Judges(c.impact) then set id | id in c.flagged && id in d.placed && id in Blockable(d, c) else {}
  }

  /** The projection after one command, field by field. */
  function Reduced(d: Dependencies, p: Projection, c: Command): Projection {
    var blocked := p.blocked * Blockable(d, c) + Flagged(d, c);
    Projection(
      p.routeExecutable && !(Judges(c.impact) && blocked != {}),
      Demand(c) <= d.placed + d.unplaced,
      p.planningCurrent && !Replans(c.impact),
      p.metricsCurrent && !Replans(c.impact) && !c.impact.CommercialOnly?,
      p.commercialCurrent && !c.impact.CommercialOnly?,
      p.reoptimization || c.impact.CapacityAdded?,
      blocked)
  }

  /** `reduce_plan_applicability`. */
  method ReducePlanApplicability(s: Schedule, current: Projection, c: Command) returns (reduced: Projection)
    ensures reduced == Reduced(DependenciesOf(s), current, c)
  {
    hide PendingIds, Listed, Demand, DependenciesOf;
    var d := DependenciesOf(s);
    var eligible := PendingIds(c) + (d.placed - Listed(c));
    var executable, planning, metrics := current.routeExecutable, current.planningCurrent, current.metricsCurrent;
    var commercial, reoptimization := current.commercialCurrent, current.reoptimization;
    var blocked := current.blocked * eligible;
    var complete := Demand(c) <= d.placed + d.unplaced;
    if c.impact.MetadataOnly? {
      return Projection(executable, complete, planning, metrics, commercial, reoptimization, blocked);
    }
    if c.impact.CommercialOnly? {
      commercial, metrics := false, false;
    } else if c.impact.PlanningObjective? || c.impact.PlanningConstraint? {
      planning, metrics := false, false;
    } else if c.impact.NewDemand? {
      planning, metrics := false, false;
    } else if c.impact.CapacityAdded? {
      reoptimization := true;
    } else if c.impact.RemovedUnassignedDemand? {
      planning, metrics := false, false;
    } else {
      planning, metrics := false, false;
      blocked := blocked + set id | id in c.flagged && id in d.placed && id in eligible;
      if blocked != {} {
        executable := false;
      }
    }
    reduced := Projection(executable, complete, planning, metrics, commercial, reoptimization, blocked);
  }

  // ----- histories -----

  function After(d: Dependencies, h: seq<Command>): Projection {
    if h == [] then FRESH else Reduced(d, After(d, h[..|h| - 1]), h[|h| - 1])
  }

  /** The command lists the order as pending, or the plan places it and the command lists it no more. */
  ghost predicate StillToStart(d: Dependencies, c: Command, id: Id) {
    || (exists o :: o in c.orders && o.id == id && o.status.Pending?)
    || (id in d.placed && forall o :: o in c.orders ==> o.id != id)
  }

  /** The k-th command, a feasibility or execution command, flagged the assignment, which was still to start ever since. */
  ghost predicate BlockedSince(d: Dependencies, h: seq<Command>, id: Id, k: nat)
    requires k < |h|
  {
    && (h[k].impact.AssignmentFeasibility? || h[k].impact.Execution?)
    && id in h[k].flagged && id in d.placed
    && forall j :: k <= j < |h| ==> StillToStart(d, h[j], id)
  }

  lemma BlockableExactly(d: Dependencies, c: Command, id: Id)
    ensures id in Blockable(d, c) <==> StillToStart(d, c, id)
    ensures id in Flagged(d, c) <==>
              (c.impact.AssignmentFeasibility? || c.impact.Execution?) && id in c.flagged && id in d.placed
              && StillToStart(d, c, id)
  {
  }

  /** Everything that still needs service is in the plan, placed or not. */
  ghost predicate AllDemandKnown(d: Dependencies, c: Command) {
    forall o :: o in c.orders && !o.status.Completed? ==> o.id in d.placed || o.id in d.unplaced
  }

  lemma DemandExactly(d: Dependencies, c: Command)
    ensures Demand(c) <= d.placed + d.unplaced <==> AllDemandKnown(d, c)
  {
    if Demand(c) <= d.placed + d.unplaced {
      forall o | o in c.orders && !o.status.Completed? ensures o.id in d.placed || o.id in d.unplaced {
        assert o.id in Demand(c);
      }
    }
  }

  /**
    An assignment is blocked exactly when some feasibility or execution command
    flagged it while it could still be blocked, and it could be ever since.
   */
  lemma {:induction false} BlockedExactly(d: Dependencies, h: seq<Command>, id: Id)
    ensures id in After(d, h).blocked <==> exists k :: 0 <= k < |h| && BlockedSince(d, h, id, k)
  {
    hide Blockable, Flagged, Demand, Judges, Replans, StillToStart;
    if h != [] {
      var front, c := h[..|h| - 1], h[|h| - 1];
      BlockedExactly(d, front, id);
      BlockableExactly(d, c, id);
      if id in After(d, h).blocked {
        if id in Flagged(d, c) {
          assert BlockedSince(d, h, id, |h| - 1);
        } else {
          var k :| 0 <= k < |front| && BlockedSince(d, front, id, k);
          assert BlockedSince(d, h, id, k);
        }
      }
      if k :| 0 <= k < |h| && BlockedSince(d, h, id, k) {
        assert StillToStart(d, h[|h| - 1], id);
        if k < |front| {
          assert BlockedSince(d, front, id, k);
        }
      }
    }
  }

  /** A blocked assignment belongs to the plan and has neither started nor completed. */
  lemma BlockedIsOpen(d: Dependencies, h: seq<Command>, id: Id)
    requires h != [] && id in After(d, h).blocked
    ensures id in d.placed
    ensures Distinct(OrderIds(h[|h| - 1].orders)) ==>
              forall o :: o in h[|h| - 1].orders && o.id == id ==> o.status.Pending?
  {
    BlockedExactly(d, h, id);
    var k :| 0 <= k < |h| && BlockedSince(d, h, id, k);
    var orders := h[|h| - 1].orders;
    assert StillToStart(d, h[|h| - 1], id);
    if Distinct(OrderIds(orders)) {
      forall o | o in orders && o.id == id ensures o.status.Pending? {
        var p :| p in orders && p.status.Pending? && p.id == id;
        OrderIndexComplete(orders, o);
        OrderIndexComplete(orders, p);
      }
    }
  }

  /** The flags tell exactly which kinds of commands the plan has seen; none of them recovers. */
  lemma {:induction false} FlagsExactly(d: Dependencies, h: seq<Command>)
    ensures var p := After(d, h);
            && (p.planningCurrent <==>
                  forall k :: 0 <= k < |h| ==>
                    h[k].impact.MetadataOnly? || h[k].impact.CommercialOnly? || h[k].impact.CapacityAdded?)
            && (p.commercialCurrent <==> forall k :: 0 <= k < |h| ==> !h[k].impact.CommercialOnly?)
            && (p.metricsCurrent <==> p.planningCurrent && p.commercialCurrent)
            && (p.reoptimization <==> exists k :: 0 <= k < |h| && h[k].impact.CapacityAdded?)
            && (h != [] ==> (p.coverageComplete <==> AllDemandKnown(d, h[|h| - 1])))
  {
    hide Blockable, Flagged, Demand, AllDemandKnown;
    if h != [] {
      var front := h[..|h| - 1];
      FlagsExactly(d, front);
      if k :| 0 <= k < |h| && h[k].impact.CapacityAdded? && k < |front| {
        assert front[k].impact.CapacityAdded?;
      }
      DemandExactly(d, h[|h| - 1]);
      assert forall k :: 0 <= k < |front| ==> front[k] == h[k];
      if k :| 0 <= k < |front| && front[k].impact.CommercialOnly? {
        assert h[k].impact.CommercialOnly?;
      }
    }
  }

  /** The route stops being executable exactly when a feasibility or execution command leaves something blocked. */
  lemma {:induction false} ExecutableExactly(d: Dependencies, h: seq<Command>)
    ensures After(d, h).routeExecutable <==>
            forall k :: 0 <= k < |h| && (h[k].impact.AssignmentFeasibility? || h[k].impact.Execution?) ==>
              After(d, h[..k + 1]).blocked == {}
  {
    hide Blockable, Flagged, Demand, Replans;
    if h != [] {
      var n := |h| - 1;
      var front := h[..n];
      ExecutableExactly(d, front);
      assert h[..n + 1] == h;
      if After(d, h).routeExecutable {
        forall k | 0 <= k < |h| && Judges(h[k].impact) ensures After(d, h[..k + 1]).blocked == {} {
          if k < n {
            assert front[k] == h[k] && front[..k + 1] == h[..k + 1];
          }
        }
      } else if After(d, front).routeExecutable {
        assert Judges(h[n].impact) && After(d, h[..n + 1]).blocked != {};
      } else {
        var k :| 0 <= k < n && Judges(front[k].impact) && After(d, front[..k + 1]).blocked != {};
        assert front[..k + 1] == h[..k + 1];
        assert Judges(h[k].impact) && After(d, h[..k + 1]).blocked != {};
      }
    }
  }

  /** While anything is blocked the route is not executable. */
  lemma {:induction false} BlockedStopsTheRoute(d: Dependencies, h: seq<Command>)
    ensures After(d, h).blocked != {} ==> !After(d, h).routeExecutable
  {
    if h != [] {
      BlockedStopsTheRoute(d, h[..|h| - 1]);
    }
  }

  /** Later commands never restore a flag. */
  lemma {:induction false} NeverRecovers(d: Dependencies, h: seq<Command>, later: seq<Command>)
    ensures var p, q := After(d, h), After(d, h + later);
            && (q.routeExecutable ==> p.routeExecutable) && (q.planningCurrent ==> p.planningCurrent)
            && (q.metricsCurrent ==> p.metricsCurrent) && (q.commercialCurrent ==> p.commercialCurrent)
            && (p.reoptimization ==> q.reoptimization)
  {
    if later == [] {
      assert h + later == h;
    } else {
      assert (h + later)[..|h + later| - 1] == h + later[..|later| - 1];
      NeverRecovers(d, h, later[..|later| - 1]);
    }
  }

  // ----- the coverage status -----

  datatype Coverage = CurrentAndComplete | PartialNewDemand | StaleDataChanged

  function CoverageStatus(p: Projection): (r: Coverage)
    ensures r.CurrentAndComplete? <==>
              p.coverageComplete && p.routeExecutable && p.planningCurrent && p.metricsCurrent && p.commercialCurrent
  {
    if !p.coverageComplete then PartialNewDemand
    else if !(p.routeExecutable && p.planningCurrent && p.metricsCurrent && p.commercialCurrent) then StaleDataChanged
    else CurrentAndComplete
  }

  /** A status of an old record read as a projection, and back. */
  function FromLegacyStatus(c: Coverage): (p: Projection)
    ensures CoverageStatus(p) == c
    ensures p.routeExecutable <==> !c.StaleDataChanged?
  {
    match c
    case PartialNewDemand => FRESH.(coverageComplete := false, planningCurrent := false, metricsCurrent := false)
    case StaleDataChanged => FRESH.(routeExecutable := false, planningCurrent := false, metricsCurrent := false)
    case CurrentAndComplete => FRESH
  }

  /**
    What a status means: partial exactly while open demand is outside the plan;
    otherwise current exactly when the plan has only seen metadata changes and
    added capacity.
   */
  lemma StatusExactly(d: Dependencies, h: seq<Command>)
    requires h != []
    ensures var status, covered := CoverageStatus(After(d, h)), AllDemandKnown(d, h[|h| - 1]);
            && (status.PartialNewDemand? <==> !covered)
            && (status.CurrentAndComplete? <==>
                  covered && forall k :: 0 <= k < |h| ==> h[k].impact.MetadataOnly? || h[k].impact.CapacityAdded?)
  {
    FlagsExactly(d, h);
    ExecutableExactly(d, h);
  }
}
