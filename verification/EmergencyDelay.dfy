/**
  Inserting an emergency into a route never makes a later visit earlier, nor the
  return, as long as the emergency lasts longer than any delay a leg of the
  route could have drawn: the leg it replaces is drawn anew, all other legs keep
  their draws.
 */
module EmergencyDelay {
  import opened Domain
  import opened Maximality
  import opened Risk
  import opened RiskTimeline
  import opened Trial
  import opened TrialBooks
  import opened TrialPairs
  import opened RiskCoupling

  // ----- the legs of a route -----

  function LegStart(w: World, t: Id, k: nat): Point
    requires WellFormed(w) && t in w.technicians && k <= Visits(w, t)
  {
    if k == 0 then NewState(w, t).location else w.orders[RouteFor(w, t)[k - 1].orderId].location
  }

  /** The minutes of the k-th leg; the last one leads home. */
  function Leg(w: World, t: Id, k: nat): nat
    requires WellFormed(w) && t in w.technicians && k <= Visits(w, t)
  {
    w.travel(LegStart(w, t, k),
             if k < Visits(w, t) then w.orders[RouteFor(w, t)[k].orderId].location else Terminal(w, t))
  }

  /** The most that a delay of at most `percent` can add to a leg. */
  function Worst(minutes: nat, percent: nat): nat {
    (minutes * percent + 99) / 100
  }

  /** The emergency outlasts the delay of every leg of the route. */
  ghost predicate Outlasts(w: World, t: Id, e: Event)
    requires WellFormed(w) && t in w.technicians
  {
    forall k :: 0 <= k <= Visits(w, t) && Visits(w, t) > 0 ==> Worst(Leg(w, t, k), w.delayMax) < e.duration
  }

  /** The roads of the responder's route cannot let an emergency gain time. */
  ghost predicate Covered(w: World, t: Id, e: Event)
    requires WellFormed(w) && t in w.technicians
  {
    SlackTriangle(w.travel) && Outlasts(w, t, e)
  }

  /** Without delays one minute of emergency is enough. */
  lemma PunctualIsCovered(w: World, t: Id, e: Event)
    requires WellFormed(w) && t in w.technicians && w.delayMax == 0 && SlackTriangle(w.travel) && e.duration >= 1
    ensures Covered(w, t, e)
  {
  }

  lemma DelayBounds(minutes: nat, percent: nat, limit: nat)
    requires percent <= limit
    ensures minutes <= Delayed(minutes, percent) <= minutes + Worst(minutes, limit)
  {
    assert minutes * (100 + percent) == minutes * 100 + minutes * percent;
    assert minutes * percent <= minutes * limit;
  }

  lemma ArrivalBounds(w: World, s: RouteState, o: WorkOrder)
    requires s.ready == None
    ensures var leg := w.travel(s.location, o.location);
            s.current + leg <= ArrivalAt(w, s, o) <= s.current + leg + Worst(leg, w.delayMax)
  {
    hide Delayed, Worst, KeyedDraw;
    DelayBounds(w.travel(s.location, o.location), KeyedDraw(w.draws, TravelDraw(s.predecessor, o.id), w.delayMax + 1),
                w.delayMax);
  }

  lemma ReturnBounds(w: World, s: RouteState)
    requires s.tech in w.technicians
    ensures var leg := w.travel(s.location, Terminal(w, s.tech));
            s.current + leg <= ReturnFinish(w, s) <= s.current + leg + Worst(leg, w.delayMax)
  {
    hide Delayed, Worst, KeyedDraw;
    DelayBounds(w.travel(s.location, Terminal(w, s.tech)),
                KeyedDraw(w.draws, ReturnDraw(s.predecessor, s.tech), w.delayMax + 1), w.delayMax);
  }

  lemma EmergencyTakesTime(w: World, c: RouteState, e: Event)
    ensures var y := ApplyEmergency(w, c, e);
            && y.current >= Max(c.current, e.time) + w.travel(c.location, e.place) + e.duration
            && y.location == e.place && y.ready == None && y.tally == c.tally && y.next == c.next && y.tech == c.tech
            && !y.returned && y.response.completed
  {
    hide Delayed, KeyedDraw;
  }

  /** The leg that the state is about to drive. */
  function NextLeg(w: World, x: RouteState): nat
    requires Fits(w, x)
  {
    w.travel(x.location,
             if x.next < Visits(w, x.tech) then w.orders[RouteFor(w, x.tech)[x.next].orderId].location
             else Terminal(w, x.tech))
  }

  /** The first leg after the emergency ends no earlier than the leg it replaced. */
  lemma FirstLegLater(w: World, c: RouteState, x: RouteState, e: Event, o: WorkOrder)
    requires SlackTriangle(w.travel) && x.ready == None && Fits(w, x) && Fits(w, c) && x.tech == c.tech
    requires x.next < Visits(w, x.tech) && o == w.orders[RouteFor(w, x.tech)[x.next].orderId]
    requires Worst(NextLeg(w, x), w.delayMax) < e.duration && OnTimeline(w, c, x, e)
    ensures ArrivalAt(w, x, o) <= ArrivalAt(w, ApplyEmergency(w, c, e), o)
  {
    hide ArrivalAt, ApplyEmergency, Stay, StartFrom, Worst;
    ArrivalBounds(w, x, o);
    EmergencyTakesTime(w, c, e);
    ArrivalBounds(w, ApplyEmergency(w, c, e), o);
    var a := RouteFor(w, x.tech)[x.next];
    if c == x {
      assert w.travel(x.location, o.location) <= w.travel(x.location, e.place) + w.travel(e.place, o.location) + 1;
    } else {
      assert OrderTiming(w, x, a).arrival == ArrivalAt(w, x, o);
    }
  }

  /** With every visit served, the emergency only postpones the return. */
  lemma ReturnLater(w: World, c: RouteState, x: RouteState, e: Event)
    requires SlackTriangle(w.travel) && Fits(w, x) && Fits(w, c) && x.tech == c.tech
    requires x.next == Visits(w, x.tech) && Worst(NextLeg(w, x), w.delayMax) < e.duration && OnTimeline(w, c, x, e)
    ensures ReturnFinish(w, x) <= ReturnFinish(w, ApplyEmergency(w, c, e))
  {
    hide ReturnFinish, ApplyEmergency, Worst;
    ReturnBounds(w, x);
    EmergencyTakesTime(w, c, e);
    ReturnBounds(w, ApplyEmergency(w, c, e));
    var home := Terminal(w, x.tech);
    assert w.travel(x.location, home) <= w.travel(x.location, e.place) + w.travel(e.place, home) + 1;
  }

  /** The checkpoint, and so the emergency, is never before the state it was reached from. */
  lemma CheckpointNotBefore(w: World, c: RouteState, x: RouteState, e: Event)
    requires Fits(w, x) && Fits(w, c) && x.tech == c.tech && OnTimeline(w, c, x, e)
    ensures x.current <= ApplyEmergency(w, c, e).current
  {
    hide ApplyEmergency, ReturnFinish, ArrivalAt, Stay, StartFrom;
    EmergencyTakesTime(w, c, e);
  }

  /** Where the uninterrupted timeline stands before its k-th leg. */
  lemma PlaceOfAfter(w: World, t: Id, k: nat)
    requires WellFormed(w) && t in w.technicians && k <= Visits(w, t)
    ensures var x := After(w, NewState(w, t), k);
            x.location == LegStart(w, t, k) && NextLeg(w, x) == Leg(w, t, k)
  {
    hide OrderTiming, Record;
    NewFits(w, t);
    if k == 0 {
      AfterNone(w, NewState(w, t));
    } else {
      AfterOneMore(w, NewState(w, t), k - 1);
    }
  }

  lemma {:induction false} AfterThenServeAll(w: World, s: RouteState, k: nat)
    requires Fits(w, s) && s.next + k <= Visits(w, s.tech)
    ensures ServeAll(w, After(w, s, k)) == ServeAll(w, s)
  {
    hide Record, OrderTiming;
    if k > 0 {
      AfterThenServeAll(w, s, k - 1);
      assert After(w, s, k) == Serve(w, After(w, s, k - 1));
    }
  }

  /** The state just after the emergency, next to the uninterrupted state it left. */
  lemma AfterEmergency(w: World, t: Id, e: Event) returns (c: RouteState, x: RouteState, k: nat)
    requires WellFormed(w) && t in w.technicians
    ensures c == ToCheckpoint(w, NewState(w, t), e) && k <= Visits(w, t) && x == After(w, NewState(w, t), k)
    ensures Fits(w, c) && Fits(w, x) && c.tech == x.tech == t && x.ready == None && c.next == x.next == k
    ensures OnTimeline(w, c, x, e) && NextLeg(w, x) == Leg(w, t, k)
    ensures ServeAll(w, x) == ServeAll(w, NewState(w, t))
  {
    hide ToCheckpoint, After, ServeAll, OnTimeline, Leg, NextLeg;
    k := CheckpointOnTimeline(w, NewState(w, t), e);
    c, x := ToCheckpoint(w, NewState(w, t), e), After(w, NewState(w, t), k);
    TimelineShares(w, c, x, e);
    AfterThenServeAll(w, NewState(w, t), k);
    PlaceOfAfter(w, t, k);
  }

  lemma TimelineShares(w: World, c: RouteState, x: RouteState, e: Event)
    requires Fits(w, c) && Fits(w, x) && x.tech == c.tech && OnTimeline(w, c, x, e)
    ensures c.next == x.next && c.tally == x.tally && c.response == x.response
  {
  }

  /** The emergency outlasts the delay of the leg it replaces, if there is any leg. */
  predicate OutlastsNext(w: World, x: RouteState, e: Event)
    requires Fits(w, x)
  {
    Visits(w, x.tech) > 0 ==> Worst(NextLeg(w, x), w.delayMax) < e.duration
  }

  /** The served route with the emergency is behind the served route without it. */
  lemma ServedLater(w: World, c: RouteState, x: RouteState, e: Event)
    requires SlackTriangle(w.travel) && x.ready == None && Fits(w, x) && Fits(w, c) && x.tech == c.tech
    requires OnTimeline(w, c, x, e) && OutlastsNext(w, x, e)
    ensures var y := ApplyEmergency(w, c, e);
            && Fits(w, y) && NoLater(ServeAll(w, x).tally, ServeAll(w, y).tally)
            && ServeAll(w, x).current <= ReturnFinish(w, ServeAll(w, y))
            && (Visits(w, x.tech) > 0 ==> ReturnFinish(w, ServeAll(w, x)) <= ReturnFinish(w, ServeAll(w, y)))
  {
    hide NoLater, ReturnFinish, ApplyEmergency, OnTimeline, ArrivalAt, Record, OrderTiming, NextLeg, Worst;
    var y := ApplyEmergency(w, c, e);
    EmergencyTakesTime(w, c, e);
    TimelineShares(w, c, x, e);
    NoLaterSelf(x.tally);
    if x.next < Visits(w, x.tech) {
      FirstLegLater(w, c, x, e, w.orders[RouteFor(w, x.tech)[x.next].orderId]);
      ServeBehind(w, w, x, y);
      ServeAllBehind(w, w, Serve(w, x), Serve(w, y));
      ReturnBehind(w, w, ServeAll(w, x), ServeAll(w, y));
    } else {
      CheckpointNotBefore(w, c, x, e);
      if Visits(w, x.tech) > 0 {
        ReturnLater(w, c, x, e);
      }
    }
  }

  /**
    With covered roads the responder's day with the emergency is no earlier than
    without: no visit, no return, no overtime and no total improves.
   */
  lemma EmergencyOnlyDelays(w: World, t: Id, e: Event)
    requires WellFormed(w) && t in w.technicians && Covered(w, t, e)
    ensures FinishedBehind(FinishRoute(w, NewState(w, t)), Respond(w, t, e))
  {
    hide NoLater, ReturnFinish, OnTimeline, ToCheckpoint, ServeAll, ApplyEmergency, Leg, NextLeg, Worst;
    var c, x, k := AfterEmergency(w, t, e);
    var y := ApplyEmergency(w, c, e);
    EmergencyTakesTime(w, c, e);
    ServedLater(w, c, x, e);
    ServeAllKeeps(w, NewState(w, t));
    ServeAllKeeps(w, y);
  }

  /** The i-th visit after the emergency, from the checkpoint's own state. */
  lemma LaterFromCheckpoint(w: World, c: RouteState, x: RouteState, e: Event, i: nat)
    requires SlackTriangle(w.travel) && x.ready == None && Fits(w, x) && Fits(w, c) && x.tech == c.tech
    requires OnTimeline(w, c, x, e) && x.next + i < Visits(w, x.tech) && OutlastsNext(w, x, e)
    ensures var y := ApplyEmergency(w, c, e);
            Fits(w, y) && y.next == x.next && y.tech == x.tech &&
            var m, n := Moment(w, x, i), Moment(w, y, i);
            m.arrival <= n.arrival && m.start <= n.start && m.finish <= n.finish
  {
    hide NoLater, OnTimeline, ArrivalAt, Record, ApplyEmergency, Serve, OrderTiming, NextLeg, Worst, SlackTriangle;
    var y := ApplyEmergency(w, c, e);
    EmergencyTakesTime(w, c, e);
    TimelineShares(w, c, x, e);
    NoLaterSelf(x.tally);
    FirstLegLater(w, c, x, e, w.orders[RouteFor(w, x.tech)[x.next].orderId]);
    var a := RouteFor(w, x.tech)[x.next + i];
    if i == 0 {
      LaterArrivalLaterVisit(w, w, x, y, a);
    } else {
      ServeBehind(w, w, x, y);
      AfterBehind(w, w, Serve(w, x), Serve(w, y), i - 1);
      AfterShift(w, x, i - 1);
      AfterShift(w, y, i - 1);
      SameLeg(w, w, After(w, x, i), After(w, y, i), w.orders[a.orderId]);
      LaterArrivalLaterVisit(w, w, After(w, x, i), After(w, y, i), a);
    }
  }

  /** Visit by visit: everything the responder still has to do starts and finishes no earlier. */
  lemma RemainingVisitsLater(w: World, t: Id, e: Event, j: nat)
    requires WellFormed(w) && t in w.technicians && Covered(w, t, e)
    requires ToCheckpoint(w, NewState(w, t), e).next <= j < Visits(w, t)
    ensures var c := ToCheckpoint(w, NewState(w, t), e);
            var y := ApplyEmergency(w, c, e);
            Fits(w, y) && y.next == c.next && y.tech == t &&
            var m, n := Moment(w, NewState(w, t), j), Moment(w, y, j - c.next);
            m.arrival <= n.arrival && m.start <= n.start && m.finish <= n.finish
  {
    hide OnTimeline, ToCheckpoint, ApplyEmergency, Serve, OrderTiming, Leg, NextLeg, Worst, SlackTriangle;
    var c, x, k := AfterEmergency(w, t, e);
    LaterFromCheckpoint(w, c, x, e, j - k);
    AfterAdds(w, NewState(w, t), k, j - k);
  }

  lemma {:induction false} AfterAdds(w: World, s: RouteState, k: nat, j: nat)
    requires Fits(w, s) && s.next + k + j <= Visits(w, s.tech)
    ensures After(w, After(w, s, k), j) == After(w, s, k + j)
  {
    hide Serve;
    if j > 0 {
      AfterAdds(w, s, k, j - 1);
    }
  }

  /** What had been finished at the checkpoint keeps its outcome. */
  lemma {:induction false} ServeAllKeepsOutcome(w: World, s: RouteState, id: Id)
    requires Fits(w, s) && OnceEach(RouteFor(w, s.tech)) && BooksKept(w, s) && id in s.tally.outcomes
    ensures id in ServeAll(w, s).tally.outcomes && ServeAll(w, s).tally.outcomes[id] == s.tally.outcomes[id]
    decreases Visits(w, s.tech) - s.next
  {
    hide Balanced, NoShowOf, OnceEach, ArrivalAt, StartFrom, Stay;
    if s.next < Visits(w, s.tech) {
      var r := RouteFor(w, s.tech);
      var a := r[s.next];
      assert w.orders[a.orderId].id == a.orderId;
      VisitIdsSnoc(r, s.next);
      ServedKeepsBooks(w, s, OrderTiming(w, s, a));
      ServeAllKeepsOutcome(w, Serve(w, s), id);
    }
  }

  /** Every visit completed before the dispatch has the outcome of the quiet day. */
  lemma FinishedBeforeDispatchUntouched(w: World, t: Id, e: Event, j: nat)
    requires WellFormed(w) && t in w.technicians && OnceEach(RouteFor(w, t))
    requires j < ToCheckpoint(w, NewState(w, t), e).next
    ensures var id, quiet, hit := RouteFor(w, t)[j].orderId, FinishRoute(w, NewState(w, t)), Respond(w, t, e);
            id in quiet.tally.outcomes && id in hit.tally.outcomes && hit.tally.outcomes[id] == quiet.tally.outcomes[id]
  {
    hide Balanced, NoShowOf, OnceEach, OnTimeline, ToCheckpoint, ServeAll, ReturnFinish, KeyedDraw, Delayed;
    var c, x, k := AfterEmergency(w, t, e);
    var y := ApplyEmergency(w, c, e);
    TimelineShares(w, c, x, e);
    NewKeepsBooks(w, t);
    CheckpointKeepsBooks(w, NewState(w, t), e);
    MovedKeepsBooks(w, c, x);
    MovedKeepsBooks(w, c, y);
    var id := RouteFor(w, t)[j].orderId;
    assert RouteFor(w, t)[..k][j] == RouteFor(w, t)[j];
    assert id in VisitIds(RouteFor(w, t)[..k]);
    ServeAllKeepsOutcome(w, x, id);
    ServeAllKeepsOutcome(w, y, id);
  }

  // ----- the whole trial -----

  /** If anybody responds, the responder's roads are covered. */
  ghost predicate ResponderCovered(p: Plan, target: Option<Id>, e: Event)
    requires ValidPlan(p)
  {
    target.Some? && target.value in p.world.technicians ==> Covered(p.world, target.value, e)
  }

  lemma {:induction false} CollectEmergency(p: Plan, absent: set<Id>, target: Option<Id>, e: Event, s: TrialResult,
                                            s': TrialResult, n: nat)
    requires ValidPlan(p) && ResponderCovered(p, target, e) && n <= |p.roster|
    requires s'.tally == s.tally && s'.totalOvertime == s.totalOvertime && s'.overtime == s.overtime
    requires s.overtimeFailure ==> s'.overtimeFailure
    ensures TrialNoWorse(Collect(p, absent, None, None, s, n), Collect(p, absent, target, Some(e), s', n))
  {
    hide NoLater, FinishRoute, NewState, Respond, ResponderCovered, Collect, ValidPlan;
    if n == 0 {
      CollectNone(p, absent, None, None, s);
      CollectNone(p, absent, target, Some(e), s');
      NoLaterSelf(s.tally);
    } else {
      var t := p.roster[n - 1];
      CollectEmergency(p, absent, target, e, s, s', n - 1);
      CollectStep(p, absent, None, None, s, n);
      CollectStep(p, absent, target, Some(e), s', n);
      if t !in absent {
        var quiet, hit := Final(p, None, None, t), Final(p, target, Some(e), t);
        OneRouteNoWorse(p, target, e, t);
        var a, b := Collect(p, absent, None, None, s, n - 1), Collect(p, absent, target, Some(e), s', n - 1);
        MergeNoLater(a.tally, b.tally, quiet.tally, hit.tally);
      }
    }
  }

  lemma OneRouteNoWorse(p: Plan, target: Option<Id>, e: Event, t: Id)
    requires ValidPlan(p) && ResponderCovered(p, target, e) && t in p.world.technicians
    ensures var quiet, hit := Final(p, None, None, t), Final(p, target, Some(e), t);
            && NoLater(quiet.tally, hit.tally) && quiet.totalOvertime <= hit.totalOvertime
            && (quiet.overtimeFailure ==> hit.overtimeFailure)
  {
    hide NoLater, FinishRoute, NewState, Respond, Covered;
    if target == Some(t) {
      EmergencyOnlyDelays(p.world, t, e);
    } else {
      NoLaterSelf(Final(p, None, None, t).tally);
    }
  }

  /**
    When the emergency outlasts every delay on its responder's route, for any
    service jitter and any closed doors: with it no order goes from late to on
    time, no window violation disappears, and neither lateness nor overtime falls.
   */
  lemma EmergencyNeverHelps(p: Plan, absent: set<Id>, e: Event)
    requires ValidPlan(p) && ResponderCovered(p, Responder(p, absent, Some(e)), e)
    ensures var quiet, hit := TrialOutcome(p, absent, None), TrialOutcome(p, absent, Some(e));
            TrialNoWorse(quiet, Shift(hit, -Lost(Some(e), hit.responder)))
  {
    hide Collect, Booked, NoLater, ResponderCovered, Candidates;
    var r0 := OutcomeShape(p, absent, None);
    var r1 := OutcomeShape(p, absent, Some(e));
    var target := Responder(p, absent, Some(e));
    var s0, s1 := CleanOpening(p, absent, None, r0), CleanOpening(p, absent, target, r1);
    CollectEmergency(p, absent, target, e, s0, s1, |p.roster|);
    CollectKeepsResponder(p, absent, target, Some(e), s1, |p.roster|);
    var quiet, hit := Collect(p, absent, None, None, s0, |p.roster|), Collect(p, absent, target, Some(e), s1, |p.roster|);
    assert Shift(quiet, 0) == quiet && Shift(Shift(hit, Lost(Some(e), target)), -Lost(Some(e), target)) == hit;
  }

  /** Without travel delay this holds for every emergency. */
  lemma PunctualEmergencyNeverHelps(p: Plan, absent: set<Id>, e: Event)
    requires ValidPlan(p) && p.world.delayMax == 0 && SlackTriangle(p.world.travel) && e.duration >= 1
    ensures var quiet, hit := TrialOutcome(p, absent, None), TrialOutcome(p, absent, Some(e));
            TrialNoWorse(quiet, Shift(hit, -Lost(Some(e), hit.responder)))
  {
    hide TrialOutcome, Responder, ValidPlan, Covered;
    var target := Responder(p, absent, Some(e));
    if target.Some? && target.value in p.world.technicians {
      PlanIsWellFormed(p);
      PunctualIsCovered(p.world, target.value, e);
    }
    EmergencyNeverHelps(p, absent, e);
  }

  lemma PlanIsWellFormed(p: Plan)
    requires ValidPlan(p)
    ensures WellFormed(p.world)
  {
  }

  /** No visit left at the checkpoint starts earlier after the emergency than without it. */
  ghost predicate NeverHastens(w: World, t: Id, e: Event)
    requires WellFormed(w) && t in w.technicians
  {
    var y := ApplyEmergency(w, ToCheckpoint(w, NewState(w, t), e), e);
    forall j :: 0 <= j && y.next + j < Visits(w, t) ==>
      Moment(w, NewState(w, t), y.next + j).start <= Moment(w, y, j).start
  }

  lemma CoveredNeverHastens(w: World, t: Id, e: Event)
    requires WellFormed(w) && t in w.technicians && Covered(w, t, e)
    ensures NeverHastens(w, t, e)
  {
    hide ToCheckpoint, Moment, NewState, Covered, WellFormed;
    NewFits(w, t);
    var c := ToCheckpoint(w, NewState(w, t), e);
    var y := ApplyEmergency(w, c, e);
    forall j | 0 <= j && y.next + j < Visits(w, t)
      ensures Moment(w, NewState(w, t), y.next + j).start <= Moment(w, y, j).start
    {
      RemainingVisitsLater(w, t, e, y.next + j);
    }
  }
}
