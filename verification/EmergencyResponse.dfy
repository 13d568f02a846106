/**
  What the response fields of a trial say about the emergency, and what the
  planned projection promises about the run: in a world without noise the
  responder is home within the overtime limit, because the projection then is
  the checkpoint, late by at most one minute, and the planned end is the return.
 */
module EmergencyResponse {
  import opened Domain
  import opened Risk
  import opened RiskTimeline
  import opened Trial
  import opened TrialPairs
  import opened RiskCoupling
  import opened EmergencyDelay
  import opened Maximality

  // ----- the response fields -----

  /** The response of a dispatched emergency, in the words of the event. */
  ghost predicate Answers(w: World, e: Event, r: Response) {
    && r.completed && r.dispatchTime.Some? && r.dispatchPlace.Some? && r.finishTime.Some?
    && var leg := w.travel(r.dispatchPlace.value, e.place);
       && e.time <= r.dispatchTime.value
       && r.dispatchTime.value + leg + e.duration <= r.finishTime.value
       && r.finishTime.value <= r.dispatchTime.value + leg + Worst(leg, w.delayMax) + e.duration
       && (r.onTime <==> r.finishTime.value <= e.slaDeadline)
       && (r.onTime <==> r.late == 0) && r.late >= 0
       && (r.late > 0 ==> r.finishTime.value == e.slaDeadline + r.late)
  }

  lemma EmergencyAnswers(w: World, s: RouteState, e: Event)
    ensures var y := ApplyEmergency(w, s, e);
            && Answers(w, e, y.response) && y.response.finishTime == Some(y.current)
            && y.response.dispatchTime == Some(Max(s.current, e.time)) && y.response.dispatchPlace == Some(s.location)
  {
    hide Delayed, Worst, KeyedDraw;
    DelayBounds(w.travel(s.location, e.place), KeyedDraw(w.draws, EmergencyTravelDraw(s.predecessor), w.delayMax + 1),
                w.delayMax);
  }

  /** The responder leaves from the checkpoint, and the rest of the day does not touch the response. */
  lemma ResponderAnswers(w: World, t: Id, e: Event)
    requires WellFormed(w) && t in w.technicians
    ensures var c, r := ToCheckpoint(w, NewState(w, t), e), Respond(w, t, e).response;
            && Answers(w, e, r) && r.dispatchTime == Some(Max(c.current, e.time)) && r.dispatchPlace == Some(c.location)
  {
    hide ToCheckpoint, ApplyEmergency, NewState, Answers, ServeAll;
    NewFits(w, t);
    var c := ToCheckpoint(w, NewState(w, t), e);
    EmergencyAnswers(w, c, e);
    EmergencyTakesTime(w, c, e);
    assert Fits(w, ApplyEmergency(w, c, e));
    ServeAllKeeps(w, ApplyEmergency(w, c, e));
  }

  lemma QuietResponse(w: World, t: Id)
    requires WellFormed(w) && t in w.technicians
    ensures FinishRoute(w, NewState(w, t)).response == NO_RESPONSE
  {
    hide ServeAll;
    NewFits(w, t);
    ServeAllKeeps(w, NewState(w, t));
  }

  /** The late minutes of the emergency are counted once, on the responder's route. */
  lemma {:induction false} CollectEmergencyLate(p: Plan, absent: set<Id>, target: Option<Id>, e: Option<Event>,
                                                start: TrialResult, n: nat)
    requires ValidPlan(p) && n <= |p.roster| && (target.Some? ==> e.Some? && target.value in p.world.technicians)
    ensures Collect(p, absent, target, e, start, n).emergencyLate - start.emergencyLate
         == if target.Some? && target.value in Present(p, absent, n) then Final(p, target, e, target.value).response.late else 0
    ensures Collect(p, absent, target, e, start, n).response == start.response
  {
    hide Final, Collect;
    if n == 0 {
      CollectNone(p, absent, target, e, start);
    } else {
      var t := p.roster[n - 1];
      CollectEmergencyLate(p, absent, target, e, start, n - 1);
      CollectStep(p, absent, target, e, start, n);
      PresentMembers(p, absent, n - 1, t);
      forall i | 0 <= i < n - 1 ensures p.roster[i] != t {
        RosterApart(p, i, n - 1);
      }
      if t !in absent && target != Some(t) {
        NobodyElseAnswers(p, target, e, t);
      }
    }
  }

  lemma NobodyElseAnswers(p: Plan, target: Option<Id>, e: Option<Event>, t: Id)
    requires ValidPlan(p) && t in p.world.technicians && target != Some(t)
    ensures Final(p, target, e, t).response.late == 0
  {
    hide FinishRoute, NewState;
    QuietResponse(p.world, t);
  }

  /** Nobody who answers is absent. */
  lemma ResponderIsPresent(p: Plan, absent: set<Id>, e: Event)
    requires ValidPlan(p) && Responder(p, absent, Some(e)).Some?
    ensures var t := Responder(p, absent, Some(e)).value;
            t in p.world.technicians && t in Present(p, absent, |p.roster|)
  {
    hide Responder;
    ResponderIsBest(p, absent, e);
    var t := Responder(p, absent, Some(e)).value;
    var i :| 0 <= i < |p.roster| && p.roster[i] == t;
    PresentMembers(p, absent, |p.roster|, t);
  }

  lemma OutcomeResponse(p: Plan, absent: set<Id>, e: Option<Event>)
    requires ValidPlan(p)
    ensures var target, r := Responder(p, absent, e), TrialOutcome(p, absent, e);
            && r.responder == target && (target.Some? ==> target.value in p.world.technicians)
            && r.response == (if target.Some? then Final(p, target, e, target.value).response else NO_RESPONSE)
            && r.emergencyLate == (if target.Some? then Final(p, target, e, target.value).response.late else 0)
  {
    hide Collect, Final, Booked, Present;
    var target := Responder(p, absent, e);
    if e.Some? {
      ResponderIsBest(p, absent, e.value);
      if target.Some? {
        ResponderIsPresent(p, absent, e.value);
      }
    }
    hide Responder;
    CollectEmergencyLate(p, absent, target, e, Opening(p, absent, target, e), |p.roster|);
    CollectKeepsResponder(p, absent, target, e, Opening(p, absent, target, e), |p.roster|);
  }

  /** When the emergency is planned to be finished. */
  ghost function PlannedFinish(w: World, e: Event, t: Id): int
    requires WellFormed(w) && t in w.technicians
  {
    EmergencyFinish(w, Projection(w, t, e), e)
  }

  /** Planned to be home past the limit after the emergency and the rest of the route. */
  ghost predicate HomeTooLate(w: World, e: Event, t: Id)
    requires WellFormed(w) && t in w.technicians
  {
    var s := Projection(w, t, e);
    PlannedEnd(w, t, s.next, PlannedFinish(w, e, t), e.place) > w.technicians[t].shiftEnd + w.technicians[t].overtimeLimit
  }

  /**
    The emergency in the result of a trial. With a responder, who came, has the
    skill and is planned to be finished first, it is finished, on time exactly if it is finished by its deadline,
    and late by exactly the minutes after it. Without one nothing is reported,
    and everybody who came and has the skill would be home too late.
   */
  lemma TrialAnswers(p: Plan, absent: set<Id>, e: Event)
    requires ValidPlan(p)
    ensures var r := TrialOutcome(p, absent, Some(e));
            && (r.responder.Some? ==>
                  && r.responder.value !in absent && r.responder.value in p.world.technicians
                  && e.skill in p.world.technicians[r.responder.value].skills && !HomeTooLate(p.world, e, r.responder.value)
                  && Answers(p.world, e, r.response) && r.emergencyLate == r.response.late
                  && forall t :: t in p.world.technicians && t !in absent && e.skill in p.world.technicians[t].skills
                                 && !HomeTooLate(p.world, e, t) ==>
                       && PlannedFinish(p.world, e, r.responder.value) <= PlannedFinish(p.world, e, t)
                       && (PlannedFinish(p.world, e, r.responder.value) == PlannedFinish(p.world, e, t) ==>
                             r.responder.value.rank <= t.rank))
            && (r.responder.None? ==>
                  && r.response == NO_RESPONSE && r.emergencyLate == 0
                  && forall t :: t in p.world.technicians && t !in absent && e.skill in p.world.technicians[t].skills ==>
                       HomeTooLate(p.world, e, t))
  {
    hide TrialOutcome, Responder, Respond, Answers, PlannedEnd, Projection;
    OutcomeResponse(p, absent, Some(e));
    ResponderIsBest(p, absent, e);
    var target := Responder(p, absent, Some(e));
    if target.Some? {
      ResponderAnswers(p.world, target.value, e);
    }
  }

  // ----- the planned end against the run -----

  /** Services are as long as planned and every door opens; travel may still be delayed. */
  ghost predicate Smooth(w: World) {
    w.jitter == 0 && w.noShow == 0 && forall o :: o in w.orders ==> w.orders[o].duration >= 1
  }

  lemma SmoothStay(w: World, o: WorkOrder)
    requires Smooth(w) && o.duration >= 1
    ensures Stay(w, o) == o.duration
  {
  }

  lemma StartFromGrows(w: World, a: Assignment, o: WorkOrder, arrival: int, later: int)
    requires arrival <= later
    ensures StartFrom(w, a, o, arrival) <= StartFrom(w, a, o, later) <= StartFrom(w, a, o, arrival) + later - arrival
  {
  }

  /** The planned end is never later when the route goes on earlier. */
  lemma {:induction false} PlannedEndGrows(w: World, t: Id, k: nat, now: int, later: int, p: Point)
    requires WellFormed(w) && t in w.technicians && k <= Visits(w, t) && now <= later
    ensures PlannedEnd(w, t, k, now, p) <= PlannedEnd(w, t, k, later, p)
    decreases Visits(w, t) - k
  {
    hide StartFrom;
    if k < Visits(w, t) {
      var a := RouteFor(w, t)[k];
      var o := w.orders[a.orderId];
      StartFromGrows(w, a, o, now + w.travel(p, o.location), later + w.travel(p, o.location));
      PlannedEndGrows(w, t, k + 1, StartFrom(w, a, o, now + w.travel(p, o.location)) + o.duration,
                      StartFrom(w, a, o, later + w.travel(p, o.location)) + o.duration, o.location);
    }
  }

  lemma PlannedStep(w: World, t: Id, k: nat, now: int, p: Point)
    requires WellFormed(w) && t in w.technicians && k < Visits(w, t)
    ensures var a := RouteFor(w, t)[k];
            var o := w.orders[a.orderId];
            PlannedEnd(w, t, k, now, p)
            == PlannedEnd(w, t, k + 1, StartFrom(w, a, o, now + w.travel(p, o.location)) + o.duration, o.location)
  {
  }

  /** One visit of a smooth run: no earlier than planned, and as planned without delay. */
  lemma SmoothServe(w: World, s: RouteState)
    requires Smooth(w) && Fits(w, s) && s.next < Visits(w, s.tech) && s.ready == None
    ensures var a := RouteFor(w, s.tech)[s.next];
            var o := w.orders[a.orderId];
            var planned := StartFrom(w, a, o, s.current + w.travel(s.location, o.location)) + o.duration;
            && Serve(w, s).location == o.location && planned <= Serve(w, s).current
            && (w.delayMax == 0 ==> planned == Serve(w, s).current)
  {
    hide Delayed, Worst, KeyedDraw, Stay;
    var a := RouteFor(w, s.tech)[s.next];
    SmoothStay(w, w.orders[a.orderId]);
    ArrivalBounds(w, s, w.orders[a.orderId]);
    NoWorst(w.travel(s.location, w.orders[a.orderId].location));
  }

  lemma NoWorst(minutes: nat)
    ensures Worst(minutes, 0) == 0
  {
  }

  /** Home at the planned end without delay, and never before it with any. */
  lemma {:induction false} HomeAsPlanned(w: World, s: RouteState)
    requires Smooth(w) && Fits(w, s) && s.ready == None
    ensures PlannedEnd(w, s.tech, s.next, s.current, s.location) <= ReturnFinish(w, ServeAll(w, s))
    ensures w.delayMax == 0 ==> PlannedEnd(w, s.tech, s.next, s.current, s.location) == ReturnFinish(w, ServeAll(w, s))
    decreases Visits(w, s.tech) - s.next
  {
    hide Serve, ReturnFinish, StartFrom;
    if s.next < Visits(w, s.tech) {
      var a := RouteFor(w, s.tech)[s.next];
      var o := w.orders[a.orderId];
      SmoothServe(w, s);
      HomeAsPlanned(w, Serve(w, s));
      PlannedStep(w, s.tech, s.next, s.current, s.location);
      PlannedEndGrows(w, s.tech, s.next + 1, StartFrom(w, a, o, s.current + w.travel(s.location, o.location)) + o.duration,
                      Serve(w, s).current, o.location);
    } else {
      ReturnBounds(w, s);
      NoWorst(w.travel(s.location, Terminal(w, s.tech)));
    }
  }

  /**
    The planned end of a candidate, against the run from the same state: the
    return is never before it, and exactly then if no leg is delayed.
   */
  lemma PlannedEndIsTheReturn(w: World, s: RouteState, e: Event)
    requires Smooth(w) && Fits(w, s)
    ensures var y, planned := ApplyEmergency(w, s, e), PlannedEnd(w, s.tech, s.next, EmergencyFinish(w, s, e), e.place);
            && Fits(w, y) && planned <= ReturnFinish(w, ServeAll(w, y))
            && (w.delayMax == 0 ==> planned == ReturnFinish(w, ServeAll(w, y)))
  {
    hide ServeAll, ReturnFinish, PlannedEnd, Delayed, Worst, KeyedDraw;
    var y := ApplyEmergency(w, s, e);
    var leg := w.travel(s.location, e.place);
    DelayBounds(leg, KeyedDraw(w.draws, EmergencyTravelDraw(s.predecessor), w.delayMax + 1), w.delayMax);
    NoWorst(leg);
    HomeAsPlanned(w, y);
    PlannedEndGrows(w, s.tech, s.next, EmergencyFinish(w, s, e), y.current, e.place);
  }

  // ----- the projection against the checkpoint -----

  /** A smooth world without travel delay, in which staying takes no time. */
  ghost predicate Still(w: World) {
    Smooth(w) && w.delayMax == 0 && forall a :: w.travel(a, a) == 0
  }

  /**
    The event does not find the technician just done with the last visit: there
    the projection sends them home first, while the run lets them leave at once.
   */
  ghost predicate ClearOfTheEnd(w: World, s: RouteState, e: Event)
    requires Fits(w, s)
  {
    var z := ServeAll(w, s);
    z.location == Terminal(w, s.tech) || e.time > z.current || (s.next < Visits(w, s.tech) && e.time < z.current)
  }

  /** Same place, same visits left, and at most a minute later. */
  ghost predicate ProjectedFrom(w: World, c: RouteState, p: RouteState, e: Event) {
    && p.tech == c.tech && p.next == c.next && p.location == c.location
    && Max(c.current, e.time) <= Max(p.current, e.time) <= Max(c.current, e.time) + 1
  }

  lemma StillReturn(w: World, s: RouteState)
    requires Still(w) && s.tech in w.technicians
    ensures ReturnFinish(w, s) == s.current + w.travel(s.location, Terminal(w, s.tech))
  {
    ReturnBounds(w, s);
    NoWorst(w.travel(s.location, Terminal(w, s.tech)));
    hide Delayed, Worst, KeyedDraw, ReturnFinish;
  }

  lemma StillArrival(w: World, s: RouteState, o: WorkOrder)
    requires Still(w) && s.ready == None
    ensures ArrivalAt(w, s, o) == s.current + w.travel(s.location, o.location)
  {
    ArrivalBounds(w, s, o);
    NoWorst(w.travel(s.location, o.location));
    hide Delayed, Worst, KeyedDraw, ArrivalAt;
  }

  lemma StaysPut(w: World, a: Point)
    requires Still(w)
    ensures w.travel(a, a) == 0
  {
  }

  /** After the last visit: where the run is, and where the projection is. */
  lemma HomeCheckpoint(w: World, s: RouteState, e: Event)
    requires Fits(w, s) && s.next == Visits(w, s.tech)
    ensures ToCheckpoint(w, s, e) == if e.time <= s.current then s else ReturnHome(w, s, e.time)
    ensures ProjectFrom(w, s, e) == if s.location != Terminal(w, s.tech) then
                                      s.(current := Max(e.time + 1, s.current + w.travel(s.location, Terminal(w, s.tech))),
                                         location := Terminal(w, s.tech), predecessor := DepotOf(s.tech), returned := true)
                                    else s.(current := Max(s.current, e.time))
  {
    hide Terminal, WellFormed, OrderTiming, Complete, WaitingAtCustomer, ReturnHome;
  }

  lemma HomeIsProjected(w: World, s: RouteState, e: Event)
    requires Still(w) && Fits(w, s) && s.next == Visits(w, s.tech) && ClearOfTheEnd(w, s, e)
    ensures ProjectedFrom(w, ToCheckpoint(w, s, e), ProjectFrom(w, s, e), e)
  {
    hide ToCheckpoint, ProjectFrom, Still, Terminal, ReturnFinish;
    HomeCheckpoint(w, s, e);
    StillReturn(w, s);
    StaysPut(w, Terminal(w, s.tech));
  }

  /** The next visit is not over by the time of the event, or is not even begun. */
  predicate NotOver(w: World, s: RouteState, e: Event)
    requires Fits(w, s) && s.next < Visits(w, s.tech)
  {
    e.time <= s.current || e.time < OrderTiming(w, s, RouteFor(w, s.tech)[s.next]).finish
  }

  lemma VisitIsProjected(w: World, s: RouteState, e: Event)
    requires Still(w) && Fits(w, s) && s.ready == None && s.next < Visits(w, s.tech) && NotOver(w, s, e)
    ensures ProjectedFrom(w, ToCheckpoint(w, s, e), ProjectFrom(w, s, e), e)
  {
    var a := RouteFor(w, s.tech)[s.next];
    StillArrival(w, s, w.orders[a.orderId]);
    SmoothStay(w, w.orders[a.orderId]);
    hide ReturnFinish, ArrivalAt, StartFrom, Stay, Record, Terminal;
  }

  lemma OverGoesOn(w: World, s: RouteState, e: Event)
    requires Fits(w, s) && s.next < Visits(w, s.tech) && !NotOver(w, s, e)
    ensures ToCheckpoint(w, s, e) == ToCheckpoint(w, Serve(w, s), e) && ProjectFrom(w, s, e) == ProjectFrom(w, Serve(w, s), e)
    ensures Serve(w, s).current <= e.time
  {
    hide ArrivalAt, StartFrom, Stay, Record, Terminal, ReturnFinish;
    StopsAtFinish(w, Serve(w, s), e);
  }

  /** In a still world the projection is the checkpoint, or the same checkpoint one minute later. */
  lemma {:induction false} ProjectionIsTheCheckpoint(w: World, s: RouteState, e: Event)
    requires Still(w) && Fits(w, s) && s.ready == None && ClearOfTheEnd(w, s, e)
    ensures ProjectedFrom(w, ToCheckpoint(w, s, e), ProjectFrom(w, s, e), e)
    decreases Visits(w, s.tech) - s.next
  {
    hide ToCheckpoint, ProjectFrom, NotOver, Serve, Terminal, Still;
    if s.next == Visits(w, s.tech) {
      HomeIsProjected(w, s, e);
    } else if NotOver(w, s, e) {
      VisitIsProjected(w, s, e);
    } else {
      OverGoesOn(w, s, e);
      ProjectionIsTheCheckpoint(w, Serve(w, s), e);
    }
  }

  /** A run that reaches the time of the event at a finish leaves from there. */
  lemma StopsAtFinish(w: World, s: RouteState, e: Event)
    requires Fits(w, s)
    ensures e.time <= s.current ==> ToCheckpoint(w, s, e) == s
  {
  }

  /**
    What the choice of the responder promises: in a still world a technician who
    qualifies is home within the overtime limit after the emergency and the rest
    of the route, unless the event falls on the end of their last visit.
   */
  lemma ResponderHomeInTime(w: World, absent: set<Id>, e: Event, t: Id)
    requires Still(w) && WellFormed(w) && t in w.technicians && Qualifies(w, absent, e, t)
    requires ClearOfTheEnd(w, NewState(w, t), e)
    ensures var r, tech := Respond(w, t, e), w.technicians[t];
            && r.returned && r.current <= tech.shiftEnd + tech.overtimeLimit
            && r.totalOvertime <= tech.overtimeLimit && !r.overtimeFailure
  {
    hide ToCheckpoint, ProjectFrom, NewState, PlannedEnd, ServeAll, ReturnFinish, ClearOfTheEnd, ApplyEmergency;
    NewFits(w, t);
    var s := NewState(w, t);
    ProjectionIsTheCheckpoint(w, s, e);
    var c, p := ToCheckpoint(w, s, e), ProjectFrom(w, s, e);
    PlannedEndGrows(w, t, c.next, EmergencyFinish(w, c, e), EmergencyFinish(w, p, e), e.place);
    PlannedEndIsTheReturn(w, c, e);
    EmergencyTakesTime(w, c, e);
    ServeAllKeeps(w, ApplyEmergency(w, c, e));
  }

  // ----- at the end of the last visit -----

  /** A minute more at the start of the rest is at most a minute more at the end. */
  lemma {:induction false} PlannedEndIsSlow(w: World, t: Id, k: nat, now: int, later: int, p: Point)
    requires WellFormed(w) && t in w.technicians && k <= Visits(w, t) && now <= later <= now + 1
    ensures PlannedEnd(w, t, k, later, p) <= PlannedEnd(w, t, k, now, p) + 1
    decreases Visits(w, t) - k
  {
    hide StartFrom;
    if k < Visits(w, t) {
      var a := RouteFor(w, t)[k];
      var o := w.orders[a.orderId];
      StartFromGrows(w, a, o, now + w.travel(p, o.location), later + w.travel(p, o.location));
      PlannedEndIsSlow(w, t, k + 1, StartFrom(w, a, o, now + w.travel(p, o.location)) + o.duration,
                       StartFrom(w, a, o, later + w.travel(p, o.location)) + o.duration, o.location);
    }
  }

  /** At worst the run leaves from the last customer where the projection went home first. */
  ghost predicate ProjectedFinish(w: World, c: RouteState, p: RouteState, e: Event) {
    && p.tech == c.tech && p.next == c.next && EmergencyFinish(w, c, e) <= EmergencyFinish(w, p, e) + 1
  }

  lemma HomeIsAMinuteShort(w: World, s: RouteState, e: Event)
    requires Still(w) && SlackTriangle(w.travel) && Fits(w, s) && s.next == Visits(w, s.tech)
    ensures ProjectedFinish(w, ToCheckpoint(w, s, e), ProjectFrom(w, s, e), e)
  {
    hide ToCheckpoint, ProjectFrom, ReturnFinish, WellFormed;
    var home := Terminal(w, s.tech);
    HomeCheckpoint(w, s, e);
    StillReturn(w, s);
    StaysPut(w, home);
    ThroughHome(w, s.location, home, e.place);
    hide Still, SlackTriangle, Terminal;
    if s.location == home {
      assert ProjectFrom(w, s, e) == s.(current := Max(s.current, e.time));
    }
  }

  lemma ThroughHome(w: World, from: Point, home: Point, place: Point)
    requires SlackTriangle(w.travel)
    ensures w.travel(from, place) <= w.travel(from, home) + w.travel(home, place) + 1
  {
  }

  lemma {:induction false} ProjectionIsAMinuteShort(w: World, s: RouteState, e: Event)
    requires Still(w) && SlackTriangle(w.travel) && Fits(w, s) && s.ready == None
    ensures ProjectedFinish(w, ToCheckpoint(w, s, e), ProjectFrom(w, s, e), e)
    decreases Visits(w, s.tech) - s.next
  {
    hide ToCheckpoint, ProjectFrom, NotOver, Serve, Terminal, Still, SlackTriangle;
    if s.next == Visits(w, s.tech) {
      HomeIsAMinuteShort(w, s, e);
    } else if NotOver(w, s, e) {
      VisitIsProjected(w, s, e);
    } else {
      OverGoesOn(w, s, e);
      ProjectionIsAMinuteShort(w, Serve(w, s), e);
    }
  }

  /** Wherever the event falls, with the slack triangle the limit is passed by at most one minute. */
  lemma ResponderHomeWithinAMinute(w: World, absent: set<Id>, e: Event, t: Id)
    requires Still(w) && SlackTriangle(w.travel) && WellFormed(w) && t in w.technicians && Qualifies(w, absent, e, t)
    ensures var r, tech := Respond(w, t, e), w.technicians[t];
            r.returned && r.current <= tech.shiftEnd + tech.overtimeLimit + 1
  {
    hide ToCheckpoint, ProjectFrom, NewState, PlannedEnd, ServeAll, ReturnFinish, ApplyEmergency, EmergencyFinish, Still,
         SlackTriangle;
    NewFits(w, t);
    var s := NewState(w, t);
    ProjectionIsAMinuteShort(w, s, e);
    var c, p := ToCheckpoint(w, s, e), ProjectFrom(w, s, e);
    var finish, projected := EmergencyFinish(w, c, e), EmergencyFinish(w, p, e);
    if finish <= projected {
      PlannedEndGrows(w, t, c.next, finish, projected, e.place);
    } else {
      PlannedEndIsSlow(w, t, c.next, projected, finish, e.place);
    }
    StillIsSmooth(w);
    PlannedEndIsTheReturn(w, c, e);
    EmergencyTakesTime(w, c, e);
    ServeAllKeeps(w, ApplyEmergency(w, c, e));
  }

  lemma StillIsSmooth(w: World)
    requires Still(w)
    ensures Smooth(w) && w.delayMax == 0
  {
  }
}
