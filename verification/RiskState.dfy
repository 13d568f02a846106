/**
  The mutable `_RiskRouteState` and the nested functions of `trial_outcome` that
  advance it, each proved to do what the function on states in module Risk says.
 */
module RiskState {
  import opened Domain
  import opened Risk

  class RiskRouteState {
    var tech: Id
    var current: int
    var location: Point
    var predecessor: Anchor
    var next: nat
    var ready: Option<nat>
    var returned: bool
    var totalOvertime: int
    var overtimeFailure: bool
    var tally: Tally
    var response: Response

    function View(): RouteState
      reads this
    {
      RouteState(tech, current, location, predecessor, next, ready, returned, totalOvertime, overtimeFailure,
                 tally, response)
    }

    constructor (w: World, t: Id)
      requires t in w.technicians
      ensures View() == NewState(w, t)
    {
      var entered := t in w.entries;
      var place := if entered then w.entries[t].location else w.technicians[t].depot;
      tech := t;
      current := if entered then w.entries[t].availableAt else w.technicians[t].shiftStart;
      location := place;
      predecessor := if entered then Anchor.EntryOf(t, place) else DepotOf(t);
      next, ready, returned := 0, None, false;
      totalOvertime, overtimeFailure := 0, false;
      tally, response := EMPTY_TALLY, NO_RESPONSE;
    }

    /** `order_timing`. */
    method OrderTiming(w: World, a: Assignment) returns (arrival: int, start: int, finish: int, noShow: bool)
      requires a.orderId in w.orders && w.jitter <= 100
      ensures Timing(arrival, start, finish, noShow) == Risk.OrderTiming(w, View(), a)
    {
      var o := w.orders[a.orderId];
      if ready == Some(next) {
        arrival := current;
      } else {
        var delay := KeyedDraw(w.draws, TravelDraw(predecessor, o.id), w.delayMax + 1);
        arrival := current + Delayed(w.travel(location, o.location), delay);
      }
      start := Max(arrival, ReadyAt(o));
      if w.follow {
        start := Max(start, a.start);
      }
      noShow := KeyedDraw(w.draws, NoShowDraw(o.id), 10000) < w.noShow;
      if noShow {
        finish := start + 10;
      } else {
        var percent := 100 - w.jitter + KeyedDraw(w.draws, ServiceDraw(o.id), 2 * w.jitter + 1);
        finish := start + Max(1, (o.duration * percent + 50) / 100);
      }
    }

    /** `complete_assignment`. */
    method CompleteAssignment(w: World, a: Assignment, start: int, finish: int, noShow: bool)
      requires a.orderId in w.orders
      modifies this
      ensures View() == Complete(old(View()), w.orders[a.orderId], start, finish, noShow)
    {
      hide Record;
      var o := w.orders[a.orderId];
      ready := None;
      current := finish;
      location := o.location;
      predecessor := VisitTo(o.id);
      next := next + 1;
      RecordVisit(o, start, finish, noShow);
    }

    /** The counters and outcomes of one finished visit. */
    method RecordVisit(o: WorkOrder, start: int, finish: int, noShow: bool)
      modifies this`tally
      ensures tally == Record(old(tally), tech, o, start, finish, noShow)
    {
      var violated := start > o.windowEnd;
      tally := tally.(windowViolations := tally.windowViolations[o.id := violated],
                      windowFailure := tally.windowFailure || violated);
      if noShow {
        tally := tally.(unserved := tally.unserved + 1, noShowFailure := true,
                        outcomes := tally.outcomes[o.id := Outcome(NoShowUnserved, None, Some(tech))]);
        return;
      }
      var late := Max(0, finish - o.slaDeadline);
      var kind := if late == 0 then OnTime else Disposition.Late;
      tally := tally.(totalLate := tally.totalLate + late, onTime := tally.onTime + (if late == 0 then 1 else 0),
                      outcomes := tally.outcomes[o.id := Outcome(kind, Some(late), Some(tech))]);
    }

    method GoHome(w: World, home: int, until: int)
      requires tech in w.technicians && home == ReturnFinish(w, View())
      modifies this
      ensures View() == ReturnHome(w, old(View()), until)
    {
      var t := w.technicians[tech];
      location := Terminal(w, tech);
      predecessor := DepotOf(tech);
      returned := true;
      totalOvertime := Max(0, home - t.shiftEnd);
      overtimeFailure := totalOvertime > t.overtimeLimit;
      current := Max(home, until);
    }

    /** `finish_route`. */
    method FinishRoute(w: World)
      requires Risk.Fits(w, View())
      modifies this
      ensures View() == Risk.FinishRoute(w, old(View()))
    {
      hide Risk.OrderTiming, Record, KeyedDraw, Delayed;
      var route := RouteFor(w, tech);
      while next < |route|
        invariant Risk.Fits(w, View()) && tech == old(tech) && route == RouteFor(w, tech)
        invariant ServeAll(w, View()) == ServeAll(w, old(View()))
        decreases |route| - next
      {
        var a := route[next];
        var arrival, start, finish, noShow := OrderTiming(w, a);
        CompleteAssignment(w, a, start, finish, noShow);
      }
      if returned || (|route| == 0 && !response.completed) {
        return;
      }
      var back := w.travel(location, Terminal(w, tech));
      var delay := KeyedDraw(w.draws, ReturnDraw(predecessor, tech), w.delayMax + 1);
      var home := current + Delayed(back, delay);
      GoHome(w, home, home);
    }

    /** `advance_to_dispatch_checkpoint`. */
    method AdvanceToDispatchCheckpoint(w: World, e: Event)
      requires Risk.Fits(w, View())
      modifies this
      ensures View() == ToCheckpoint(w, old(View()), e) && Risk.Fits(w, View())
    {
      hide Risk.OrderTiming, Record, KeyedDraw, Delayed;
      var route := RouteFor(w, tech);
      while next < |route|
        invariant Risk.Fits(w, View()) && tech == old(tech) && route == RouteFor(w, tech)
        invariant ToCheckpoint(w, View(), e) == ToCheckpoint(w, old(View()), e)
        decreases |route| - next
      {
        if e.time <= current {
          return;
        }
        var a := route[next];
        var o := w.orders[a.orderId];
        var arrival, start, finish, noShow := OrderTiming(w, a);
        if e.time <= arrival {
          // No diversion on the road: reach the customer first.
          current, location, predecessor, ready := arrival, o.location, VisitTo(o.id), Some(next);
          return;
        }
        if e.time < start {
          // Waiting at the door is a checkpoint.
          current, location, predecessor, ready := e.time, o.location, VisitTo(o.id), Some(next);
          return;
        }
        CompleteAssignment(w, a, start, finish, noShow);
        if e.time <= finish {
          return;
        }
      }
      if e.time <= current {
        return;
      }
      var back := w.travel(location, Terminal(w, tech));
      var delay := KeyedDraw(w.draws, ReturnDraw(predecessor, tech), w.delayMax + 1);
      var returnFinish := current + Delayed(back, delay);
      GoHome(w, returnFinish, e.time);
    }

    /** `apply_emergency`. */
    method ApplyEmergency(w: World, e: Event) returns (finish: int)
      modifies this
      ensures View() == Risk.ApplyEmergency(w, old(View()), e) && finish == current
    {
      var depart := Max(current, e.time);
      response := response.(dispatchTime := Some(depart), dispatchPlace := Some(location));
      var planned := w.travel(location, e.place);
      var delay := KeyedDraw(w.draws, EmergencyTravelDraw(predecessor), w.delayMax + 1);
      current := depart + Delayed(planned, delay) + e.duration;
      response := response.(finishTime := Some(current), late := Max(0, current - e.slaDeadline), completed := true,
                            onTime := current <= e.slaDeadline);
      location := e.place;
      predecessor := EmergencyBy(tech);
      ready := None;
      returned := false;
      finish := current;
    }

    /** `event_information_projection`, run on a fresh state. */
    method Project(w: World, e: Event)
      requires Risk.Fits(w, View())
      modifies this
      ensures View() == ProjectFrom(w, old(View()), e) && Risk.Fits(w, View())
    {
      hide Risk.OrderTiming, Record, KeyedDraw, Delayed;
      var route := RouteFor(w, tech);
      while next < |route|
        invariant Risk.Fits(w, View()) && tech == old(tech) && route == RouteFor(w, tech)
        invariant ProjectFrom(w, View(), e) == ProjectFrom(w, old(View()), e)
        decreases |route| - next
      {
        if e.time <= current {
          return;
        }
        var a := route[next];
        var o := w.orders[a.orderId];
        var arrival, start, finish, noShow := OrderTiming(w, a);
        if finish <= e.time {
          CompleteAssignment(w, a, start, finish, noShow);
          continue;
        }
        if e.time <= arrival {
          var planned := current + w.travel(location, o.location);
          current, location, predecessor, ready := Max(e.time + 1, planned), o.location, VisitTo(o.id), Some(next);
          return;
        }
        if e.time < start {
          current, location, predecessor, ready := e.time, o.location, VisitTo(o.id), Some(next);
          return;
        }
        var remaining := Max(1, o.duration - (e.time - start));
        current, location, predecessor, next, ready := e.time + remaining, o.location, VisitTo(o.id), next + 1, None;
        return;
      }
      if location != Terminal(w, tech) {
        var planned := current + w.travel(location, Terminal(w, tech));
        current, location, predecessor, returned := Max(e.time + 1, planned), Terminal(w, tech), DepotOf(tech), true;
      } else {
        current := Max(current, e.time);
      }
    }
  }
}
