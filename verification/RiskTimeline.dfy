/**
  The uninterrupted timeline of a route, and the exact meaning of dispatching
  "between visits only": the emergency leaves at the first instant, not before
  the event, at which the technician is neither on the road nor serving.
 */
module RiskTimeline {
  import opened Domain
  import opened Risk

  function Visits(w: World, t: Id): nat {
    |RouteFor(w, t)|
  }

  /** The state after serving k more visits without interruption. */
  function After(w: World, s: RouteState, k: nat): (r: RouteState)
    requires Fits(w, s) && s.next + k <= Visits(w, s.tech)
    ensures Fits(w, r) && r.next == s.next + k && r.tech == s.tech
    ensures k > 0 ==> r.ready == None
  {
    if k == 0 then s else Serve(w, After(w, s, k - 1))
  }

  /** Arrival, start and finish of the k-th further visit of the uninterrupted run. */
  function Moment(w: World, s: RouteState, k: nat): Timing
    requires Fits(w, s) && s.next + k < Visits(w, s.tech)
  {
    OrderTiming(w, After(w, s, k), RouteFor(w, s.tech)[s.next + k])
  }

  lemma MomentOrder(w: World, s: RouteState, k: nat)
    requires Fits(w, s) && s.next + k < Visits(w, s.tech)
    ensures var m := Moment(w, s, k);
            After(w, s, k).current <= m.arrival <= m.start < m.finish == After(w, s, k + 1).current
  {
  }

  lemma {:induction false} AfterShift(w: World, s: RouteState, k: nat)
    requires Fits(w, s) && s.next + k + 1 <= Visits(w, s.tech)
    ensures After(w, Serve(w, s), k) == After(w, s, k + 1)
  {
    if k > 0 {
      AfterShift(w, s, k - 1);
    }
  }

  lemma {:induction false} ServeAllIsAfter(w: World, s: RouteState)
    requires Fits(w, s)
    ensures ServeAll(w, s) == After(w, s, Visits(w, s.tech) - s.next)
    decreases Visits(w, s.tech) - s.next
  {
    hide Serve;
    var n := Visits(w, s.tech) - s.next;
    if n > 0 {
      var s' := Serve(w, s);
      ServeAllIsAfter(w, s');
      AfterShift(w, s, n - 1);
      assert Visits(w, s'.tech) - s'.next == n - 1;
    }
  }

  lemma {:induction false} TimeAdvances(w: World, s: RouteState, j: nat, k: nat)
    requires Fits(w, s) && j <= k && s.next + k <= Visits(w, s.tech)
    ensures After(w, s, j).current <= After(w, s, k).current
    decreases k - j
  {
    hide OrderTiming, Serve, After, Moment, WellFormed;
    if j < k {
      MomentOrder(w, s, k - 1);
      TimeAdvances(w, s, j, k - 1);
    }
  }

  lemma NewFits(w: World, t: Id)
    requires WellFormed(w) && t in w.technicians
    ensures var s := NewState(w, t); Fits(w, s) && s.tech == t && s.next == 0 && s.ready == None
  {
    hide WellFormed;
  }

  lemma AfterNone(w: World, s: RouteState)
    requires Fits(w, s)
    ensures After(w, s, 0) == s
  {
  }

  // ----- dispatchable instants -----

  predicate AtVisit(m: Timing, x: int) {
    x == m.arrival || m.arrival <= x < m.start || x == m.finish
  }

  /** The technician is free to leave at instant `x` of the uninterrupted timeline. */
  ghost predicate Dispatchable(w: World, t: Id, x: int)
    requires WellFormed(w) && t in w.technicians
  {
    var s := NewState(w, t);
    || x == s.current
    || (exists k :: 0 <= k < Visits(w, t) && AtVisit(Moment(w, s, k), x))
    || x >= ReturnFinish(w, After(w, s, Visits(w, t)))
  }

  lemma OtherVisit(w: World, s: RouteState, j: nat, k: nat, x: int)
    requires Fits(w, s) && s.next + j < Visits(w, s.tech) && s.next + k < Visits(w, s.tech) && j != k
    requires After(w, s, k).current < x < After(w, s, k + 1).current
    ensures !AtVisit(Moment(w, s, j), x)
  {
    hide OrderTiming, Serve;
    MomentOrder(w, s, j);
    if j < k {
      TimeAdvances(w, s, j + 1, k);
    } else {
      TimeAdvances(w, s, k + 1, j);
    }
  }

  /** Inside one visit only its own arrival and waiting time are dispatchable. */
  lemma DuringVisit(w: World, t: Id, k: nat, x: int)
    requires WellFormed(w) && t in w.technicians && k < Visits(w, t)
    requires After(w, NewState(w, t), k).current < x < After(w, NewState(w, t), k + 1).current
    ensures Dispatchable(w, t, x) <==> AtVisit(Moment(w, NewState(w, t), k), x)
  {
    hide OrderTiming, Serve, After, Moment, WellFormed, NewState, ReturnFinish;
    NewFits(w, t);
    AfterNone(w, NewState(w, t));
    var s := NewState(w, t);
    TimeAdvances(w, s, 0, k);
    TimeAdvances(w, s, k + 1, Visits(w, t));
    forall j | 0 <= j < Visits(w, t) && j != k ensures !AtVisit(Moment(w, s, j), x) {
      OtherVisit(w, s, j, k, x);
    }
  }

  lemma BeforeStart(w: World, t: Id, x: int)
    requires WellFormed(w) && t in w.technicians && x < NewState(w, t).current
    ensures !Dispatchable(w, t, x)
  {
    hide OrderTiming, Serve, After, Moment, WellFormed, NewState, ReturnFinish;
    NewFits(w, t);
    AfterNone(w, NewState(w, t));
    var s := NewState(w, t);
    TimeAdvances(w, s, 0, Visits(w, t));
    forall j | 0 <= j < Visits(w, t) ensures !AtVisit(Moment(w, s, j), x) {
      MomentOrder(w, s, j);
      TimeAdvances(w, s, 0, j);
    }
  }

  /** After the last visit the road home is not dispatchable, everything later is. */
  lemma AfterLastVisit(w: World, t: Id, x: int)
    requires WellFormed(w) && t in w.technicians && x > After(w, NewState(w, t), Visits(w, t)).current
    ensures Dispatchable(w, t, x) <==> x >= ReturnFinish(w, After(w, NewState(w, t), Visits(w, t)))
  {
    hide OrderTiming, Serve, After, Moment, WellFormed, NewState, ReturnFinish;
    NewFits(w, t);
    AfterNone(w, NewState(w, t));
    var s := NewState(w, t);
    TimeAdvances(w, s, 0, Visits(w, t));
    forall j | 0 <= j < Visits(w, t) ensures !AtVisit(Moment(w, s, j), x) {
      MomentOrder(w, s, j);
      TimeAdvances(w, s, j + 1, Visits(w, t));
    }
  }

  /** `d` is the first dispatchable instant not before `from`. */
  ghost predicate FirstDispatch(w: World, t: Id, from: int, d: int)
    requires WellFormed(w) && t in w.technicians
  {
    d >= from && Dispatchable(w, t, d) && forall x :: from <= x < d ==> !Dispatchable(w, t, x)
  }

  lemma FinishIsDispatchable(w: World, t: Id, k: nat)
    requires WellFormed(w) && t in w.technicians && k <= Visits(w, t)
    ensures Dispatchable(w, t, After(w, NewState(w, t), k).current)
  {
    hide OrderTiming, Serve, After, WellFormed, NewState, ReturnFinish;
    NewFits(w, t);
    if k == 0 {
      AfterNone(w, NewState(w, t));
    } else {
      MomentOrder(w, NewState(w, t), k - 1);
      assert AtVisit(Moment(w, NewState(w, t), k - 1), After(w, NewState(w, t), k).current);
    }
  }

  /** The checkpoint reached from a state before the event: at a door, while waiting, at a finish, or later. */
  lemma CheckpointStep(w: World, s: RouteState, e: Event)
    requires Fits(w, s) && s.current < e.time && s.next < Visits(w, s.tech)
    ensures var m, c := OrderTiming(w, s, RouteFor(w, s.tech)[s.next]), ToCheckpoint(w, s, e);
            && (e.time <= m.arrival ==> c.current == m.arrival)
            && (m.arrival < e.time < m.start ==> c.current == e.time)
            && (m.arrival < e.time && m.start <= e.time <= m.finish ==> c.current == m.finish)
            && (m.finish < e.time ==> c == ToCheckpoint(w, Serve(w, s), e))
  {
    hide OrderTiming, WellFormed, Record;
  }

  lemma CheckpointHome(w: World, s: RouteState, e: Event)
    requires Fits(w, s) && s.current < e.time && s.next == Visits(w, s.tech)
    ensures ToCheckpoint(w, s, e).current == Max(ReturnFinish(w, s), e.time)
  {
    hide ReturnFinish, WellFormed;
  }

  lemma AfterOneMore(w: World, s: RouteState, k: nat)
    requires Fits(w, s) && s.next + k < Visits(w, s.tech)
    ensures After(w, s, k + 1) == Serve(w, After(w, s, k))
    ensures Moment(w, s, k) == OrderTiming(w, After(w, s, k), RouteFor(w, s.tech)[s.next + k])
  {
    hide Serve, OrderTiming, WellFormed;
  }

  /** The checkpoint reached from the k-th state of the timeline. */
  lemma {:induction false} CheckpointFrom(w: World, t: Id, e: Event, k: nat)
    requires WellFormed(w) && t in w.technicians && k <= Visits(w, t)
    requires After(w, NewState(w, t), k).current < e.time
    ensures FirstDispatch(w, t, e.time, Max(ToCheckpoint(w, After(w, NewState(w, t), k), e).current, e.time))
    decreases Visits(w, t) - k
  {
    hide OrderTiming, Serve, After, Moment, WellFormed, NewState, ReturnFinish, ToCheckpoint, Dispatchable;
    NewFits(w, t);
    var s := NewState(w, t);
    var here := After(w, s, k);
    if k == Visits(w, t) {
      CheckpointHome(w, here, e);
      var d := Max(ReturnFinish(w, here), e.time);
      forall x | e.time <= x <= d ensures Dispatchable(w, t, x) <==> x >= ReturnFinish(w, here) {
        AfterLastVisit(w, t, x);
      }
    } else {
      var m := Moment(w, s, k);
      MomentOrder(w, s, k);
      AfterOneMore(w, s, k);
      CheckpointStep(w, here, e);
      var d := if e.time <= m.arrival then m.arrival else e.time;
      if e.time < m.start || e.time <= m.arrival {
        forall x | e.time <= x <= d ensures Dispatchable(w, t, x) <==> AtVisit(m, x) {
          DuringVisit(w, t, k, x);
        }
      } else if e.time <= m.finish {
        FinishIsDispatchable(w, t, k + 1);
        forall x | e.time <= x < m.finish ensures !Dispatchable(w, t, x) {
          DuringVisit(w, t, k, x);
        }
      } else {
        CheckpointFrom(w, t, e, k + 1);
      }
    }
  }

  /**
    BETWEEN_VISITS_ONLY: the emergency is dispatched at the least instant, not
    before the event, among the route entry time, the arrivals, the waiting
    times, the visit finishes and the time after the return.
   */
  lemma DispatchedBetweenVisits(w: World, t: Id, e: Event)
    requires WellFormed(w) && t in w.technicians
    ensures ApplyEmergency(w, ToCheckpoint(w, NewState(w, t), e), e).response.dispatchTime.Some?
    ensures FirstDispatch(w, t, e.time,
                          ApplyEmergency(w, ToCheckpoint(w, NewState(w, t), e), e).response.dispatchTime.value)
  {
    var s := NewState(w, t);
    if e.time <= s.current {
      FinishIsDispatchable(w, t, 0);
      forall x | e.time <= x < s.current ensures !Dispatchable(w, t, x) {
        BeforeStart(w, t, x);
      }
    } else {
      CheckpointFrom(w, t, e, 0);
    }
  }

  // ----- where the checkpoint stands on the timeline -----

  /** A checkpoint is a state of the timeline, possibly moved up to the next door or home. */
  ghost predicate OnTimeline(w: World, c: RouteState, x: RouteState, e: Event)
    requires Fits(w, c) && Fits(w, x) && x.tech == c.tech
  {
    && c.next == x.next && c.tally == x.tally && c.response == x.response
    && ((c == x)
        || (x.next < Visits(w, x.tech) &&
            var a := RouteFor(w, x.tech)[x.next];
            var m := OrderTiming(w, x, a);
            c == WaitingAtCustomer(x, w.orders[a.orderId], c.current)
            && m.arrival <= c.current && (c.current == m.arrival || c.current < m.start))
        || (x.next == Visits(w, x.tech) && c == ReturnHome(w, x, e.time)))
  }

  lemma {:induction false} CheckpointOnTimeline(w: World, s: RouteState, e: Event) returns (k: nat)
    requires Fits(w, s) && s.ready == None
    ensures s.next + k <= Visits(w, s.tech)
    ensures OnTimeline(w, ToCheckpoint(w, s, e), After(w, s, k), e)
    ensures After(w, s, k).ready == None
    decreases Visits(w, s.tech) - s.next
  {
    hide OrderTiming, Record, ReturnFinish;
    AfterNone(w, s);
    k := 0;
    if e.time > s.current && s.next < Visits(w, s.tech) {
      var m := OrderTiming(w, s, RouteFor(w, s.tech)[s.next]);
      if m.start <= e.time && e.time > m.arrival {
        ServedStep(w, s, e);
        if e.time <= m.finish {
          k := 1;
          AfterOneMore(w, s, 0);
        } else {
          hide ToCheckpoint, OnTimeline;
          var j := CheckpointOnTimeline(w, Serve(w, s), e);
          AfterShift(w, s, j);
          k := j + 1;
        }
      }
    }
  }

  /** The visit is finished before the emergency can leave. */
  lemma ServedStep(w: World, s: RouteState, e: Event)
    requires Fits(w, s) && s.current < e.time && s.next < Visits(w, s.tech)
    requires var m := OrderTiming(w, s, RouteFor(w, s.tech)[s.next]); m.start <= e.time && e.time > m.arrival
    ensures var m := OrderTiming(w, s, RouteFor(w, s.tech)[s.next]);
            ToCheckpoint(w, s, e) == if e.time <= m.finish then Serve(w, s) else ToCheckpoint(w, Serve(w, s), e)
  {
    hide OrderTiming, WellFormed, Record;
  }
}
