/**
  A trial with an emergency against the same trial without it: who is touched,
  which outcomes can change, and what the counters do.
 */
module TrialPairs {
  import opened Domain
  import opened Risk
  import opened Trial
  import opened TrialBooks

  // ----- conservation of a whole trial -----

  /** One when an emergency found nobody to take it. */
  function Lost(e: Option<Event>, responder: Option<Id>): int {
    if e.Some? && responder.None? then 1 else 0
  }

  function Shift(r: TrialResult, d: int): TrialResult {
    r.(tally := r.tally.(unserved := r.tally.unserved + d))
  }

  lemma {:induction false} CollectShift(p: Plan, absent: set<Id>, target: Option<Id>, e: Option<Event>,
                                        start: TrialResult, d: int, n: nat)
    requires ValidPlan(p) && n <= |p.roster|
    ensures Collect(p, absent, target, e, Shift(start, d), n) == Shift(Collect(p, absent, target, e, start, n), d)
  {
    hide Final, Collect, ValidPlan;
    if n == 0 {
      CollectNone(p, absent, target, e, start);
      CollectNone(p, absent, target, e, Shift(start, d));
    } else {
      CollectShift(p, absent, target, e, start, d, n - 1);
      CollectStep(p, absent, target, e, start, n);
      CollectStep(p, absent, target, e, Shift(start, d), n);
    }
  }

  lemma {:induction false} RouteOrdersSplit(p: Plan, absent: set<Id>, n: nat)
    requires n <= |p.roster|
    ensures RouteOrders(p, {}, false, n) == RouteOrders(p, absent, true, n) + RouteOrders(p, absent, false, n)
  {
    hide VisitIds;
    if n > 0 {
      RouteOrdersSplit(p, absent, n - 1);
    }
  }

  /** The opening of a trial without the emergency's own failure. */
  function CleanOpening(p: Plan, absent: set<Id>, target: Option<Id>, response: Response): TrialResult {
    TrialResult(Booked(p, absent, |p.roster|), 0, map[], 0, map[], false, target, response)
  }

  lemma OutcomeShape(p: Plan, absent: set<Id>, e: Option<Event>) returns (response: Response)
    requires ValidPlan(p)
    ensures var target := Responder(p, absent, e);
            TrialOutcome(p, absent, e)
            == Shift(Collect(p, absent, target, e, CleanOpening(p, absent, target, response), |p.roster|), Lost(e, target))
  {
    hide Collect, Booked, Respond;
    var target := Responder(p, absent, e);
    if e.Some? {
      ResponderIsBest(p, absent, e.value);
    }
    var opening := Opening(p, absent, target, e);
    response := opening.response;
    var clean := CleanOpening(p, absent, target, response);
    assert opening == Shift(clean, Lost(e, target));
    CollectShift(p, absent, target, e, clean, Lost(e, target), |p.roster|);
  }

  lemma {:induction false} CollectKeepsResponder(p: Plan, absent: set<Id>, target: Option<Id>, e: Option<Event>,
                                                 start: TrialResult, n: nat)
    requires ValidPlan(p) && n <= |p.roster|
    ensures Collect(p, absent, target, e, start, n).responder == start.responder
  {
    hide Final, Collect, ValidPlan;
    if n == 0 {
      CollectNone(p, absent, target, e, start);
    } else {
      CollectKeepsResponder(p, absent, target, e, start, n - 1);
      CollectStep(p, absent, target, e, start, n);
    }
  }

  /**
    Conservation: every planned order ends with exactly one outcome, and the
    counters count them; only an emergency nobody could take adds one more.
   */
  lemma TrialConservation(p: Plan, absent: set<Id>, e: Option<Event>)
    requires ValidPlan(p) && PlannedOnce(p)
    ensures var r := TrialOutcome(p, absent, e);
            && r.responder == Responder(p, absent, e)
            && r.tally.outcomes.Keys == PlannedIds(p)
            && Balanced(r.tally.(unserved := r.tally.unserved - Lost(e, r.responder)))
            && r.tally.onTime + |OfKind(r.tally.outcomes, Disposition.Late)| + r.tally.unserved
               == |PlannedIds(p)| + Lost(e, r.responder)
  {
    hide Collect, Booked, Balanced, RouteOrders, PlannedOnce;
    var target := Responder(p, absent, e);
    var response := OutcomeShape(p, absent, e);
    var clean := CleanOpening(p, absent, target, response);
    CollectBalanced(p, absent, target, e, clean, |p.roster|);
    CollectKeepsResponder(p, absent, target, e, clean, |p.roster|);
    RouteOrdersSplit(p, absent, |p.roster|);
    var y := Collect(p, absent, target, e, clean, |p.roster|).tally;
    assert y.(unserved := y.unserved + Lost(e, target)).(unserved := y.unserved) == y;
    EveryOrderOnce(y);
  }

  lemma KindsSplit(m: map<Id, Outcome>)
    ensures var a, b, c := OfKind(m, OnTime), OfKind(m, Disposition.Late), UnservedIds(m);
            a + b + c == m.Keys && a * b == {} && (a + b) * c == {}
  {
  }

  /** On time, late and unserved split the booked orders. */
  lemma EveryOrderOnce(y: Tally)
    requires Balanced(y)
    ensures y.onTime + |OfKind(y.outcomes, Disposition.Late)| + y.unserved == |y.outcomes.Keys|
  {
    hide LateTotal;
    var a, b, c := OfKind(y.outcomes, OnTime), OfKind(y.outcomes, Disposition.Late), UnservedIds(y.outcomes);
    KindsSplit(y.outcomes);
    hide OfKind, UnservedIds, Plausible;
    SetSizes(a, b);
    SetSizes(a + b, c);
  }

  // ----- reading one order out of the merged books -----

  lemma {:induction false} CollectLookup(p: Plan, absent: set<Id>, target: Option<Id>, e: Option<Event>,
                                         start: TrialResult, n: nat, i: nat, id: Id)
    requires ValidPlan(p) && PlannedOnce(p) && i < n <= |p.roster|
    requires p.roster[i] !in absent && id in VisitIds(RouteFor(p.world, p.roster[i]))
    ensures p.roster[i] in p.world.technicians && id in Final(p, target, e, p.roster[i]).tally.outcomes
    ensures id in Collect(p, absent, target, e, start, n).tally.outcomes
    ensures Collect(p, absent, target, e, start, n).tally.outcomes[id]
         == Final(p, target, e, p.roster[i]).tally.outcomes[id]
  {
    hide Final, VisitIds, Balanced, Collect, ValidPlan, PlannedOnce, OnceEach;
    var t, last := p.roster[i], p.roster[n - 1];
    CollectStep(p, absent, target, e, start, n);
    RosterMember(p, i);
    BookedRoute(p, target, e, t);
    if i < n - 1 {
      CollectLookup(p, absent, target, e, start, n - 1, i, id);
      if last !in absent {
        BookedRoute(p, target, e, last);
        RoutesApart(p, i, n - 1, id);
      }
    }
  }

  /** Two technicians of the roster share no order. */
  lemma RoutesApart(p: Plan, i: nat, j: nat, id: Id)
    requires ValidPlan(p) && PlannedOnce(p) && i < j < |p.roster| && id in VisitIds(RouteFor(p.world, p.roster[i]))
    ensures id !in VisitIds(RouteFor(p.world, p.roster[j]))
  {
    hide VisitIds;
    RosterMember(p, i);
    RosterMember(p, j);
    RosterApart(p, i, j);
    assert id !in VisitIds(RouteFor(p.world, p.roster[i])) * VisitIds(RouteFor(p.world, p.roster[j]));
  }

  lemma {:induction false} CollectKeepsOpening(p: Plan, absent: set<Id>, target: Option<Id>, e: Option<Event>,
                                               start: TrialResult, n: nat, id: Id)
    requires ValidPlan(p) && PlannedOnce(p) && n <= |p.roster|
    requires id in start.tally.outcomes
    requires forall i :: 0 <= i < |p.roster| && p.roster[i] !in absent ==> id !in VisitIds(RouteFor(p.world, p.roster[i]))
    ensures id in Collect(p, absent, target, e, start, n).tally.outcomes
    ensures Collect(p, absent, target, e, start, n).tally.outcomes[id] == start.tally.outcomes[id]
  {
    hide Final, VisitIds, Balanced, Collect, ValidPlan, PlannedOnce, OnceEach;
    if n == 0 {
      CollectNone(p, absent, target, e, start);
    } else {
      CollectKeepsOpening(p, absent, target, e, start, n - 1, id);
      CollectStep(p, absent, target, e, start, n);
      if p.roster[n - 1] !in absent {
        BookedRoute(p, target, e, p.roster[n - 1]);
      }
    }
  }

  lemma {:induction false} CollectOvertime(p: Plan, absent: set<Id>, target: Option<Id>, e: Option<Event>,
                                           start: TrialResult, n: nat, i: nat)
    requires ValidPlan(p) && i < n <= |p.roster| && p.roster[i] !in absent
    ensures p.roster[i] in p.world.technicians
    ensures p.roster[i] in Collect(p, absent, target, e, start, n).overtime
    ensures Collect(p, absent, target, e, start, n).overtime[p.roster[i]]
         == Final(p, target, e, p.roster[i]).totalOvertime
  {
    hide Final, Collect, ValidPlan, Merge;
    RosterMember(p, i);
    CollectStep(p, absent, target, e, start, n);
    if i < n - 1 {
      CollectOvertime(p, absent, target, e, start, n - 1, i);
      RosterApart(p, i, n - 1);
    }
  }

  lemma RosterApart(p: Plan, i: nat, j: nat)
    requires ValidPlan(p) && i < j < |p.roster|
    ensures p.roster[i] != p.roster[j]
  {
    assert p.roster[i].rank < p.roster[j].rank;
  }

  /** The owner of an order, if a present technician has it. */
  lemma OwnerOf(p: Plan, absent: set<Id>, id: Id) returns (i: int)
    requires ValidPlan(p) && id in PlannedIds(p)
    ensures 0 <= i < |p.roster| ==> p.roster[i] !in absent && id in VisitIds(RouteFor(p.world, p.roster[i]))
    ensures !(0 <= i < |p.roster|) ==>
      (forall j :: 0 <= j < |p.roster| && p.roster[j] !in absent ==> id !in VisitIds(RouteFor(p.world, p.roster[j])))
  {
    if j :| 0 <= j < |p.roster| && p.roster[j] !in absent && id in VisitIds(RouteFor(p.world, p.roster[j])) {
      i := j;
    } else {
      i := -1;
    }
  }

  // ----- what an emergency cannot change -----

  /** An order is unserved with the emergency exactly when it is without. */
  lemma SameUnserved(p: Plan, absent: set<Id>, e: Event, id: Id)
    requires ValidPlan(p) && PlannedOnce(p) && id in PlannedIds(p)
    ensures var base, hit := TrialOutcome(p, absent, None).tally, TrialOutcome(p, absent, Some(e)).tally;
            && id in base.outcomes && id in hit.outcomes
            && (Unserved(hit.outcomes[id]) <==> Unserved(base.outcomes[id]))
  {
    hide Collect, Final, Balanced, Booked;
    TrialConservation(p, absent, None);
    TrialConservation(p, absent, Some(e));
    var r0 := OutcomeShape(p, absent, None);
    var r1 := OutcomeShape(p, absent, Some(e));
    var t1 := Responder(p, absent, Some(e));
    var s0, s1 := CleanOpening(p, absent, None, r0), CleanOpening(p, absent, t1, r1);
    var i := OwnerOf(p, absent, id);
    if 0 <= i < |p.roster| {
      var t := p.roster[i];
      CollectLookup(p, absent, None, None, s0, |p.roster|, i, id);
      CollectLookup(p, absent, t1, Some(e), s1, |p.roster|, i, id);
      FinalBooks(p, None, None, t);
      FinalBooks(p, t1, Some(e), t);
    } else {
      BookedBalanced(p, absent, |p.roster|);
      OnlyBooked(p, absent, id);
      CollectKeepsOpening(p, absent, None, None, s0, |p.roster|, id);
      CollectKeepsOpening(p, absent, t1, Some(e), s1, |p.roster|, id);
    }
  }

  lemma OnlyBooked(p: Plan, absent: set<Id>, id: Id)
    requires ValidPlan(p) && id in PlannedIds(p)
    requires forall j :: 0 <= j < |p.roster| && p.roster[j] !in absent ==> id !in VisitIds(RouteFor(p.world, p.roster[j]))
    ensures id in IdSet(p.unassigned) + RouteOrders(p, absent, true, |p.roster|)
  {
    RouteOrdersSplit(p, absent, |p.roster|);
    RouteOrdersFrom(p, absent, false, |p.roster|, id);
  }

  /**
    The frame of an emergency. No served order becomes unserved and no unserved
    order served; the unserved counter rises by one exactly when no technician
    qualifies.
   */
  lemma EmergencyKeepsServed(p: Plan, absent: set<Id>, e: Event)
    requires ValidPlan(p) && PlannedOnce(p)
    ensures var base, hit := TrialOutcome(p, absent, None), TrialOutcome(p, absent, Some(e));
            && UnservedIds(hit.tally.outcomes) == UnservedIds(base.tally.outcomes)
            && hit.tally.unserved == base.tally.unserved
               + (if forall t :: t in p.world.technicians ==> !Qualifies(p.world, absent, e, t) then 1 else 0)
  {
    hide Responder, TrialOutcome, PlannedIds, PlannedOnce;
    var base, hit := TrialOutcome(p, absent, None), TrialOutcome(p, absent, Some(e));
    TrialConservation(p, absent, None);
    TrialConservation(p, absent, Some(e));
    ResponderIsBest(p, absent, e);
    forall id | id in PlannedIds(p)
      ensures Unserved(hit.tally.outcomes[id]) <==> Unserved(base.tally.outcomes[id])
    {
      SameUnserved(p, absent, e, id);
    }
    assert UnservedIds(hit.tally.outcomes) == UnservedIds(base.tally.outcomes);
  }

  /** Every technician but the responder has exactly the timeline, outcomes and overtime of a quiet day. */
  lemma OthersUntouched(p: Plan, absent: set<Id>, e: Event, i: nat)
    requires ValidPlan(p) && PlannedOnce(p) && i < |p.roster| && p.roster[i] !in absent
    requires Responder(p, absent, Some(e)) != Some(p.roster[i])
    ensures var t, base, hit := p.roster[i], TrialOutcome(p, absent, None), TrialOutcome(p, absent, Some(e));
            && t in p.world.technicians && t in base.overtime && t in hit.overtime && hit.overtime[t] == base.overtime[t]
            && (forall id :: id in VisitIds(RouteFor(p.world, t)) ==>
                  id in base.tally.outcomes && id in hit.tally.outcomes
                  && hit.tally.outcomes[id] == base.tally.outcomes[id])
  {
    hide Collect, Booked, FinishRoute, NewState;
    var r0 := OutcomeShape(p, absent, None);
    var r1 := OutcomeShape(p, absent, Some(e));
    var t1 := Responder(p, absent, Some(e));
    var s0, s1 := CleanOpening(p, absent, None, r0), CleanOpening(p, absent, t1, r1);
    CollectOvertime(p, absent, None, None, s0, |p.roster|, i);
    CollectOvertime(p, absent, t1, Some(e), s1, |p.roster|, i);
    forall id | id in VisitIds(RouteFor(p.world, p.roster[i]))
      ensures id in TrialOutcome(p, absent, None).tally.outcomes && id in TrialOutcome(p, absent, Some(e)).tally.outcomes
      ensures TrialOutcome(p, absent, Some(e)).tally.outcomes[id] == TrialOutcome(p, absent, None).tally.outcomes[id]
    {
      CollectLookup(p, absent, None, None, s0, |p.roster|, i, id);
      CollectLookup(p, absent, t1, Some(e), s1, |p.roster|, i, id);
    }
  }
}
