/**
  `trial_outcome`: one trial over all technicians. Absentees are booked first,
  then at most one responder takes the emergency, then every route is finished
  and the books of all routes are merged.
 */
module Trial {
  import opened Domain
  import opened Risk
  import opened RiskState

  /** The fixed inputs of a trial: the world, `sorted(technicians)`, and what the plan left unserved. */
  datatype Plan = Plan(world: World, roster: seq<Id>, unassigned: seq<Id>)

  ghost predicate ValidPlan(p: Plan) {
    && WellFormed(p.world)
    && (forall t :: t in p.roster <==> t in p.world.technicians)
    && (forall i, j :: 0 <= i < j < |p.roster| ==> p.roster[i].rank < p.roster[j].rank)
  }

  // ----- the books -----

  function Merge(a: Tally, b: Tally): Tally {
    Tally(a.onTime + b.onTime, a.totalLate + b.totalLate, a.unserved + b.unserved,
          a.noShowFailure || b.noShowFailure, a.windowFailure || b.windowFailure,
          a.outcomes + b.outcomes, a.windowViolations + b.windowViolations)
  }

  function VisitIds(r: seq<Assignment>): set<Id> {
    set a | a in r :: a.orderId
  }

  function AbsentTally(t: Id, r: seq<Assignment>): Tally {
    Tally(0, 0, |r|, false, false, map id | id in VisitIds(r) :: Outcome(AbsenceUnserved, None, Some(t)), map[])
  }

  function UnassignedTally(ids: seq<Id>): Tally {
    Tally(0, 0, |ids|, false, false, map id | id in ids :: Outcome(PlanUnserved, None, None), map[])
  }

  function Booked(p: Plan, absent: set<Id>, n: nat): Tally
    requires n <= |p.roster|
  {
    if n == 0 then UnassignedTally(p.unassigned)
    else
      var before, t := Booked(p, absent, n - 1), p.roster[n - 1];
      if t in absent then Merge(before, AbsentTally(t, RouteFor(p.world, t))) else before
  }

  // ----- the responder -----

  function Candidates(p: Plan, absent: set<Id>, e: Event, n: nat): (r: seq<Choice>)
    requires ValidPlan(p) && n <= |p.roster|
    ensures forall c :: c in r <==>
      exists i :: 0 <= i < n && c.tech == p.roster[i] && Qualifies(p.world, absent, e, c.tech)
               && c.finish == EmergencyFinish(p.world, Projection(p.world, c.tech, e), e)
  {
    if n == 0 then []
    else
      var t := p.roster[n - 1];
      Candidates(p, absent, e, n - 1)
      + (if Qualifies(p.world, absent, e, t)
         then [Choice(EmergencyFinish(p.world, Projection(p.world, t, e), e), t)] else [])
  }

  function Soonest(cs: seq<Choice>): (r: Choice)
    requires cs != []
    ensures r in cs && forall c :: c in cs ==> Sooner(r, c)
  {
    if |cs| == 1 then cs[0]
    else
      var b, last := Soonest(cs[..|cs| - 1]), cs[|cs| - 1];
      assert forall c :: c in cs ==> c in cs[..|cs| - 1] || c == last;
      if Sooner(b, last) then b else last
  }

  function Responder(p: Plan, absent: set<Id>, e: Option<Event>): Option<Id>
    requires ValidPlan(p)
  {
    if e.None? then None
    else
      var cs := Candidates(p, absent, e.value, |p.roster|);
      if cs == [] then None else Some(Soonest(cs).tech)
  }

  /** The responder is the qualified technician with the earliest projected finish, ties to the smaller id. */
  lemma ResponderIsBest(p: Plan, absent: set<Id>, e: Event)
    requires ValidPlan(p)
    ensures Responder(p, absent, Some(e)).None? <==>
      forall t :: t in p.world.technicians ==> !Qualifies(p.world, absent, e, t)
    ensures Responder(p, absent, Some(e)).Some? ==>
      var r := Responder(p, absent, Some(e)).value;
      && r in p.world.technicians && Qualifies(p.world, absent, e, r)
      && forall t :: t in p.world.technicians && Qualifies(p.world, absent, e, t) ==>
           Sooner(Choice(EmergencyFinish(p.world, Projection(p.world, r, e), e), r),
                  Choice(EmergencyFinish(p.world, Projection(p.world, t, e), e), t))
  {
    var cs := Candidates(p, absent, e, |p.roster|);
    forall t | t in p.world.technicians && Qualifies(p.world, absent, e, t)
      ensures Choice(EmergencyFinish(p.world, Projection(p.world, t, e), e), t) in cs
    {
      var i :| 0 <= i < |p.roster| && p.roster[i] == t;
    }
    if cs != [] {
      assert cs[0] in cs && Soonest(cs) in cs;
    }
  }

  // ----- the states -----

  function Final(p: Plan, target: Option<Id>, e: Option<Event>, t: Id): RouteState
    requires ValidPlan(p) && t in p.world.technicians
  {
    if e.Some? && target == Some(t) then Respond(p.world, t, e.value)
    else FinishRoute(p.world, NewState(p.world, t))
  }

  datatype TrialResult = TrialResult(
    tally: Tally,
    emergencyLate: int,
    overtime: map<Id, int>,
    totalOvertime: int,
    breaches: map<Id, bool>,
    overtimeFailure: bool,
    responder: Option<Id>,
    response: Response)

  /** Adds the finished route of one present technician. */
  function AddRoute(p: Plan, r: TrialResult, s: RouteState): TrialResult
    requires s.tech in p.world.technicians
  {
    r.(tally := Merge(r.tally, s.tally), emergencyLate := r.emergencyLate + s.response.late,
       overtime := r.overtime[s.tech := s.totalOvertime], totalOvertime := r.totalOvertime + s.totalOvertime,
       breaches := r.breaches[s.tech := s.totalOvertime > p.world.technicians[s.tech].overtimeLimit],
       overtimeFailure := r.overtimeFailure || s.overtimeFailure)
  }

  function Collect(p: Plan, absent: set<Id>, target: Option<Id>, e: Option<Event>, start: TrialResult, n: nat): TrialResult
    requires ValidPlan(p) && n <= |p.roster|
  {
    if n == 0 then start
    else
      var before, t := Collect(p, absent, target, e, start, n - 1), p.roster[n - 1];
      if t in absent then before
      else
        FinalKeepsTech(p, target, e, t);
        AddRoute(p, before, Final(p, target, e, t))
  }

  lemma FinalKeepsTech(p: Plan, target: Option<Id>, e: Option<Event>, t: Id)
    requires ValidPlan(p) && t in p.world.technicians
    ensures Final(p, target, e, t).tech == t
  {
  }

  /** One more technician collected, said without the recursion. */
  lemma CollectStep(p: Plan, absent: set<Id>, target: Option<Id>, e: Option<Event>, start: TrialResult, n: nat)
    requires ValidPlan(p) && 0 < n <= |p.roster|
    ensures p.roster[n - 1] in p.world.technicians && Final(p, target, e, p.roster[n - 1]).tech == p.roster[n - 1]
    ensures Collect(p, absent, target, e, start, n)
         == if p.roster[n - 1] in absent then Collect(p, absent, target, e, start, n - 1)
            else AddRoute(p, Collect(p, absent, target, e, start, n - 1), Final(p, target, e, p.roster[n - 1]))
  {
    hide Final, AddRoute;
    FinalKeepsTech(p, target, e, p.roster[n - 1]);
  }

  lemma CollectNone(p: Plan, absent: set<Id>, target: Option<Id>, e: Option<Event>, start: TrialResult)
    requires ValidPlan(p)
    ensures Collect(p, absent, target, e, start, 0) == start
  {
  }

  lemma RosterMember(p: Plan, i: nat)
    requires ValidPlan(p) && i < |p.roster|
    ensures p.roster[i] in p.world.technicians
  {
  }

  function Opening(p: Plan, absent: set<Id>, target: Option<Id>, e: Option<Event>): TrialResult
    requires ValidPlan(p) && (target.Some? ==> target.value in p.world.technicians)
  {
    var booked := Booked(p, absent, |p.roster|);
    TrialResult(booked.(unserved := booked.unserved + if e.Some? && target.None? then 1 else 0),
                0, map[], 0, map[], false, target,
                if target.Some? then Final(p, target, e, target.value).response else NO_RESPONSE)
  }

  /** The result of one trial. */
  function TrialOutcome(p: Plan, absent: set<Id>, e: Option<Event>): TrialResult
    requires ValidPlan(p)
  {
    var target := Responder(p, absent, e);
    assert target.Some? ==> target.value in p.world.technicians by {
      if e.Some? {
        ResponderIsBest(p, absent, e.value);
      }
    }
    Collect(p, absent, target, e, Opening(p, absent, target, e), |p.roster|)
  }

  // ----- the trial as the program runs it -----

  /** `deterministic_candidate_projection`: the planned end of the route after the emergency. */
  method CandidateProjection(w: World, s: RouteState, e: Event) returns (finish: int, terminal: int)
    requires Fits(w, s)
    ensures finish == EmergencyFinish(w, s, e)
    ensures terminal == PlannedEnd(w, s.tech, s.next, EmergencyFinish(w, s, e), e.place)
  {
    var depart := Max(s.current, e.time);
    finish := depart + w.travel(s.location, e.place) + e.duration;
    var current, location := finish, e.place;
    var route := RouteFor(w, s.tech);
    for k := s.next to |route|
      invariant PlannedEnd(w, s.tech, k, current, location)
             == PlannedEnd(w, s.tech, s.next, EmergencyFinish(w, s, e), e.place)
    {
      var a := route[k];
      var o := w.orders[a.orderId];
      var arrival := current + w.travel(location, o.location);
      var start := Max(arrival, ReadyAt(o));
      if w.follow {
        start := Max(start, a.start);
      }
      current, location := start + o.duration, o.location;
    }
    terminal := current + w.travel(location, Terminal(w, s.tech));
  }

  /** One turn of the loop over the technicians: skip, or project and offer. */
  method Consider(p: Plan, absent: set<Id>, e: Event, t: Id) returns (choice: Option<Choice>)
    requires ValidPlan(p) && t in p.world.technicians
    ensures choice == if Qualifies(p.world, absent, e, t)
                      then Some(Choice(EmergencyFinish(p.world, Projection(p.world, t, e), e), t)) else None
  {
    hide NewState, ProjectFrom, PlannedEnd, EmergencyFinish;
    if t in absent || e.skill !in p.world.technicians[t].skills {
      return None;
    }
    var state := new RiskRouteState(p.world, t);
    FreshStateFits(p.world, t);
    state.Project(p.world, e);
    ghost var projected := Projection(p.world, t, e);
    assert state.View() == projected && projected.tech == t;
    var finish, terminal := CandidateProjection(p.world, state.View(), e);
    if terminal <= p.world.technicians[t].shiftEnd + p.world.technicians[t].overtimeLimit {
      return Some(Choice(finish, t));
    }
    return None;
  }

  lemma FreshStateFits(w: World, t: Id)
    requires WellFormed(w) && t in w.technicians
    ensures Fits(w, NewState(w, t)) && NewState(w, t).tech == t
  {
  }

  method ChooseResponder(p: Plan, absent: set<Id>, e: Event) returns (target: Option<Id>)
    requires ValidPlan(p)
    ensures target == Responder(p, absent, Some(e))
  {
    hide Qualifies, EmergencyFinish, Projection;
    var choices: seq<Choice> := [];
    for i := 0 to |p.roster|
      invariant choices == Candidates(p, absent, e, i)
    {
      var choice := Consider(p, absent, e, p.roster[i]);
      if choice.Some? {
        choices := choices + [choice.value];
      }
    }
    if choices == [] {
      return None;
    }
    var best := Earliest(choices);
    target := Some(best.tech);
  }

  method Earliest(choices: seq<Choice>) returns (best: Choice)
    requires choices != []
    ensures best == Soonest(choices)
  {
    best := choices[0];
    for i := 1 to |choices|
      invariant best == Soonest(choices[..i])
    {
      assert choices[..i + 1][..i] == choices[..i];
      if !Sooner(best, choices[i]) {
        best := choices[i];
      }
    }
    assert choices[..|choices|] == choices;
  }

  /** The technicians among the first n who are not absent. */
  function Present(p: Plan, absent: set<Id>, n: nat): set<Id>
    requires n <= |p.roster|
  {
    if n == 0 then {}
    else Present(p, absent, n - 1) + if p.roster[n - 1] in absent then {} else {p.roster[n - 1]}
  }

  lemma {:induction false} PresentMembers(p: Plan, absent: set<Id>, n: nat, t: Id)
    requires n <= |p.roster|
    ensures t in Present(p, absent, n) <==> t !in absent && exists i :: 0 <= i < n && p.roster[i] == t
  {
    if n > 0 {
      PresentMembers(p, absent, n - 1, t);
    }
  }

  ghost predicate Unshared(states: map<Id, RiskRouteState>) {
    forall t, t' :: t in states && t' in states && t != t' ==> states[t] != states[t']
  }

  /** One mutable state per present technician, no two shared. */
  ghost predicate OwnStates(p: Plan, absent: set<Id>, states: map<Id, RiskRouteState>) {
    Unshared(states) && forall t :: t in states <==> t in p.world.technicians && t !in absent
  }

  method OpenStates(p: Plan, absent: set<Id>) returns (states: map<Id, RiskRouteState>, booked: Tally)
    requires ValidPlan(p)
    ensures OwnStates(p, absent, states) && booked == Booked(p, absent, |p.roster|)
    ensures forall t :: t in states ==> fresh(states[t])
    ensures forall t :: t in states ==> t in p.world.technicians && states[t].View() == NewState(p.world, t)
  {
    hide NewState, Merge, AbsentTally, UnassignedTally, WellFormed;
    states, booked := map[], UnassignedTally(p.unassigned);
    for i := 0 to |p.roster|
      invariant states.Keys == Present(p, absent, i) && Unshared(states) && booked == Booked(p, absent, i)
      invariant forall t :: t in states ==> fresh(states[t])
      invariant forall t :: t in states ==> t in p.world.technicians && states[t].View() == NewState(p.world, t)
    {
      var t := p.roster[i];
      if t in absent {
        booked := Merge(booked, AbsentTally(t, RouteFor(p.world, t)));
      } else {
        var state := new RiskRouteState(p.world, t);
        states := states[t := state];
      }
    }
    forall t ensures t in states <==> t in p.world.technicians && t !in absent {
      PresentMembers(p, absent, |p.roster|, t);
    }
  }

  /** What a state must hold when the last loop begins. */
  function Before(p: Plan, target: Option<Id>, e: Option<Event>, t: Id): RouteState
    requires ValidPlan(p) && t in p.world.technicians
  {
    if target == Some(t) then Final(p, target, e, t) else NewState(p.world, t)
  }

  /** Finishes one route unless it already responded. */
  method FinishOne(p: Plan, target: Option<Id>, e: Option<Event>, t: Id, state: RiskRouteState)
    requires ValidPlan(p) && t in p.world.technicians && (target.Some? ==> e.Some?)
    requires state.View() == Before(p, target, e, t)
    modifies state
    ensures state.View() == Final(p, target, e, t)
  {
    hide FinishRoute, NewState;
    FreshStateFits(p.world, t);
    if target != Some(t) {
      state.FinishRoute(p.world);
    }
  }

  /** Finishes every route that did not respond and merges all books. */
  method FinishAll(p: Plan, absent: set<Id>, target: Option<Id>, e: Option<Event>, states: map<Id, RiskRouteState>,
                   opening: TrialResult) returns (r: TrialResult)
    requires ValidPlan(p) && OwnStates(p, absent, states) && (target.Some? ==> e.Some?)
    requires forall t :: t in states ==> t in p.world.technicians && states[t].View() == Before(p, target, e, t)
    modifies states.Values
    ensures r == Collect(p, absent, target, e, opening, |p.roster|)
  {
    hide Final, NewState, AddRoute, Before, WellFormed;
    r := opening;
    for i := 0 to |p.roster|
      invariant r == Collect(p, absent, target, e, opening, i)
      invariant forall j :: i <= j < |p.roster| && p.roster[j] in states ==>
        states[p.roster[j]].View() == Before(p, target, e, p.roster[j])
    {
      var t := p.roster[i];
      if t !in absent {
        FinalKeepsTech(p, target, e, t);
        var state := states[t];
        FinishOne(p, target, e, t, state);
        r := AddRoute(p, r, state.View());
      }
    }
  }

  /** Checkpoint, emergency, rest of the route: the selected technician's whole trial. */
  method DispatchSelected(w: World, t: Id, e: Event, state: RiskRouteState)
    requires WellFormed(w) && t in w.technicians && state.View() == NewState(w, t)
    modifies state
    ensures state.View() == Respond(w, t, e)
  {
    hide ToCheckpoint, NewState, FinishRoute;
    FreshStateFits(w, t);
    state.AdvanceToDispatchCheckpoint(w, e);
    var _ := state.ApplyEmergency(w, e);
    state.FinishRoute(w);
  }

  method RunTrial(p: Plan, absent: set<Id>, e: Option<Event>) returns (r: TrialResult)
    requires ValidPlan(p)
    ensures r == TrialOutcome(p, absent, e)
  {
    hide Respond, NewState, FinishRoute, Collect, Booked, WellFormed, Candidates;
    var states, booked := OpenStates(p, absent);
    var target: Option<Id> := None;
    var response := NO_RESPONSE;
    if e.Some? {
      target := ChooseResponder(p, absent, e.value);
      ResponderIsBest(p, absent, e.value);
      if target.Some? {
        var selected := states[target.value];
        DispatchSelected(p.world, target.value, e.value, selected);
        response := selected.response;
      } else {
        booked := booked.(unserved := booked.unserved + 1);
      }
    }
    var opening := TrialResult(booked, 0, map[], 0, map[], false, target, response);
    r := FinishAll(p, absent, target, e, states, opening);
  }
}
