/**
  The responder is chosen from history alone: two sets of draws that agree on
  everything observable by the time of the event give the same projections, the
  same qualified technicians and the same choice, whatever comes later.
 */
module NonAnticipation {
  import opened Domain
  import opened Risk
  import opened RiskTimeline
  import opened Trial

  /** What is known about a visit at an instant: reached, begun, and over with which result. */
  datatype Observation = Observation(reached: bool, begun: Option<int>, over: Option<(int, bool)>)

  function Observed(m: Timing, now: int): Observation {
    Observation(m.arrival < now,
                if m.start <= now then Some(m.start) else None,
                if m.finish <= now then Some((m.finish, m.noShow)) else None)
  }

  /** The same trial under other draws. */
  ghost predicate OtherDraws(w: World, v: World) {
    v == w.(draws := v.draws)
  }

  /** Everything observable on the route of `t` by `now` is the same under both draws. */
  ghost predicate SameHistory(w: World, v: World, t: Id, now: int)
    requires OtherDraws(w, v) && WellFormed(w) && t in w.technicians && WellFormed(v)
  {
    forall k :: 0 <= k < Visits(w, t) ==>
      Observed(Moment(w, NewState(w, t), k), now) == Observed(Moment(v, NewState(v, t), k), now)
  }

  /** One visit of the projection: each branch is decided by what is observed. */
  lemma StepAgrees(w: World, v: World, s: RouteState, e: Event)
    requires OtherDraws(w, v) && Fits(w, s) && Fits(v, s) && s.next < Visits(w, s.tech)
    requires var a := RouteFor(w, s.tech)[s.next];
             Observed(OrderTiming(w, s, a), e.time) == Observed(OrderTiming(v, s, a), e.time)
    ensures var m := OrderTiming(w, s, RouteFor(w, s.tech)[s.next]);
            if e.time > s.current && m.finish <= e.time then
              && Serve(w, s) == Serve(v, s)
              && ProjectFrom(w, s, e) == ProjectFrom(w, Serve(w, s), e)
              && ProjectFrom(v, s, e) == ProjectFrom(v, Serve(v, s), e)
            else ProjectFrom(w, s, e) == ProjectFrom(v, s, e)
  {
    hide OrderTiming, Record;
  }

  lemma EndAgrees(w: World, v: World, s: RouteState, e: Event)
    requires OtherDraws(w, v) && Fits(w, s) && Fits(v, s) && s.next == Visits(w, s.tech)
    ensures ProjectFrom(w, s, e) == ProjectFrom(v, s, e)
  {
    hide OrderTiming, Record;
  }

  /** From a common state the projections agree. */
  lemma {:induction false} ProjectAgrees(w: World, v: World, t: Id, e: Event, k: nat)
    requires OtherDraws(w, v) && WellFormed(w) && WellFormed(v) && t in w.technicians && k <= Visits(w, t)
    requires SameHistory(w, v, t, e.time)
    requires After(w, NewState(w, t), k) == After(v, NewState(v, t), k)
    ensures ProjectFrom(w, After(w, NewState(w, t), k), e) == ProjectFrom(v, After(v, NewState(v, t), k), e)
    decreases Visits(w, t) - k
  {
    hide OrderTiming, Record, Serve, After, Moment, NewState, ProjectFrom, WellFormed;
    NewFits(w, t);
    NewFits(v, t);
    var s := After(w, NewState(w, t), k);
    if k == Visits(w, t) {
      EndAgrees(w, v, s, e);
    } else {
      var m, n := Moment(w, NewState(w, t), k), Moment(v, NewState(v, t), k);
      assert Observed(m, e.time) == Observed(n, e.time);
      AfterOneMore(w, NewState(w, t), k);
      AfterOneMore(v, NewState(v, t), k);
      StepAgrees(w, v, s, e);
      if e.time > s.current && m.finish <= e.time {
        ProjectAgrees(w, v, t, e, k + 1);
      }
    }
  }

  lemma ProjectionAgrees(w: World, v: World, t: Id, e: Event)
    requires OtherDraws(w, v) && WellFormed(w) && WellFormed(v) && t in w.technicians && SameHistory(w, v, t, e.time)
    ensures Projection(w, t, e) == Projection(v, t, e)
  {
    ProjectAgrees(w, v, t, e, 0);
  }

  /** The planned rest of a route reads no draw at all. */
  lemma {:induction false} PlannedEndIsDeterministic(w: World, v: World, t: Id, k: nat, now: int, at: Point)
    requires OtherDraws(w, v) && WellFormed(w) && WellFormed(v) && t in w.technicians && k <= Visits(w, t)
    ensures PlannedEnd(w, t, k, now, at) == PlannedEnd(v, t, k, now, at)
    decreases Visits(w, t) - k
  {
    if k < Visits(w, t) {
      var a := RouteFor(w, t)[k];
      var o := w.orders[a.orderId];
      PlannedEndIsDeterministic(w, v, t, k + 1, StartFrom(w, a, o, now + w.travel(at, o.location)) + o.duration, o.location);
    }
  }

  lemma QualificationAgrees(w: World, v: World, absent: set<Id>, t: Id, e: Event)
    requires OtherDraws(w, v) && WellFormed(w) && WellFormed(v) && t in w.technicians
    requires t !in absent ==> SameHistory(w, v, t, e.time)
    ensures Qualifies(w, absent, e, t) == Qualifies(v, absent, e, t)
    ensures t !in absent ==> EmergencyFinish(w, Projection(w, t, e), e) == EmergencyFinish(v, Projection(v, t, e), e)
  {
    hide NewState, ProjectFrom, PlannedEnd;
    if t !in absent {
      ProjectionAgrees(w, v, t, e);
      var s := Projection(w, t, e);
      assert Fits(w, NewState(w, t)) && NewState(w, t).tech == t by {
        FreshStateFits(w, t);
      }
      assert Fits(w, s) && s.tech == t;
      PlannedEndIsDeterministic(w, v, t, s.next, EmergencyFinish(w, s, e), e.place);
    }
  }

  lemma {:induction false} CandidatesAgree(p: Plan, q: Plan, absent: set<Id>, e: Event, n: nat)
    requires ValidPlan(p) && ValidPlan(q) && q == p.(world := q.world) && OtherDraws(p.world, q.world)
    requires forall t :: t in p.world.technicians && t !in absent ==> SameHistory(p.world, q.world, t, e.time)
    requires n <= |p.roster|
    ensures Candidates(p, absent, e, n) == Candidates(q, absent, e, n)
  {
    hide Qualifies, EmergencyFinish, Projection, SameHistory, WellFormed;
    if n > 0 {
      CandidatesAgree(p, q, absent, e, n - 1);
      var t := p.roster[n - 1];
      QualificationAgrees(p.world, q.world, absent, t, e);
      QualifiedIsPresent(p.world, absent, e, t);
    }
  }

  lemma QualifiedIsPresent(w: World, absent: set<Id>, e: Event, t: Id)
    requires WellFormed(w) && t in w.technicians
    ensures Qualifies(w, absent, e, t) ==> t !in absent
  {
  }

  /**
    Non-anticipation: draws that agree on the observed history of every present
    technician choose the same responder from the same candidates; no later
    closed door, duration or delay can tip the decision.
   */
  lemma ResponderIsNonAnticipating(p: Plan, q: Plan, absent: set<Id>, e: Event)
    requires ValidPlan(p) && ValidPlan(q) && q == p.(world := q.world) && OtherDraws(p.world, q.world)
    requires forall t :: t in p.world.technicians && t !in absent ==> SameHistory(p.world, q.world, t, e.time)
    ensures Responder(p, absent, Some(e)) == Responder(q, absent, Some(e))
    ensures Candidates(p, absent, e, |p.roster|) == Candidates(q, absent, e, |q.roster|)
    ensures forall t :: t in p.world.technicians && t !in absent ==> Projection(p.world, t, e) == Projection(q.world, t, e)
  {
    hide Qualifies, EmergencyFinish, Candidates, NewState, ProjectFrom;
    CandidatesAgree(p, q, absent, e, |p.roster|);
    forall t | t in p.world.technicians && t !in absent ensures Projection(p.world, t, e) == Projection(q.world, t, e) {
      ProjectionAgrees(p.world, q.world, t, e);
    }
  }
}
