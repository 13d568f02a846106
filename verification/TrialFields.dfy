/**
  What single fields of a trial say: the times of one visit, and the overtime
  of the technicians with its breaches.
 */
module TrialFields {
  import opened Domain
  import opened Risk
  import opened RiskTimeline
  import opened Trial
  import opened TrialPairs
  import opened RiskCoupling
  import opened EmergencyDelay

  // ----- one visit -----

  /**
    The service starts once the technician is there, the window open, the order
    reported and, if so ordered, the published start reached.
   */
  ghost predicate StartsWhenAllowed(w: World, a: Assignment, o: WorkOrder, m: Timing) {
    && m.arrival <= m.start && o.windowStart <= m.start && (o.reportedAt.Some? ==> o.reportedAt.value <= m.start)
    && (w.follow ==> a.start <= m.start)
    && (m.start == m.arrival || m.start == o.windowStart || o.reportedAt == Some(m.start) || (w.follow && m.start == a.start))
  }

  /** Ten minutes at a closed door; otherwise the planned service, stretched or shortened by at most the jitter. */
  ghost predicate StaysAsDrawn(w: World, o: WorkOrder, m: Timing) {
    var stay := m.finish - m.start;
    && (m.noShow <==> NoShowOf(w, o.id))
    && (m.noShow ==> stay == 10)
    && (!m.noShow ==> stay >= 1 && (stay == 1 || o.duration * (100 - w.jitter) - 50 <= 100 * stay)
                      && (stay == 1 || 100 * stay <= o.duration * (100 + w.jitter) + 50))
  }

  /** The leg, delayed by at most the limit, unless the technician already waits at the door. */
  ghost predicate ArrivesAsDrawn(w: World, s: RouteState, o: WorkOrder, m: Timing) {
    var leg := w.travel(s.location, o.location);
    if s.ready == Some(s.next) then m.arrival == s.current
    else s.current + leg <= m.arrival <= s.current + leg + Worst(leg, w.delayMax)
  }

  lemma JitterBounds(duration: nat, jitter: nat, percent: int)
    requires jitter <= 100 && 100 - jitter <= percent <= 100 + jitter
    ensures var stay := (duration * percent + 50) / 100;
            duration * (100 - jitter) - 50 <= 100 * stay <= duration * (100 + jitter) + 50
  {
    assert duration * (100 - jitter) <= duration * percent <= duration * (100 + jitter);
  }

  /** The times of the next visit of any route state. */
  lemma VisitTimes(w: World, s: RouteState, a: Assignment)
    requires WellFormed(w) && a.orderId in w.orders
    ensures var o, m := w.orders[a.orderId], OrderTiming(w, s, a);
            ArrivesAsDrawn(w, s, o, m) && StartsWhenAllowed(w, a, o, m) && StaysAsDrawn(w, o, m)
  {
    var o := w.orders[a.orderId];
    var draw := KeyedDraw(w.draws, ServiceDraw(o.id), 2 * w.jitter + 1);
    JitterBounds(o.duration, w.jitter, 100 - w.jitter + draw);
    hide KeyedDraw;
    DelayBounds(w.travel(s.location, o.location), KeyedDraw(w.draws, TravelDraw(s.predecessor, o.id), w.delayMax + 1),
                w.delayMax);
    hide Delayed, Worst;
  }

  /** Basis points: at nothing every door opens, at ten thousand none does. */
  lemma NoShowLimits(w: World, id: Id)
    ensures w.noShow == 0 ==> !NoShowOf(w, id)
    ensures w.noShow >= 10000 ==> NoShowOf(w, id)
  {
  }

  // ----- overtime -----

  /** Overtime is the time after the end of the shift, and a failure exactly past the limit. */
  ghost predicate ProperOvertime(w: World, s: RouteState)
    requires s.tech in w.technicians
  {
    var t := w.technicians[s.tech];
    && s.totalOvertime >= 0
    && (s.overtimeFailure <==> s.totalOvertime > t.overtimeLimit)
    && (if s.returned then (if s.current > t.shiftEnd then s.totalOvertime == s.current - t.shiftEnd else s.totalOvertime == 0)
        else s.totalOvertime == 0)
  }

  lemma FinishedOvertime(w: World, s: RouteState)
    requires Fits(w, s) && !s.returned && s.totalOvertime == 0 && !s.overtimeFailure
    ensures ProperOvertime(w, FinishRoute(w, s))
  {
    hide ServeAll, ReturnFinish;
    ServeAllKeeps(w, s);
  }

  lemma RespondedOvertime(w: World, t: Id, e: Event)
    requires WellFormed(w) && t in w.technicians
    ensures Respond(w, t, e).returned && ProperOvertime(w, Respond(w, t, e))
  {
    hide ToCheckpoint, ApplyEmergency, NewState, ServeAll, ReturnFinish;
    NewFits(w, t);
    var y := ApplyEmergency(w, ToCheckpoint(w, NewState(w, t), e), e);
    EmergencyTakesTime(w, ToCheckpoint(w, NewState(w, t), e), e);
    assert Fits(w, y);
    ServeAllKeeps(w, y);
  }

  lemma FinalOvertime(p: Plan, target: Option<Id>, e: Option<Event>, t: Id)
    requires ValidPlan(p) && t in p.world.technicians
    ensures Final(p, target, e, t).tech == t && ProperOvertime(p.world, Final(p, target, e, t))
  {
    hide FinishRoute, Respond, NewState, ProperOvertime;
    FinalKeepsTech(p, target, e, t);
    if e.Some? && target == Some(t) {
      RespondedOvertime(p.world, t, e.value);
    } else {
      NewIsFresh(p.world, t);
      FinishedOvertime(p.world, NewState(p.world, t));
    }
  }

  lemma NewIsFresh(w: World, t: Id)
    requires WellFormed(w) && t in w.technicians
    ensures var s := NewState(w, t); Fits(w, s) && !s.returned && s.totalOvertime == 0 && !s.overtimeFailure
  {
  }

  function OvertimeOf(overtime: map<Id, int>, ids: seq<Id>): int {
    if ids == [] then 0
    else OvertimeOf(overtime, ids[..|ids| - 1]) + if ids[|ids| - 1] in overtime then overtime[ids[|ids| - 1]] else 0
  }

  /** The overtime of each technician who came, a breach exactly past their limit, and the totals over all. */
  ghost predicate OvertimeAddsUp(p: Plan, r: TrialResult, ids: seq<Id>, present: set<Id>) {
    && r.overtime.Keys == present && r.breaches.Keys == present
    && (forall t :: t in present ==> t in p.world.technicians && r.overtime[t] >= 0
                                     && (r.breaches[t] <==> r.overtime[t] > p.world.technicians[t].overtimeLimit))
    && r.totalOvertime == OvertimeOf(r.overtime, ids)
    && (r.overtimeFailure <==> exists t :: t in present && r.breaches[t])
  }

  lemma {:induction false} OvertimeSkips(overtime: map<Id, int>, ids: seq<Id>, t: Id, x: int)
    requires t !in ids
    ensures OvertimeOf(overtime[t := x], ids) == OvertimeOf(overtime, ids)
  {
    if ids != [] {
      OvertimeSkips(overtime, ids[..|ids| - 1], t, x);
    }
  }

  lemma OvertimeGrows(p: Plan, r: TrialResult, ids: seq<Id>, present: set<Id>, s: RouteState)
    requires OvertimeAddsUp(p, r, ids, present) && s.tech in p.world.technicians && ProperOvertime(p.world, s)
    requires s.tech !in ids && s.tech !in present
    ensures OvertimeAddsUp(p, AddRoute(p, r, s), ids + [s.tech], present + {s.tech})
  {
    var after := AddRoute(p, r, s);
    AddedOvertime(p, r, s);
    hide AddRoute;
    OvertimeSkips(r.overtime, ids, s.tech, s.totalOvertime);
    assert (ids + [s.tech])[..|ids|] == ids;
    hide OvertimeOf;
    assert after.breaches[s.tech] <==> s.overtimeFailure;
    BreachGrows(r.breaches, present, s.tech, s.overtimeFailure);
  }

  lemma AddedOvertime(p: Plan, r: TrialResult, s: RouteState)
    requires s.tech in p.world.technicians
    ensures var after := AddRoute(p, r, s);
            && after.overtime == r.overtime[s.tech := s.totalOvertime]
            && after.totalOvertime == r.totalOvertime + s.totalOvertime
            && after.breaches == r.breaches[s.tech := s.totalOvertime > p.world.technicians[s.tech].overtimeLimit]
            && (after.overtimeFailure <==> r.overtimeFailure || s.overtimeFailure)
  {
    hide Merge;
  }

  lemma BreachGrows(breaches: map<Id, bool>, present: set<Id>, t: Id, breach: bool)
    requires breaches.Keys == present && t !in present
    ensures var after := breaches[t := breach];
            (exists x :: x in present + {t} && after[x]) <==> (exists x :: x in present && breaches[x]) || breach
  {
    var after := breaches[t := breach];
    assert forall x :: x in present ==> after[x] == breaches[x];
    if x :| x in present && breaches[x] {
      assert after[x];
    }
    assert after[t] == breach;
  }

  lemma OvertimeWaits(p: Plan, r: TrialResult, ids: seq<Id>, present: set<Id>, t: Id)
    requires OvertimeAddsUp(p, r, ids, present) && t !in present
    ensures OvertimeAddsUp(p, r, ids + [t], present)
  {
    assert (ids + [t])[..|ids|] == ids;
  }

  lemma {:induction false} CollectOvertimeAddsUp(p: Plan, absent: set<Id>, target: Option<Id>, e: Option<Event>,
                                                 start: TrialResult, n: nat)
    requires ValidPlan(p) && n <= |p.roster|
    requires start.overtime == map[] && start.breaches == map[] && start.totalOvertime == 0 && !start.overtimeFailure
    ensures OvertimeAddsUp(p, Collect(p, absent, target, e, start, n), p.roster[..n], Present(p, absent, n))
  {
    hide Final, AddRoute, Collect, OvertimeAddsUp, ProperOvertime, ValidPlan;
    if n == 0 {
      CollectNone(p, absent, target, e, start);
      NoOvertime(p, start);
      assert p.roster[..0] == [];
    } else {
      var t := p.roster[n - 1];
      CollectOvertimeAddsUp(p, absent, target, e, start, n - 1);
      CollectStep(p, absent, target, e, start, n);
      RosterIsNew(p, absent, n - 1);
      assert p.roster[..n] == p.roster[..n - 1] + [t];
      if t in absent {
        OvertimeWaits(p, Collect(p, absent, target, e, start, n - 1), p.roster[..n - 1], Present(p, absent, n - 1), t);
        assert Present(p, absent, n) == Present(p, absent, n - 1);
      } else {
        FinalOvertime(p, target, e, t);
        OvertimeGrows(p, Collect(p, absent, target, e, start, n - 1), p.roster[..n - 1], Present(p, absent, n - 1),
                      Final(p, target, e, t));
      }
    }
  }

  lemma NoOvertime(p: Plan, r: TrialResult)
    requires r.overtime == map[] && r.breaches == map[] && r.totalOvertime == 0 && !r.overtimeFailure
    ensures OvertimeAddsUp(p, r, [], {})
  {
  }

  lemma RosterIsNew(p: Plan, absent: set<Id>, n: nat)
    requires ValidPlan(p) && n < |p.roster|
    ensures p.roster[n] !in p.roster[..n] && p.roster[n] !in Present(p, absent, n)
  {
    PresentMembers(p, absent, n, p.roster[n]);
    forall i | 0 <= i < n ensures p.roster[i] != p.roster[n] {
      RosterApart(p, i, n);
    }
  }

  /** The overtime figures of every trial, with and without an emergency. */
  lemma TrialOvertime(p: Plan, absent: set<Id>, e: Option<Event>)
    requires ValidPlan(p)
    ensures OvertimeAddsUp(p, TrialOutcome(p, absent, e), p.roster, Present(p, absent, |p.roster|))
  {
    hide Collect, Booked, OvertimeAddsUp, Final, Present, Candidates;
    var target := Responder(p, absent, e);
    if e.Some? {
      ResponderIsBest(p, absent, e.value);
    }
    assert p.roster[..|p.roster|] == p.roster;
    CollectOvertimeAddsUp(p, absent, target, e, Opening(p, absent, target, e), |p.roster|);
  }
}
