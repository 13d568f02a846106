/**
  Conservation in a trial: every planned order ends with exactly one outcome,
  and every counter equals what the outcomes say.
 */
module TrialBooks {
  import opened Domain
  import opened Risk
  import opened Trial

  // ----- counting outcomes -----

  function OfKind(m: map<Id, Outcome>, k: Disposition): set<Id> {
    set id | id in m && m[id].disposition == k
  }

  predicate Unserved(x: Outcome) {
    x.disposition.NoShowUnserved? || x.disposition.AbsenceUnserved? || x.disposition.PlanUnserved?
  }

  function UnservedIds(m: map<Id, Outcome>): set<Id> {
    set id | id in m && Unserved(m[id])
  }

  function LateOf(x: Outcome): int {
    if x.late.Some? then x.late.value else 0
  }

  ghost function LateTotal(m: map<Id, Outcome>): int
    decreases |m|
  {
    if m == map[] then 0
    else
      var id :| id in m;
      LateOf(m[id]) + LateTotal(m - {id})
  }

  /** The total does not depend on the order in which the outcomes are added up. */
  lemma {:induction false} LateTotalSplit(m: map<Id, Outcome>, id: Id)
    requires id in m
    ensures LateTotal(m) == LateOf(m[id]) + LateTotal(m - {id})
    decreases |m|
  {
    var first :| first in m && LateTotal(m) == LateOf(m[first]) + LateTotal(m - {first});
    if first != id {
      LateTotalSplit(m - {first}, id);
      LateTotalSplit(m - {id}, first);
      assert m - {first} - {id} == m - {id} - {first};
    }
  }

  lemma UnionMinus(a: map<Id, Outcome>, b: map<Id, Outcome>, id: Id)
    requires id !in a
    ensures (a + b) - {id} == a + (b - {id})
  {
  }

  lemma {:induction false} LateTotalUnion(a: map<Id, Outcome>, b: map<Id, Outcome>)
    requires a.Keys * b.Keys == {}
    ensures LateTotal(a + b) == LateTotal(a) + LateTotal(b)
    decreases |b|
  {
    hide LateTotal;
    if b == map[] {
      assert a + b == a;
      assert LateTotal(b) == 0 by {
        LateTotalEmpty();
      }
    } else {
      var id :| id in b;
      assert id !in a.Keys * b.Keys;
      LateTotalSplit(b, id);
      LateTotalSplit(a + b, id);
      UnionMinus(a, b, id);
      LateTotalUnion(a, b - {id});
    }
  }

  lemma LateTotalEmpty()
    ensures LateTotal(map[]) == 0
  {
  }

  predicate Plausible(x: Outcome) {
    match x.disposition
    case OnTime => x.late == Some(0)
    case Late => x.late.Some? && x.late.value > 0
    case _ => x.late == None
  }

  /** The counters say exactly what the outcomes say. */
  ghost predicate Balanced(y: Tally) {
    && (forall id :: id in y.outcomes ==> Plausible(y.outcomes[id]))
    && y.windowViolations.Keys <= y.outcomes.Keys
    && y.onTime == |OfKind(y.outcomes, OnTime)|
    && y.unserved == |UnservedIds(y.outcomes)|
    && y.totalLate == LateTotal(y.outcomes)
    && (y.noShowFailure <==> OfKind(y.outcomes, NoShowUnserved) != {})
    && (y.windowFailure <==> exists id :: id in y.windowViolations && y.windowViolations[id])
  }

  lemma {:induction false} SetSizes(a: set<Id>, b: set<Id>)
    requires a * b == {}
    ensures |a + b| == |a| + |b|
  {
  }

  lemma UnionCounts(a: map<Id, Outcome>, b: map<Id, Outcome>)
    requires a.Keys * b.Keys == {}
    ensures |OfKind(a + b, OnTime)| == |OfKind(a, OnTime)| + |OfKind(b, OnTime)|
    ensures |UnservedIds(a + b)| == |UnservedIds(a)| + |UnservedIds(b)|
    ensures OfKind(a + b, NoShowUnserved) == {} <==> OfKind(a, NoShowUnserved) == {} && OfKind(b, NoShowUnserved) == {}
  {
    UnionKind(a, b, OnTime);
    UnionKind(a, b, NoShowUnserved);
    UnionUnserved(a, b);
    DisjointParts(OfKind(a, OnTime), OfKind(b, OnTime), a.Keys, b.Keys);
    DisjointParts(UnservedIds(a), UnservedIds(b), a.Keys, b.Keys);
  }

  lemma DisjointParts(x: set<Id>, y: set<Id>, a: set<Id>, b: set<Id>)
    requires x <= a && y <= b && a * b == {}
    ensures |x + y| == |x| + |y|
  {
    assert x * y <= a * b;
    SetSizes(x, y);
  }

  lemma UnionKind(a: map<Id, Outcome>, b: map<Id, Outcome>, k: Disposition)
    requires a.Keys * b.Keys == {}
    ensures OfKind(a + b, k) == OfKind(a, k) + OfKind(b, k)
  {
    forall id ensures id in OfKind(a + b, k) <==> id in OfKind(a, k) || id in OfKind(b, k) {
      assert id !in a.Keys * b.Keys;
    }
  }

  lemma UnionUnserved(a: map<Id, Outcome>, b: map<Id, Outcome>)
    requires a.Keys * b.Keys == {}
    ensures UnservedIds(a + b) == UnservedIds(a) + UnservedIds(b)
  {
    forall id ensures id in UnservedIds(a + b) <==> id in UnservedIds(a) || id in UnservedIds(b) {
      assert id !in a.Keys * b.Keys;
    }
  }

  /** Books over different orders can be added up. */
  lemma MergeBalanced(a: Tally, b: Tally)
    requires Balanced(a) && Balanced(b) && a.outcomes.Keys * b.outcomes.Keys == {}
    ensures Balanced(Merge(a, b)) && Merge(a, b).outcomes.Keys == a.outcomes.Keys + b.outcomes.Keys
  {
    hide OfKind, UnservedIds, LateTotal, Plausible;
    UnionCounts(a.outcomes, b.outcomes);
    LateTotalUnion(a.outcomes, b.outcomes);
    MergedWindows(a, b);
    MergedOutcomes(a, b);
  }

  lemma MergedOutcomes(a: Tally, b: Tally)
    requires Balanced(a) && Balanced(b)
    ensures var y := Merge(a, b);
            && (forall id :: id in y.outcomes ==> Plausible(y.outcomes[id]))
            && y.windowViolations.Keys <= y.outcomes.Keys
            && y.outcomes.Keys == a.outcomes.Keys + b.outcomes.Keys
  {
    hide OfKind, UnservedIds, LateTotal, Plausible;
  }

  lemma MergedWindows(a: Tally, b: Tally)
    requires a.windowViolations.Keys <= a.outcomes.Keys && b.windowViolations.Keys <= b.outcomes.Keys
    requires a.outcomes.Keys * b.outcomes.Keys == {}
    ensures var v := a.windowViolations + b.windowViolations;
            (exists id :: id in v && v[id]) <==>
              (exists id :: id in a.windowViolations && a.windowViolations[id])
              || (exists id :: id in b.windowViolations && b.windowViolations[id])
  {
    var v := a.windowViolations + b.windowViolations;
    forall id ensures id !in a.windowViolations || id !in b.windowViolations {
      assert id !in a.outcomes.Keys * b.outcomes.Keys;
    }
    if id :| id in a.windowViolations && a.windowViolations[id] {
      assert id in v && v[id];
    }
    if id :| id in b.windowViolations && b.windowViolations[id] {
      assert id in v && v[id];
    }
  }

  // ----- the books of one visit and one route -----

  /** One visit alone. */
  function Single(tech: Id, o: WorkOrder, start: int, finish: int, noShow: bool): Tally {
    Record(EMPTY_TALLY, tech, o, start, finish, noShow)
  }

  lemma SingleBalanced(tech: Id, o: WorkOrder, start: int, finish: int, noShow: bool)
    ensures Balanced(Single(tech, o, start, finish, noShow))
    ensures Single(tech, o, start, finish, noShow).outcomes.Keys == {o.id}
    ensures var x := Single(tech, o, start, finish, noShow).outcomes[o.id];
            (x.disposition.NoShowUnserved? <==> noShow) && !x.disposition.AbsenceUnserved? && !x.disposition.PlanUnserved?
  {
    var y := Single(tech, o, start, finish, noShow);
    var x := y.outcomes[o.id];
    assert y.outcomes == map[o.id := x];
    LateTotalSplit(y.outcomes, o.id);
    assert y.outcomes - {o.id} == map[];
    assert OfKind(y.outcomes, OnTime) == if x.disposition.OnTime? then {o.id} else {};
    assert UnservedIds(y.outcomes) == if Unserved(x) then {o.id} else {};
    assert OfKind(y.outcomes, NoShowUnserved) == if x.disposition.NoShowUnserved? then {o.id} else {};
    assert o.id in y.windowViolations;
  }

  lemma RecordIsMerge(y: Tally, tech: Id, o: WorkOrder, start: int, finish: int, noShow: bool)
    ensures Record(y, tech, o, start, finish, noShow) == Merge(y, Single(tech, o, start, finish, noShow))
  {
    var one := Single(tech, o, start, finish, noShow);
    assert forall x :: y.outcomes[o.id := x] == y.outcomes + map[o.id := x];
    assert forall v :: y.windowViolations[o.id := v] == y.windowViolations + map[o.id := v];
    assert one.outcomes == map[o.id := one.outcomes[o.id]];
    assert one.windowViolations == map[o.id := one.windowViolations[o.id]];
  }

  ghost predicate OnceEach(r: seq<Assignment>) {
    forall i, j :: 0 <= i < j < |r| ==> r[i].orderId != r[j].orderId
  }

  /** Served visits fail exactly when the customer is drawn absent. */
  ghost predicate InLine(w: World, y: Tally) {
    forall id :: id in y.outcomes ==>
      (y.outcomes[id].disposition.NoShowUnserved? <==> NoShowOf(w, id))
      && !y.outcomes[id].disposition.AbsenceUnserved? && !y.outcomes[id].disposition.PlanUnserved?
  }

  /** The books of a route state cover exactly the visits it has served. */
  ghost predicate BooksKept(w: World, s: RouteState)
    requires Fits(w, s)
  {
    && Balanced(s.tally)
    && s.tally.outcomes.Keys == VisitIds(RouteFor(w, s.tech)[..s.next])
    && InLine(w, s.tally)
  }

  lemma VisitIdsSnoc(r: seq<Assignment>, k: nat)
    requires k < |r| && OnceEach(r)
    ensures VisitIds(r[..k + 1]) == VisitIds(r[..k]) + {r[k].orderId}
    ensures r[k].orderId !in VisitIds(r[..k])
  {
    assert r[..k + 1] == r[..k] + [r[k]];
    assert forall a :: a in r[..k + 1] <==> a in r[..k] || a == r[k];
  }

  /** Moving a state without serving anyone does not touch its books. */
  lemma MovedKeepsBooks(w: World, s: RouteState, r: RouteState)
    requires Fits(w, s) && BooksKept(w, s)
    requires r.tech == s.tech && r.next == s.next && r.tally == s.tally
    ensures Fits(w, r) && BooksKept(w, r)
  {
  }

  lemma ServedKeepsBooks(w: World, s: RouteState, t: Timing)
    requires Fits(w, s) && s.next < |RouteFor(w, s.tech)| && OnceEach(RouteFor(w, s.tech)) && BooksKept(w, s)
    requires t.noShow == NoShowOf(w, RouteFor(w, s.tech)[s.next].orderId)
    ensures var o := w.orders[RouteFor(w, s.tech)[s.next].orderId];
            var r := Complete(s, o, t.start, t.finish, t.noShow);
            Fits(w, r) && BooksKept(w, r)
  {
    hide Balanced, Record, Single, NoShowOf, OnceEach, VisitIds, Merge;
    var r := RouteFor(w, s.tech);
    var o := w.orders[r[s.next].orderId];
    assert o.id == r[s.next].orderId;
    VisitIdsSnoc(r, s.next);
    OneMoreVisit(w, s.tally, VisitIds(r[..s.next]), s.tech, o, t);
  }

  /** Recording one more visit keeps the books balanced and the no-shows in line with the draws. */
  lemma OneMoreVisit(w: World, y: Tally, served: set<Id>, tech: Id, o: WorkOrder, t: Timing)
    requires Balanced(y) && y.outcomes.Keys == served && o.id !in served && t.noShow == NoShowOf(w, o.id)
    requires InLine(w, y)
    ensures var z := Record(y, tech, o, t.start, t.finish, t.noShow);
            Balanced(z) && InLine(w, z) && z.outcomes.Keys == served + {o.id}
  {
    hide Balanced, Record, Single, NoShowOf, Merge, InLine;
    var one := Single(tech, o, t.start, t.finish, t.noShow);
    RecordIsMerge(y, tech, o, t.start, t.finish, t.noShow);
    SingleBalanced(tech, o, t.start, t.finish, t.noShow);
    MergeBalanced(y, one);
    SingleInLine(w, tech, o, t);
    MergeInLine(w, y, one);
  }

  lemma SingleInLine(w: World, tech: Id, o: WorkOrder, t: Timing)
    requires t.noShow == NoShowOf(w, o.id)
    ensures InLine(w, Single(tech, o, t.start, t.finish, t.noShow))
  {
    hide NoShowOf;
  }

  lemma MergeInLine(w: World, a: Tally, b: Tally)
    requires InLine(w, a) && InLine(w, b)
    ensures InLine(w, Merge(a, b))
  {
    hide NoShowOf;
  }

  lemma NewKeepsBooks(w: World, t: Id)
    requires WellFormed(w) && t in w.technicians
    ensures BooksKept(w, NewState(w, t))
  {
    assert RouteFor(w, t)[..0] == [];
  }

  lemma {:induction false} ServeAllKeepsBooks(w: World, s: RouteState)
    requires Fits(w, s) && OnceEach(RouteFor(w, s.tech)) && BooksKept(w, s)
    ensures BooksKept(w, ServeAll(w, s))
    decreases |RouteFor(w, s.tech)| - s.next
  {
    if s.next < |RouteFor(w, s.tech)| {
      var a := RouteFor(w, s.tech)[s.next];
      assert w.orders[a.orderId].id == a.orderId;
      ServedKeepsBooks(w, s, OrderTiming(w, s, a));
      ServeAllKeepsBooks(w, Serve(w, s));
    }
  }

  lemma FinishKeepsBooks(w: World, s: RouteState)
    requires Fits(w, s) && OnceEach(RouteFor(w, s.tech)) && BooksKept(w, s)
    ensures var r := FinishRoute(w, s);
            Fits(w, r) && BooksKept(w, r) && r.next == |RouteFor(w, s.tech)|
  {
    ServeAllKeepsBooks(w, s);
  }

  lemma {:induction false} CheckpointKeepsBooks(w: World, s: RouteState, e: Event)
    requires Fits(w, s) && OnceEach(RouteFor(w, s.tech)) && BooksKept(w, s)
    ensures BooksKept(w, ToCheckpoint(w, s, e))
    decreases |RouteFor(w, s.tech)| - s.next
  {
    hide BooksKept, OnceEach, Record, ReturnFinish, ArrivalAt, StartFrom, Stay, NoShowOf;
    if e.time > s.current && s.next < |RouteFor(w, s.tech)| {
      var a := RouteFor(w, s.tech)[s.next];
      var o, t := w.orders[a.orderId], OrderTiming(w, s, a);
      assert o.id == a.orderId;
      ServedKeepsBooks(w, s, t);
      if e.time > t.finish {
        CheckpointKeepsBooks(w, Complete(s, o, t.start, t.finish, t.noShow), e);
      } else if e.time <= t.arrival || e.time < t.start {
        MovedKeepsBooks(w, s, ToCheckpoint(w, s, e));
      }
    } else {
      MovedKeepsBooks(w, s, ToCheckpoint(w, s, e));
    }
  }

  lemma RespondKeepsBooks(w: World, t: Id, e: Event)
    requires WellFormed(w) && t in w.technicians && OnceEach(RouteFor(w, t))
    ensures var r := Respond(w, t, e);
            Fits(w, r) && r.tech == t && BooksKept(w, r) && r.next == |RouteFor(w, t)|
  {
    NewKeepsBooks(w, t);
    CheckpointKeepsBooks(w, NewState(w, t), e);
    FinishKeepsBooks(w, ApplyEmergency(w, ToCheckpoint(w, NewState(w, t), e), e));
  }

  /** Whatever happens on a route, all its visits are booked, once, and correctly. */
  lemma FinalBooks(p: Plan, target: Option<Id>, e: Option<Event>, t: Id)
    requires ValidPlan(p) && t in p.world.technicians && OnceEach(RouteFor(p.world, t))
    ensures var y := Final(p, target, e, t).tally;
            Balanced(y) && y.outcomes.Keys == VisitIds(RouteFor(p.world, t))
    ensures var y := Final(p, target, e, t).tally;
            forall id :: id in y.outcomes ==> (Unserved(y.outcomes[id]) <==> NoShowOf(p.world, id))
  {
    var w, r := p.world, RouteFor(p.world, t);
    if e.Some? && target == Some(t) {
      RespondKeepsBooks(w, t, e.value);
    } else {
      NewKeepsBooks(w, t);
      FinishKeepsBooks(w, NewState(w, t));
    }
    assert r[..|r|] == r;
  }

  // ----- the books of a trial -----

  function IdSet(ids: seq<Id>): set<Id> {
    set id | id in ids
  }

  /** No order is planned twice: neither on two routes, nor on a route and unassigned. */
  ghost predicate PlannedOnce(p: Plan) {
    && Distinct(p.unassigned)
    && (forall t :: t in p.world.technicians ==>
          OnceEach(RouteFor(p.world, t)) && VisitIds(RouteFor(p.world, t)) * IdSet(p.unassigned) == {})
    && (forall t, t' :: t in p.world.technicians && t' in p.world.technicians && t != t' ==>
          VisitIds(RouteFor(p.world, t)) * VisitIds(RouteFor(p.world, t')) == {})
  }

  /** The orders on the first n routes whose technician is (or is not) absent. */
  function RouteOrders(p: Plan, absent: set<Id>, away: bool, n: nat): set<Id>
    requires n <= |p.roster|
  {
    if n == 0 then {}
    else
      var t := p.roster[n - 1];
      RouteOrders(p, absent, away, n - 1) + if (t in absent) == away then VisitIds(RouteFor(p.world, t)) else {}
  }

  function PlannedIds(p: Plan): set<Id> {
    IdSet(p.unassigned) + RouteOrders(p, {}, false, |p.roster|)
  }

  lemma {:induction false} RouteOrdersFrom(p: Plan, absent: set<Id>, away: bool, n: nat, id: Id)
    requires n <= |p.roster|
    ensures id in RouteOrders(p, absent, away, n) <==>
      exists i :: 0 <= i < n && (p.roster[i] in absent) == away && id in VisitIds(RouteFor(p.world, p.roster[i]))
  {
    if n > 0 {
      RouteOrdersFrom(p, absent, away, n - 1, id);
    }
  }

  /** The next route brings only new orders. */
  lemma NextRouteIsNew(p: Plan, absent: set<Id>, away: bool, n: nat)
    requires ValidPlan(p) && PlannedOnce(p) && n < |p.roster|
    ensures RouteOrders(p, absent, away, n) * VisitIds(RouteFor(p.world, p.roster[n])) == {}
    ensures p.roster[n] !in absent ==>
      RouteOrders(p, absent, true, |p.roster|) * VisitIds(RouteFor(p.world, p.roster[n])) == {}
    ensures VisitIds(RouteFor(p.world, p.roster[n])) * IdSet(p.unassigned) == {}
  {
    var t := p.roster[n];
    forall id | id in RouteOrders(p, absent, away, n) ensures id !in VisitIds(RouteFor(p.world, t)) {
      RouteOrdersFrom(p, absent, away, n, id);
      var i :| 0 <= i < n && id in VisitIds(RouteFor(p.world, p.roster[i]));
      assert p.roster[i].rank < t.rank;
      assert id !in VisitIds(RouteFor(p.world, p.roster[i])) * VisitIds(RouteFor(p.world, t)) by {
        assert p.roster[i] in p.world.technicians && t in p.world.technicians;
      }
    }
    if t !in absent {
      forall id | id in RouteOrders(p, absent, true, |p.roster|) ensures id !in VisitIds(RouteFor(p.world, t)) {
        RouteOrdersFrom(p, absent, true, |p.roster|, id);
        var i :| 0 <= i < |p.roster| && p.roster[i] in absent && id in VisitIds(RouteFor(p.world, p.roster[i]));
        assert id !in VisitIds(RouteFor(p.world, p.roster[i])) * VisitIds(RouteFor(p.world, t)) by {
          assert p.roster[i] in p.world.technicians && t in p.world.technicians;
        }
      }
    }
  }

  lemma {:induction false} NothingOnTime(m: map<Id, Outcome>)
    requires forall id :: id in m ==> m[id].late == None
    ensures LateTotal(m) == 0
    decreases |m|
  {
    if m != map[] {
      var id :| id in m;
      LateTotalSplit(m, id);
      NothingOnTime(m - {id});
    }
  }

  lemma {:induction false} DistinctSize(ids: seq<Id>)
    requires Distinct(ids)
    ensures |IdSet(ids)| == |ids|
  {
    if ids != [] {
      var front, last := ids[..|ids| - 1], ids[|ids| - 1];
      DistinctSize(front);
      assert (IdSet(ids)) == (set id | id in front) + {last};
      assert last !in front;
    }
  }

  lemma {:induction false} VisitIdsSize(r: seq<Assignment>)
    requires OnceEach(r)
    ensures |VisitIds(r)| == |r|
  {
    if r != [] {
      var n := |r| - 1;
      VisitIdsSize(r[..n]);
      VisitIdsSnoc(r, n);
      assert r[..n + 1] == r;
    }
  }

  lemma UnassignedBalanced(ids: seq<Id>)
    requires Distinct(ids)
    ensures Balanced(UnassignedTally(ids)) && UnassignedTally(ids).outcomes.Keys == IdSet(ids)
  {
    var y := UnassignedTally(ids);
    DistinctSize(ids);
    NothingOnTime(y.outcomes);
    assert OfKind(y.outcomes, OnTime) == {} && OfKind(y.outcomes, NoShowUnserved) == {};
    assert UnservedIds(y.outcomes) == IdSet(ids);
  }

  lemma AbsentBalanced(t: Id, r: seq<Assignment>)
    requires OnceEach(r)
    ensures Balanced(AbsentTally(t, r)) && AbsentTally(t, r).outcomes.Keys == VisitIds(r)
  {
    var y := AbsentTally(t, r);
    VisitIdsSize(r);
    NothingOnTime(y.outcomes);
    assert OfKind(y.outcomes, OnTime) == {} && OfKind(y.outcomes, NoShowUnserved) == {};
    assert UnservedIds(y.outcomes) == VisitIds(r);
  }

  /** Booking an absent technician's route. */
  lemma AddAbsent(a: Tally, t: Id, r: seq<Assignment>, x: set<Id>, y: set<Id>)
    requires Balanced(a) && a.outcomes.Keys == x + y && OnceEach(r)
    requires y * VisitIds(r) == {} && VisitIds(r) * x == {}
    ensures Balanced(Merge(a, AbsentTally(t, r))) && Merge(a, AbsentTally(t, r)).outcomes.Keys == x + (y + VisitIds(r))
  {
    hide Balanced, AbsentTally, VisitIds, OnceEach;
    AbsentBalanced(t, r);
    MergeBalanced(a, AbsentTally(t, r));
  }

  lemma BookedNone(p: Plan, absent: set<Id>)
    requires Distinct(p.unassigned)
    ensures Balanced(Booked(p, absent, 0))
    ensures Booked(p, absent, 0).outcomes.Keys == IdSet(p.unassigned) + RouteOrders(p, absent, true, 0)
  {
    hide Balanced, UnassignedTally, IdSet;
    UnassignedBalanced(p.unassigned);
  }

  lemma BookedStep(p: Plan, absent: set<Id>, n: nat)
    requires 0 < n <= |p.roster|
    ensures var t := p.roster[n - 1];
            && Booked(p, absent, n) == (if t in absent
                                        then Merge(Booked(p, absent, n - 1), AbsentTally(t, RouteFor(p.world, t)))
                                        else Booked(p, absent, n - 1))
            && RouteOrders(p, absent, true, n) == (if t in absent
                                                   then RouteOrders(p, absent, true, n - 1) + VisitIds(RouteFor(p.world, t))
                                                   else RouteOrders(p, absent, true, n - 1))
  {
    hide Merge, AbsentTally, VisitIds;
  }

  lemma OncePlanned(p: Plan)
    requires PlannedOnce(p)
    ensures Distinct(p.unassigned) && forall t :: t in p.world.technicians ==> OnceEach(RouteFor(p.world, t))
  {
    hide VisitIds, OnceEach;
  }

  lemma {:induction false} BookedBalanced(p: Plan, absent: set<Id>, n: nat)
    requires ValidPlan(p) && PlannedOnce(p) && n <= |p.roster|
    ensures Balanced(Booked(p, absent, n))
    ensures Booked(p, absent, n).outcomes.Keys == IdSet(p.unassigned) + RouteOrders(p, absent, true, n)
  {
    hide Balanced, AbsentTally, UnassignedTally, VisitIds, ValidPlan, OnceEach, Merge, PlannedOnce, IdSet, Booked,
         RouteOrders;
    OncePlanned(p);
    if n == 0 {
      BookedNone(p, absent);
    } else {
      BookedStep(p, absent, n);
      var t := p.roster[n - 1];
      BookedBalanced(p, absent, n - 1);
      if t in absent {
        NextRouteIsNew(p, absent, true, n - 1);
        RosterMember(p, n - 1);
        AddAbsent(Booked(p, absent, n - 1), t, RouteFor(p.world, t), IdSet(p.unassigned),
                  RouteOrders(p, absent, true, n - 1));
      }
    }
  }

  /** The books of a partial collection, with the opening taken without the emergency's own failure. */
  lemma {:induction false} CollectBalanced(p: Plan, absent: set<Id>, target: Option<Id>, e: Option<Event>,
                                           start: TrialResult, n: nat)
    requires ValidPlan(p) && PlannedOnce(p) && n <= |p.roster|
    requires start.tally == Booked(p, absent, |p.roster|)
    ensures var y := Collect(p, absent, target, e, start, n).tally;
            && Balanced(y)
            && y.outcomes.Keys == IdSet(p.unassigned) + RouteOrders(p, absent, true, |p.roster|)
                                  + RouteOrders(p, absent, false, n)
  {
    hide Balanced, VisitIds, Final, Booked, OnceEach, Collect, ValidPlan, PlannedOnce, Merge, NoShowOf;
    if n == 0 {
      CollectNone(p, absent, target, e, start);
      BookedBalanced(p, absent, |p.roster|);
    } else {
      var t := p.roster[n - 1];
      CollectBalanced(p, absent, target, e, start, n - 1);
      CollectStep(p, absent, target, e, start, n);
      NextRouteIsNew(p, absent, false, n - 1);
      if t !in absent {
        BookedRoute(p, target, e, t);
        MergeBalanced(Collect(p, absent, target, e, start, n - 1).tally, Final(p, target, e, t).tally);
      }
    }
  }

  lemma BookedRoute(p: Plan, target: Option<Id>, e: Option<Event>, t: Id)
    requires ValidPlan(p) && PlannedOnce(p) && t in p.roster && t in p.world.technicians
    ensures var y := Final(p, target, e, t).tally;
            Balanced(y) && y.outcomes.Keys == VisitIds(RouteFor(p.world, t))
  {
    hide Balanced, VisitIds, Final, NoShowOf;
    FinalBooks(p, target, e, t);
  }
}
