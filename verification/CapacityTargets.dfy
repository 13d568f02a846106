/**
  What the capacity options aim at when the request leaves it open: the
  technician designed for the costliest unserved order, and the training that
  unlocks the most unserved demand.
 */
module CapacityTargets {
  import opened Domain
  import opened Sorting
  import opened Capacity
  import opened Grid

  // ----- the middle of a list -----

  predicate AtMost(a: nat, b: nat) {
    a <= b
  }

  /** `sorted(values)[len(values) // 2]`. */
  function Middle(s: seq<nat>): (r: nat)
    requires s != []
  {
    Sort(AtMost, s)[|s| / 2]
  }

  function CountUpTo(s: seq<nat>, y: int): (r: nat)
    ensures r <= |s|
  {
    if s == [] then 0 else CountUpTo(s[..|s| - 1], y) + if s[|s| - 1] <= y then 1 else 0
  }

  lemma CountSnoc(s: seq<nat>, a: nat, y: int)
    ensures CountUpTo(s + [a], y) == CountUpTo(s, y) + if a <= y then 1 else 0
  {
    assert (s + [a])[..|s|] == s;
  }

  lemma {:induction false} CountInsert(s: seq<nat>, a: nat, y: int)
    ensures CountUpTo(Insert(AtMost, s, a), y) == CountUpTo(s, y) + if a <= y then 1 else 0
  {
    if s == [] || AtMost(s[|s| - 1], a) {
      CountSnoc(s, a, y);
    } else {
      var front, last := s[..|s| - 1], s[|s| - 1];
      CountInsert(front, a, y);
      CountSnoc(Insert(AtMost, front, a), last, y);
    }
  }

  lemma {:induction false} CountSort(s: seq<nat>, y: int)
    ensures CountUpTo(Sort(AtMost, s), y) == CountUpTo(s, y)
  {
    if s != [] {
      CountSort(s[..|s| - 1], y);
      CountInsert(Sort(AtMost, s[..|s| - 1]), s[|s| - 1], y);
    }
  }

  /** In a sorted list, the k-th value is at most y exactly when more than k values are. */
  lemma {:induction false} RankCounts(s: seq<nat>, k: nat, y: int)
    requires SortedBy(AtMost, s) && k < |s|
    ensures s[k] <= y <==> CountUpTo(s, y) > k
    decreases |s|
  {
    var n := |s| - 1;
    var front := s[..n];
    assert AtMost(s[k], s[n]) || k == n;
    if k < n {
      RankCounts(front, k, y);
    } else if n > 0 {
      RankCounts(front, n - 1, y);
      assert AtMost(s[n - 1], s[n]);
    }
  }

  lemma {:induction false} CountLater(a: seq<nat>, b: seq<nat>, y: int)
    requires |a| == |b| && forall i :: 0 <= i < |a| ==> a[i] < b[i]
    ensures CountUpTo(b, y) <= CountUpTo(a, y - 1)
  {
    if a != [] {
      CountLater(a[..|a| - 1], b[..|b| - 1], y);
      assert a[|a| - 1] < b[|b| - 1];
    }
  }

  /** Lists that are ordered place by place keep that order in the middle, however they are sorted. */
  lemma MiddleKeepsOrder(a: seq<nat>, b: seq<nat>)
    requires |a| == |b| > 0 && forall i :: 0 <= i < |a| ==> a[i] < b[i]
    ensures Middle(a) < Middle(b)
  {
    var k, y: int := |a| / 2, Middle(b);
    SortSorted(AtMost, a);
    SortSorted(AtMost, b);
    RankCounts(Sort(AtMost, b), k, y);
    CountSort(b, y);
    CountLater(a, b, y);
    CountSort(a, y - 1);
    RankCounts(Sort(AtMost, a), k, y - 1);
  }

  /** More than half of the values are at most the middle, and at most half are below it. */
  lemma MiddleIsMedian(s: seq<nat>)
    requires s != []
    ensures CountUpTo(s, Middle(s)) > |s| / 2 >= CountUpTo(s, Middle(s) - 1)
  {
    SortSorted(AtMost, s);
    RankCounts(Sort(AtMost, s), |s| / 2, Middle(s));
    RankCounts(Sort(AtMost, s), |s| / 2, Middle(s) - 1);
    CountSort(s, Middle(s));
    CountSort(s, Middle(s) - 1);
  }

  lemma MiddleIsMember(s: seq<nat>)
    requires s != []
    ensures Middle(s) in s
  {
    SortMembers(AtMost, s, Sort(AtMost, s)[|s| / 2]);
  }

  // ----- the technician designed for the costliest unserved order -----

  function Unserved(orders: seq<WorkOrder>, ids: seq<Id>): (r: seq<WorkOrder>)
    ensures forall o :: o in r <==> o in orders && o.id in ids
  {
    if orders == [] then []
    else
      var front, last := orders[..|orders| - 1], orders[|orders| - 1];
      assert forall o :: o in orders <==> o in front || o == last;
      Unserved(front, ids) + if last.id in ids then [last] else []
  }

  function Weight(p: Priority): nat {
    match p
    case Urgent => 4
    case High => 3
    case Normal => 2
    case Low => 1
  }

  /** `key=(drop_penalty, priority, vip, id)`: `b` is at least as large. */
  predicate NoMorePressing(a: WorkOrder, b: WorkOrder) {
    || a.dropPenalty < b.dropPenalty
    || (a.dropPenalty == b.dropPenalty
        && (|| Weight(a.priority) < Weight(b.priority)
            || (Weight(a.priority) == Weight(b.priority)
                && ((!a.vip && b.vip) || (a.vip == b.vip && a.id.rank <= b.id.rank)))))
  }

  /** `b` costs at least as much to drop as `a`; on a tie it is as urgent, then as important a customer, then of a larger id. */
  ghost predicate AsPressing(b: WorkOrder, a: WorkOrder) {
    && a.dropPenalty <= b.dropPenalty
    && (a.dropPenalty == b.dropPenalty ==>
          && (a.priority.Urgent? ==> b.priority.Urgent?)
          && (a.priority.High? ==> b.priority.Urgent? || b.priority.High?)
          && (b.priority.Low? ==> a.priority.Low?)
          && (a.priority == b.priority ==> (a.vip ==> b.vip) && (a.vip == b.vip ==> a.id.rank <= b.id.rank)))
  }

  function MostPressing(cs: seq<WorkOrder>): (r: WorkOrder)
    requires cs != []
    ensures r in cs && forall c :: c in cs ==> NoMorePressing(c, r)
  {
    if |cs| == 1 then cs[0]
    else
      var front, last := cs[..|cs| - 1], cs[|cs| - 1];
      assert forall c :: c in cs <==> c in front || c == last;
      var b := MostPressing(front);
      if NoMorePressing(last, b) then b else last
  }

  /** `round(x, 3)` on exact reals. */
  function Thousandths(x: real): (r: real)
    ensures x - 0.0005 <= r <= x + 0.0005
  {
    if x >= 0.0 then Round(x * 1000.0) as real / 1000.0 else 0.0 - Round(0.0 - x * 1000.0) as real / 1000.0
  }

  function Sum(s: seq<real>): real {
    if s == [] then 0.0 else Sum(s[..|s| - 1]) + s[|s| - 1]
  }

  function Mean(s: seq<real>): real
    requires s != []
  {
    Sum(s) / |s| as real
  }

  function AveragePoint(ps: seq<Point>): Point {
    if ps == [] then Point(50.0, 50.0)
    else
      Point(Thousandths(Mean(seq(|ps|, i requires 0 <= i < |ps| => ps[i].x))),
            Thousandths(Mean(seq(|ps|, i requires 0 <= i < |ps| => ps[i].y))))
  }

  function Starts(ts: seq<Technician>): seq<nat> {
    seq(|ts|, i requires 0 <= i < |ts| => ts[i].shiftStart)
  }

  function Ends(ts: seq<Technician>): seq<nat> {
    seq(|ts|, i requires 0 <= i < |ts| => ts[i].shiftEnd)
  }

  function Rates(ts: seq<Technician>): seq<nat> {
    seq(|ts|, i requires 0 <= i < |ts| => ts[i].rate)
  }

  function Depots(ts: seq<Technician>): seq<Point> {
    seq(|ts|, i requires 0 <= i < |ts| => ts[i].depot)
  }

  /** The candidate of `add_technician` when the request names none. */
  function Candidate(sc: Scenario, unassigned: seq<Id>, id: Id): Option<Technician> {
    var cs, ts := Unserved(sc.orders, unassigned), sc.technicians;
    if cs == [] then None
    else if ts == [] then Some(Technician(id, MostPressing(cs).skills, 480, 1020, AveragePoint([]), 60, 100))
    else
      Some(Technician(id, MostPressing(cs).skills, Middle(Starts(ts)), Middle(Ends(ts)), AveragePoint(Depots(ts)), 60,
                      Middle(Rates(ts))))
  }

  /** A second, longer digest is used when the first one is taken. */
  function CandidateId(sc: Scenario, short: Id, long: Id): Id {
    if short in TechnicianIds(sc.technicians) then long else short
  }

  /**
    A candidate is proposed exactly when an order is unserved. It has the skills
    of the most pressing one, and hiring it passes the validators exactly unless
    both digests are taken: the middle of the shift starts lies before the
    middle of the shift ends.
   */
  lemma CandidateIsAdmissible(sc: Scenario, unassigned: seq<Id>, short: Id, long: Id)
    requires ValidScenario(sc)
    ensures var c := Candidate(sc, unassigned, CandidateId(sc, short, long));
            && (c.None? <==> forall o :: o in sc.orders ==> o.id !in unassigned)
            && (c.Some? ==>
                  && (exists o :: o in sc.orders && o.id in unassigned && c.value.skills == o.skills
                        && forall p :: p in sc.orders && p.id in unassigned ==> AsPressing(o, p))
                  && ((forall t :: t in sc.technicians ==> InServiceArea(t.depot)) ==> InServiceArea(c.value.depot))
                  && c.value.overtimeLimit == 60
                  && (if sc.technicians == [] then c.value.shiftStart == 480 && c.value.shiftEnd == 1020 && c.value.rate == 100
                      else c.value.shiftStart == Middle(Starts(sc.technicians))
                           && c.value.shiftEnd == Middle(Ends(sc.technicians))
                           && c.value.rate == Middle(Rates(sc.technicians)))
                  && (Admissible(sc, AddTechnician(c.value)) <==>
                        !(short in TechnicianIds(sc.technicians) && long in TechnicianIds(sc.technicians))))
  {
    hide Middle, AveragePoint, InServiceArea;
    var cs, ts := Unserved(sc.orders, unassigned), sc.technicians;
    if cs == [] {
      forall o | o in sc.orders ensures o.id !in unassigned {
        assert o !in cs;
      }
    } else {
      var o := MostPressing(cs);
      assert o in sc.orders && o.id in unassigned;
      if forall t :: t in ts ==> InServiceArea(t.depot) {
        AverageInArea(Depots(ts));
        AverageInArea([]);
      }
      if ts != [] {
        MiddleShift(ts);
      } else {
        assert Depots(ts) == [];
      }
    }
  }

  lemma MiddleShift(ts: seq<Technician>)
    requires ts != [] && forall t :: t in ts ==> ValidTechnician(t)
    ensures Middle(Starts(ts)) < Middle(Ends(ts)) <= 1800
  {
    hide Middle;
    forall i | 0 <= i < |ts| ensures Starts(ts)[i] < Ends(ts)[i] <= 1800 {
      assert ts[i] in ts;
    }
    MiddleKeepsOrder(Starts(ts), Ends(ts));
    MiddleIsMember(Ends(ts));
  }

  lemma {:induction false} SumBetween(s: seq<real>)
    requires forall i :: 0 <= i < |s| ==> 0.0 <= s[i] <= 100.0
    ensures 0.0 <= Sum(s) <= 100.0 * |s| as real
  {
    if s != [] {
      SumBetween(s[..|s| - 1]);
    }
  }

  lemma QuotientBetween(x: real, n: nat)
    requires n > 0 && 0.0 <= x <= 100.0 * n as real
    ensures 0.0 <= x / n as real <= 100.0
  {
    var q, d := x / n as real, n as real;
    assert q * d == x;
    if q < 0.0 {
      Positive(0.0 - q, d);
    }
    if q > 100.0 {
      Positive(q - 100.0, d);
    }
  }

  lemma MeanBetween(s: seq<real>)
    requires s != [] && forall i :: 0 <= i < |s| ==> 0.0 <= s[i] <= 100.0
    ensures 0.0 <= Thousandths(Mean(s)) <= 100.0
  {
    SumBetween(s);
    QuotientBetween(Sum(s), |s|);
    var m := Mean(s);
    hide Round, Mean;
    assert Round(m * 1000.0) as real < 100001.0;
    assert Round(m * 1000.0) <= 100000;
  }

  /** The average of places in the service area is in the service area, rounded as it is. */
  lemma AverageInArea(ps: seq<Point>)
    requires forall i :: 0 <= i < |ps| ==> InServiceArea(ps[i])
    ensures InServiceArea(AveragePoint(ps))
  {
    hide Thousandths, Mean;
    if ps != [] {
      MeanBetween(seq(|ps|, i requires 0 <= i < |ps| => ps[i].x));
      MeanBetween(seq(|ps|, i requires 0 <= i < |ps| => ps[i].y));
    }
  }

  // ----- the training that unlocks the most -----

  datatype Training = Training(score: nat, tech: Id, skill: nat)

  /** `key=(score, technician id, skill)`: `b` is at least as large. */
  predicate NoBetter(a: Training, b: Training) {
    || a.score < b.score
    || (a.score == b.score && (a.tech.rank < b.tech.rank || (a.tech.rank == b.tech.rank && a.skill <= b.skill)))
  }

  predicate Unlocks(t: Technician, skill: nat, o: WorkOrder) {
    skill in o.skills && o.skills <= t.skills + {skill}
  }

  function Score(t: Technician, skill: nat, orders: seq<WorkOrder>): nat {
    if orders == [] then 0
    else
      var o := orders[|orders| - 1];
      Score(t, skill, orders[..|orders| - 1])
      + if Unlocks(t, skill, o) then o.dropPenalty + (if o.vip then 10000 else 0) else 0
  }

  function PenaltyOf(orders: seq<WorkOrder>): nat {
    if orders == [] then 0 else PenaltyOf(orders[..|orders| - 1]) + orders[|orders| - 1].dropPenalty
  }

  function VipsOf(orders: seq<WorkOrder>): nat {
    if orders == [] then 0 else VipsOf(orders[..|orders| - 1]) + if orders[|orders| - 1].vip then 1 else 0
  }

  function UnlockedBy(t: Technician, skill: nat, orders: seq<WorkOrder>): seq<WorkOrder> {
    if orders == [] then []
    else UnlockedBy(t, skill, orders[..|orders| - 1])
         + if Unlocks(t, skill, orders[|orders| - 1]) then [orders[|orders| - 1]] else []
  }

  /** The score is what dropping the unlocked orders costs, and ten thousand more for every VIP among them. */
  lemma {:induction false} ScoreAddsUp(t: Technician, skill: nat, orders: seq<WorkOrder>)
    ensures var unlocked := UnlockedBy(t, skill, orders);
            Score(t, skill, orders) == PenaltyOf(unlocked) + 10000 * VipsOf(unlocked)
  {
    if orders != [] {
      var front, o := UnlockedBy(t, skill, orders[..|orders| - 1]), orders[|orders| - 1];
      ScoreAddsUp(t, skill, orders[..|orders| - 1]);
      assert (front + [o])[..|front|] == front && front + [] == front;
    }
  }

  lemma {:induction false} ScoreIsPositive(t: Technician, skill: nat, orders: seq<WorkOrder>)
    requires forall o :: o in orders ==> o.dropPenalty > 0
    ensures Score(t, skill, orders) > 0 <==> exists o :: o in orders && Unlocks(t, skill, o)
  {
    if orders != [] {
      var front, last := orders[..|orders| - 1], orders[|orders| - 1];
      assert orders == front + [last];
      ScoreIsPositive(t, skill, front);
    }
  }

  /** A training the program may propose. */
  ghost predicate Proposed(ts: seq<Technician>, skills: seq<nat>, orders: seq<WorkOrder>, x: Training) {
    exists t :: t in ts && t.id == x.tech && x.skill in skills && x.skill !in t.skills
                && x.score == Score(t, x.skill, orders) > 0
  }

  /** `y` unlocks at least as much as `x`, and on a tie has the larger technician id, then the larger skill. */
  ghost predicate Leads(y: Training, x: Training) {
    && x.score <= y.score
    && (x.score == y.score ==> x.tech.rank <= y.tech.rank)
    && (x.score == y.score && x.tech.rank == y.tech.rank ==> x.skill <= y.skill)
  }

  function Best(xs: seq<Training>): (r: Training)
    requires xs != []
    ensures r in xs && forall x :: x in xs ==> NoBetter(x, r)
  {
    if |xs| == 1 then xs[0]
    else
      var front, last := xs[..|xs| - 1], xs[|xs| - 1];
      assert forall x :: x in xs <==> x in front || x == last;
      var b := Best(front);
      if NoBetter(last, b) then b else last
  }

  /** The target of `add_skill` when the request names none. */
  method BestTraining(ts: seq<Technician>, skills: seq<nat>, orders: seq<WorkOrder>) returns (best: Option<Training>)
    ensures best.None? ==> forall x :: !Proposed(ts, skills, orders, x)
    ensures best.Some? ==> Proposed(ts, skills, orders, best.value)
                           && forall x :: Proposed(ts, skills, orders, x) ==> Leads(best.value, x)
  {
    hide Score;
    var scored: seq<Training> := [];
    for i := 0 to |ts|
      invariant forall x :: x in scored <==> Proposed(ts[..i], skills, orders, x)
    {
      ghost var before := scored;
      for j := 0 to |skills|
        invariant forall x :: x in scored <==> x in before || Proposed([ts[i]], skills[..j], orders, x)
      {
        var score := Score(ts[i], skills[j], orders);
        assert forall k :: k in skills[..j + 1] <==> k in skills[..j] || k == skills[j];
        if skills[j] !in ts[i].skills && score > 0 {
          assert ts[i] in [ts[i]];
          scored := scored + [Training(score, ts[i].id, skills[j])];
        }
      }
      assert skills[..|skills|] == skills;
      assert forall t :: t in ts[..i + 1] <==> t in ts[..i] || t in [ts[i]];
    }
    assert ts[..|ts|] == ts;
    if scored == [] {
      best := None;
    } else {
      best := Some(Best(scored));
    }
  }

  /** Some unserved order that `t` cannot serve yet it could serve after learning `skill`. */
  ghost predicate Opens(t: Technician, skill: nat, orders: seq<WorkOrder>) {
    exists o :: o in orders && !CanServe(t, o) && CanServe(Adjust(AddSkill(t.id, skill), t), o)
  }

  /** A training unlocks demand exactly when its technician can newly serve an unserved order. */
  lemma OpensExactly(t: Technician, skill: nat, orders: seq<WorkOrder>)
    requires forall o :: o in orders ==> o.dropPenalty > 0
    ensures skill !in t.skills && Score(t, skill, orders) > 0 <==> Opens(t, skill, orders)
  {
    ScoreIsPositive(t, skill, orders);
    if Opens(t, skill, orders) {
      var o :| o in orders && !CanServe(t, o) && CanServe(Adjust(AddSkill(t.id, skill), t), o);
      assert Unlocks(t, skill, o);
    }
    if o :| o in orders && skill !in t.skills && Unlocks(t, skill, o) {
      assert !CanServe(t, o) && CanServe(Adjust(AddSkill(t.id, skill), t), o);
    }
  }

  ghost predicate SomeTrainingOpens(ts: seq<Technician>, skills: seq<nat>, orders: seq<WorkOrder>) {
    exists t, skill :: t in ts && skill in skills && Opens(t, skill, orders)
  }

  /** Something can be proposed exactly when one training lets somebody serve an unserved order anew. */
  lemma ProposedExactly(ts: seq<Technician>, skills: seq<nat>, orders: seq<WorkOrder>)
    requires forall o :: o in orders ==> o.dropPenalty > 0
    ensures (exists x :: Proposed(ts, skills, orders, x)) <==> SomeTrainingOpens(ts, skills, orders)
    ensures forall x :: Proposed(ts, skills, orders, x) ==>
              exists t :: t in ts && t.id == x.tech && Opens(t, x.skill, orders)
  {
    hide Score, Opens;
    forall x | Proposed(ts, skills, orders, x)
      ensures exists t :: t in ts && t.id == x.tech && Opens(t, x.skill, orders)
    {
      var t :| t in ts && t.id == x.tech && x.skill !in t.skills && x.score == Score(t, x.skill, orders) > 0;
      OpensExactly(t, x.skill, orders);
    }
    if SomeTrainingOpens(ts, skills, orders) {
      var t, skill :| t in ts && skill in skills && Opens(t, skill, orders);
      OpensExactly(t, skill, orders);
      assert Proposed(ts, skills, orders, Training(Score(t, skill, orders), t.id, skill));
    }
  }

  // ----- the change an option makes -----

  datatype Lever = Hire | Train | Lengthen | Overtime

  /** What the request may fix itself: a candidate, and whom to train in what. */
  datatype Request = Request(archetype: Option<Technician>, techId: Option<Id>, skill: nat)

  predicate Untrained(ts: seq<Technician>, id: Id, skill: nat) {
    exists t :: t in ts && t.id == id && skill !in t.skills
  }

  /**
    The change of an internal option, or nothing when it does not apply: no
    unserved order, a technician who is unknown or already trained, or no
    training that opens anything.
   */
  method ChooseChange(sc: Scenario, lever: Lever, q: Request, unassigned: seq<Id>, skills: seq<nat>, short: Id, long: Id)
    returns (x: Option<Relaxation>)
    requires ValidScenario(sc) && forall o :: o in sc.orders ==> o.dropPenalty > 0
    requires q.archetype.Some? ==> ValidTechnician(q.archetype.value)
    ensures lever.Lengthen? ==> x == Some(ExtendShift)
    ensures lever.Overtime? ==> x == Some(AllowOvertime)
    ensures lever.Hire? && q.archetype.Some? ==>
              x == Some(AddTechnician(q.archetype.value.(id := CandidateId(sc, short, long))))
    ensures lever.Hire? && q.archetype.None? ==>
              x == var c := Candidate(sc, unassigned, CandidateId(sc, short, long));
                   if c.None? then None else Some(AddTechnician(c.value))
    ensures lever.Train? && q.techId.Some? ==>
              x == if (exists o :: o in sc.orders && o.id in unassigned)
                      && (exists t :: t in sc.technicians && t.id == q.techId.value && q.skill !in t.skills)
                   then Some(AddSkill(q.techId.value, q.skill)) else None
    ensures lever.Train? && q.techId.None? ==>
              (x.None? <==> !SomeTrainingOpens(sc.technicians, skills, Unserved(sc.orders, unassigned)))
              && (x.Some? ==> x.value.AddSkill? && exists y ::
                    && Proposed(sc.technicians, skills, Unserved(sc.orders, unassigned), y)
                    && x.value == AddSkill(y.tech, y.skill)
                    && forall z :: Proposed(sc.technicians, skills, Unserved(sc.orders, unassigned), z) ==> Leads(y, z))
    ensures x.Some? ==>
              (Admissible(sc, x.value) <==>
                 !lever.Hire? || !(short in TechnicianIds(sc.technicians) && long in TechnicianIds(sc.technicians)))
  {
    hide NoMorePressing, Middle, AveragePoint, Score, Opens;
    var orders := Unserved(sc.orders, unassigned);
    assert orders != [] <==> exists o :: o in sc.orders && o.id in unassigned by {
      if orders != [] {
        assert orders[0] in orders;
      }
    }
    match lever {
      case Lengthen => x := Some(ExtendShift);
      case Overtime => x := Some(AllowOvertime);
      case Hire =>
        var id := CandidateId(sc, short, long);
        if q.archetype.Some? {
          x := Some(AddTechnician(q.archetype.value.(id := id)));
        } else {
          var c := Candidate(sc, unassigned, id);
          CandidateIsAdmissible(sc, unassigned, short, long);
          x := if c.None? then None else Some(AddTechnician(c.value));
        }
      case Train =>
        if q.techId.Some? {
          var id := q.techId.value;
          x := if orders != [] && Untrained(sc.technicians, id, q.skill) then Some(AddSkill(id, q.skill)) else None;
        } else {
          ProposedExactly(sc.technicians, skills, orders);
          var best := BestTraining(sc.technicians, skills, orders);
          x := if best.None? then None else Some(AddSkill(best.value.tech, best.value.skill));
        }
    }
  }
}
