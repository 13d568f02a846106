/**
  The integer-cent ledger of a plan: labour per technician, travel, lateness,
  unserved revenue and outsourcing, as `analyze_plan_cost` books them.
 */
module Cost {
  import opened Domain
  import opened Kpi

  datatype LaborMode = OccupiedMinutes | PaidShift | SalariedAllocation

  datatype Policy = Policy(
    mode: LaborMode,
    travelRate: nat,
    premiumBasisPoints: nat,
    slaRate: nat,
    revenueLow: nat,
    revenueNormal: nat,
    revenueHigh: nat,
    revenueUrgent: nat,
    vipPremium: nat,
    outsourcingRate: nat)

  /** Which labour components of a technician are charged. */
  datatype WageSource = WageSource(regular: bool, overtimeBase: bool, overtimePremium: bool)

  /** From when paid shifts are counted, and whether idle technicians count at all. */
  datatype Scope = Scope(starts: Option<map<Id, nat>>, defaultStart: Option<nat>, onlyIfScheduled: bool)

  datatype Kind = RegularLabor | OvertimeBase | OvertimePremium | TravelMinutes | Outsourcing | SlaPenalty | UnservedRevenue

  /** One ledger line; lines that belong to no technician have no source. */
  datatype Component = Component(kind: Kind, source: Option<Id>, amount: int)

  datatype Charge = Charge(regular: int, base: int, premium: int)

  /** Everything a labour charge depends on besides the KPI row. */
  datatype Terms = Terms(
    technicians: map<Id, Technician>,
    policy: Policy,
    scope: Scope,
    sources: map<Id, WageSource>,
    scheduled: set<Id>)

  datatype Breakdown = Breakdown(
    regular: int,
    base: int,
    premium: int,
    travel: int,
    slaPenalty: int,
    unservedRevenue: int,
    outsourcing: int,
    cash: int,
    serviceFailure: int,
    total: int,
    technicianCosts: map<Id, int>,
    fullDayCommitted: int,
    ledger: seq<Component>)

  datatype Outcome = Costed(value: Breakdown) | LaborModeNotSupported

  // ----- one technician -----

  function ShiftLength(t: Technician): int {
    t.shiftEnd - t.shiftStart
  }

  function SourceOf(e: Terms, t: Id): WageSource {
    if t in e.sources then e.sources[t] else WageSource(true, true, true)
  }

  /** Where a paid shift starts to count. */
  function CountedFrom(c: Scope, t: Technician): int {
    if c.starts.Some? && t.id in c.starts.value then c.starts.value[t.id]
    else if c.defaultStart.Some? then c.defaultStart.value
    else t.shiftStart
  }

  function RegularMinutes(e: Terms, t: Technician, k: TechnicianKpi): int {
    if e.policy.mode.PaidShift? && e.scope.onlyIfScheduled && t.id !in e.scheduled then 0
    else if e.policy.mode.PaidShift? && (e.scope.starts.Some? || e.scope.defaultStart.Some?) then
      Max(0, t.shiftEnd - Max(t.shiftStart, CountedFrom(e.scope, t)))
    else if e.policy.mode.PaidShift? then ShiftLength(t)
    else k.occupied
  }

  function ChargeOf(e: Terms, t: Technician, k: TechnicianKpi): Charge {
    var s := SourceOf(e, t.id);
    Charge(if s.regular then RegularMinutes(e, t, k) * t.rate else 0,
           if e.policy.mode.PaidShift? && s.overtimeBase then k.overtime * t.rate else 0,
           if s.overtimePremium then k.overtime * t.rate * e.policy.premiumBasisPoints / 10000 else 0)
  }

  function Paid(c: Charge): int {
    c.regular + c.base + c.premium
  }

  function CommittedOf(e: Terms, t: Technician): int {
    if e.policy.mode.PaidShift? && SourceOf(e, t.id).regular then ShiftLength(t) * t.rate else 0
  }

  /** A line is only written for a non-zero amount. */
  function Line(kind: Kind, source: Option<Id>, amount: int): seq<Component> {
    if amount == 0 then [] else [Component(kind, source, amount)]
  }

  function ChargeLines(t: Id, c: Charge): seq<Component> {
    Line(RegularLabor, Some(t), c.regular) + Line(OvertimeBase, Some(t), c.base)
    + Line(OvertimePremium, Some(t), c.premium)
  }

  // ----- all technicians -----

  datatype Bill = Bill(charge: Charge, committed: int, costs: map<Id, int>, ledger: seq<Component>)

  function AddCharge(b: Bill, t: Id, c: Charge, committed: int): Bill {
    Bill(Charge(b.charge.regular + c.regular, b.charge.base + c.base, b.charge.premium + c.premium),
         b.committed + committed, b.costs[t := Paid(c)], b.ledger + ChargeLines(t, c))
  }

  /** Rows of unknown technicians are skipped. */
  function BillOf(e: Terms, ks: seq<TechnicianKpi>): Bill {
    if ks == [] then Bill(Charge(0, 0, 0), 0, map[], [])
    else
      var front, k := BillOf(e, ks[..|ks| - 1]), ks[|ks| - 1];
      if k.tech !in e.technicians then front
      else
        var t := e.technicians[k.tech];
        AddCharge(front, t.id, ChargeOf(e, t, k), CommittedOf(e, t))
  }

  method BillTechnicians(e: Terms, ks: seq<TechnicianKpi>) returns (b: Bill)
    ensures b == BillOf(e, ks)
  {
    var regular, base, premium, committed := 0, 0, 0, 0;
    var costs: map<Id, int> := map[];
    var ledger: seq<Component> := [];
    for i := 0 to |ks|
      invariant Bill(Charge(regular, base, premium), committed, costs, ledger) == BillOf(e, ks[..i])
    {
      assert ks[..i + 1][..i] == ks[..i];
      if ks[i].tech in e.technicians {
        var t := e.technicians[ks[i].tech];
        var c := ChargeOf(e, t, ks[i]);
        committed := committed + CommittedOf(e, t);
        costs := costs[t.id := c.regular + c.base + c.premium];
        regular, base, premium := regular + c.regular, base + c.base, premium + c.premium;
        ledger := ledger + ChargeLines(t.id, c);
      }
    }
    assert ks[..|ks|] == ks;
    b := Bill(Charge(regular, base, premium), committed, costs, ledger);
  }

  // ----- the rest of the ledger -----

  function SlaMinutes(s: seq<Assignment>): int {
    if s == [] then 0 else SlaMinutes(s[..|s| - 1]) + s[|s| - 1].slaLate
  }

  function Revenue(p: Policy, o: WorkOrder): int {
    (match o.priority
     case Low => p.revenueLow
     case Normal => p.revenueNormal
     case High => p.revenueHigh
     case Urgent => p.revenueUrgent)
    + if o.vip then p.vipPremium else 0
  }

  function LostRevenue(p: Policy, orders: map<Id, WorkOrder>, ids: seq<Id>): int {
    if ids == [] then 0
    else
      var last := ids[|ids| - 1];
      LostRevenue(p, orders, ids[..|ids| - 1]) + if last in orders then Revenue(p, orders[last]) else 0
  }

  method ServiceFailure(p: Policy, orders: map<Id, WorkOrder>, s: Schedule) returns (late: int, lost: int)
    ensures late == SlaMinutes(s.assignments) && lost == LostRevenue(p, orders, s.unassigned)
  {
    late, lost := 0, 0;
    for i := 0 to |s.assignments|
      invariant late == SlaMinutes(s.assignments[..i])
    {
      assert s.assignments[..i + 1][..i] == s.assignments[..i];
      late := late + s.assignments[i].slaLate;
    }
    assert s.assignments[..|s.assignments|] == s.assignments;
    for i := 0 to |s.unassigned|
      invariant lost == LostRevenue(p, orders, s.unassigned[..i])
    {
      assert s.unassigned[..i + 1][..i] == s.unassigned[..i];
      if s.unassigned[i] in orders {
        lost := lost + Revenue(p, orders[s.unassigned[i]]);
      }
    }
    assert s.unassigned[..|s.unassigned|] == s.unassigned;
  }

  // ----- what a ledger says -----

  /** The booked amounts of one kind. */
  function Booked(ledger: seq<Component>, kind: Kind): int {
    if ledger == [] then 0
    else Booked(ledger[..|ledger| - 1], kind)
         + if ledger[|ledger| - 1].kind == kind then ledger[|ledger| - 1].amount else 0
  }

  function LedgerTotal(ledger: seq<Component>): int {
    if ledger == [] then 0 else LedgerTotal(ledger[..|ledger| - 1]) + ledger[|ledger| - 1].amount
  }

  /** The booked amounts of one technician. */
  function BookedFor(ledger: seq<Component>, t: Id): int {
    if ledger == [] then 0
    else BookedFor(ledger[..|ledger| - 1], t)
         + if ledger[|ledger| - 1].source == Some(t) then ledger[|ledger| - 1].amount else 0
  }

  ghost predicate NoZeros(ledger: seq<Component>) {
    forall c :: c in ledger ==> c.amount != 0
  }

  /** Every kind of line adds up to its total, and nothing else is booked. */
  ghost predicate LedgerMatches(b: Breakdown) {
    && Booked(b.ledger, RegularLabor) == b.regular
    && Booked(b.ledger, OvertimeBase) == b.base
    && Booked(b.ledger, OvertimePremium) == b.premium
    && Booked(b.ledger, TravelMinutes) == b.travel
    && Booked(b.ledger, Outsourcing) == b.outsourcing
    && Booked(b.ledger, SlaPenalty) == b.slaPenalty
    && Booked(b.ledger, UnservedRevenue) == b.unservedRevenue
    && LedgerTotal(b.ledger) == b.total
    && NoZeros(b.ledger)
  }

  lemma {:induction false} BookedForJoin(a: seq<Component>, b: seq<Component>, t: Id)
    ensures BookedFor(a + b, t) == BookedFor(a, t) + BookedFor(b, t)
  {
    if b == [] {
      assert a + b == a;
    } else {
      assert (a + b)[..|a + b| - 1] == a + b[..|b| - 1];
      BookedForJoin(a, b[..|b| - 1], t);
    }
  }

  lemma BookedLine(a: seq<Component>, k: Kind, source: Option<Id>, amount: int, kind: Kind)
    ensures Booked(a + Line(k, source, amount), kind) == Booked(a, kind) + (if k == kind then amount else 0)
    ensures LedgerTotal(a + Line(k, source, amount)) == LedgerTotal(a) + amount
    ensures NoZeros(a) ==> NoZeros(a + Line(k, source, amount))
  {
    if amount == 0 {
      assert a + [] == a;
    } else {
      assert (a + Line(k, source, amount))[..|a|] == a;
    }
  }

  /** The technicians' part of the ledger. */
  ghost predicate BillMatches(b: Bill) {
    && (forall kind :: Booked(b.ledger, kind) ==
          (match kind
           case RegularLabor => b.charge.regular
           case OvertimeBase => b.charge.base
           case OvertimePremium => b.charge.premium
           case _ => 0))
    && LedgerTotal(b.ledger) == Paid(b.charge)
    && NoZeros(b.ledger)
  }

  lemma AddChargeMatches(b: Bill, t: Id, c: Charge, committed: int)
    requires BillMatches(b)
    ensures BillMatches(AddCharge(b, t, c, committed))
  {
    var one := b.ledger + Line(RegularLabor, Some(t), c.regular);
    var two := one + Line(OvertimeBase, Some(t), c.base);
    var three := two + Line(OvertimePremium, Some(t), c.premium);
    hide Booked, Line, LedgerTotal, NoZeros;
    var after := AddCharge(b, t, c, committed);
    assert after.ledger == three;
    forall kind ensures Booked(after.ledger, kind) ==
          (match kind
           case RegularLabor => after.charge.regular
           case OvertimeBase => after.charge.base
           case OvertimePremium => after.charge.premium
           case _ => 0)
    {
      BookedLine(b.ledger, RegularLabor, Some(t), c.regular, kind);
      BookedLine(one, OvertimeBase, Some(t), c.base, kind);
      BookedLine(two, OvertimePremium, Some(t), c.premium, kind);
    }
    BookedLine(b.ledger, RegularLabor, Some(t), c.regular, RegularLabor);
    BookedLine(one, OvertimeBase, Some(t), c.base, RegularLabor);
    BookedLine(two, OvertimePremium, Some(t), c.premium, RegularLabor);
  }

  lemma {:induction false} BillBalances(e: Terms, ks: seq<TechnicianKpi>)
    ensures BillMatches(BillOf(e, ks))
  {
    if ks == [] {
    } else {
      BillBalances(e, ks[..|ks| - 1]);
      var k := ks[|ks| - 1];
      if k.tech in e.technicians {
        var t := e.technicians[k.tech];
        AddChargeMatches(BillOf(e, ks[..|ks| - 1]), t.id, ChargeOf(e, t, k), CommittedOf(e, t));
      }
    }
  }

  // ----- technician costs -----

  /** The cost of the listed technicians, counting a technician without a cost as nothing. */
  function CostSum(costs: map<Id, int>, ids: seq<Id>): int {
    if ids == [] then 0
    else CostSum(costs, ids[..|ids| - 1]) + if ids[|ids| - 1] in costs then costs[ids[|ids| - 1]] else 0
  }

  function RowIds(ks: seq<TechnicianKpi>): seq<Id> {
    seq(|ks|, i requires 0 <= i < |ks| => ks[i].tech)
  }

  lemma {:induction false} CostSumSkips(costs: map<Id, int>, ids: seq<Id>, t: Id, amount: int)
    requires t !in ids
    ensures CostSum(costs[t := amount], ids) == CostSum(costs, ids)
  {
    if ids != [] {
      assert ids[|ids| - 1] in ids;
      CostSumSkips(costs, ids[..|ids| - 1], t, amount);
    }
  }

  /** With one KPI row per technician, the technician costs add up to the labour cost. */
  lemma {:induction false} CostsAddUp(e: Terms, ks: seq<TechnicianKpi>)
    requires Distinct(RowIds(ks)) && forall t :: t in e.technicians ==> e.technicians[t].id == t
    ensures var b := BillOf(e, ks);
            CostSum(b.costs, RowIds(ks)) == Paid(b.charge)
            && (forall t :: t in b.costs <==> t in RowIds(ks) && t in e.technicians)
            && (forall t :: t in b.costs ==> BookedFor(b.ledger, t) == b.costs[t])
            && (forall t :: t !in b.costs ==> BookedFor(b.ledger, t) == 0)
  {
    if ks != [] {
      var front, k := ks[..|ks| - 1], ks[|ks| - 1];
      var ids := RowIds(ks);
      assert ids[..|ks| - 1] == RowIds(front);
      assert Distinct(RowIds(front)) by {
        forall i, j | 0 <= i < j < |front| ensures RowIds(front)[i] != RowIds(front)[j] {
          assert ids[i] != ids[j];
        }
      }
      assert k.tech !in RowIds(front) by {
        forall j | 0 <= j < |front| ensures RowIds(front)[j] != k.tech {
          assert ids[j] != ids[|ks| - 1];
        }
      }
      assert ids == RowIds(front) + [k.tech];
      CostsAddUp(e, front);
      var before := BillOf(e, front);
      if k.tech in e.technicians {
        var c := ChargeOf(e, e.technicians[k.tech], k);
        CostSumSkips(before.costs, RowIds(front), k.tech, Paid(c));
        forall t ensures BookedFor(BillOf(e, ks).ledger, t)
                      == BookedFor(before.ledger, t) + if t == k.tech then Paid(c) else 0
        {
          BookedForJoin(before.ledger, ChargeLines(k.tech, c), t);
          BookedForCharge(k.tech, c, t);
        }
      } else {
        assert k.tech !in before.costs;
      }
    }
  }

  lemma BookedForCharge(id: Id, c: Charge, t: Id)
    ensures BookedFor(ChargeLines(id, c), t) == if t == id then Paid(c) else 0
  {
    var a, b, d := Line(RegularLabor, Some(id), c.regular), Line(OvertimeBase, Some(id), c.base),
                   Line(OvertimePremium, Some(id), c.premium);
    BookedForJoin(a + b, d, t);
    BookedForJoin(a, b, t);
  }

  // ----- the whole analysis -----

  function Labor(b: Breakdown): int {
    b.regular + b.base + b.premium
  }

  /** What the components are, one by one. */
  ghost predicate BreakdownOf(sc: Scenario, kpis: ScheduleKpi, s: Schedule, e: Terms, outsourced: nat, b: Breakdown) {
    var bill := BillOf(e, kpis.technicians);
    && b.regular == bill.charge.regular && b.base == bill.charge.base && b.premium == bill.charge.premium
    && b.technicianCosts == bill.costs
    && b.fullDayCommitted == (if e.policy.mode.PaidShift? then bill.committed else bill.charge.regular)
    && b.travel == kpis.totalTravel * e.policy.travelRate
    && b.slaPenalty == SlaMinutes(s.assignments) * e.policy.slaRate
    && b.unservedRevenue == LostRevenue(e.policy, OrderIndex(sc.orders), s.unassigned)
    && b.outsourcing == outsourced * e.policy.outsourcingRate
    && b.cash == Labor(b) + b.travel + b.outsourcing
    && b.serviceFailure == b.slaPenalty + b.unservedRevenue
    && b.total == b.cash + b.serviceFailure
    && b.ledger == Closed(bill.ledger, b.travel, b.outsourcing, b.slaPenalty, b.unservedRevenue)
  }

  function TermsOf(sc: Scenario, s: Schedule, p: Policy, scope: Scope, sources: map<Id, WageSource>): Terms {
    Terms(TechnicianIndex(sc.technicians), p, scope, sources, set a | a in s.assignments :: a.techId)
  }

  /** The technician costs add up to the labour cost and are what the ledger books for each technician. */
  ghost predicate CostsMatch(b: Breakdown, rows: seq<Id>, technicians: map<Id, Technician>) {
    && CostSum(b.technicianCosts, rows) == Labor(b)
    && (forall t :: t in b.technicianCosts <==> t in rows && t in technicians)
    && (forall t :: BookedFor(b.ledger, t) == if t in b.technicianCosts then b.technicianCosts[t] else 0)
  }

  lemma BookedForNobody(a: seq<Component>, kind: Kind, amount: int, t: Id)
    ensures BookedFor(a + Line(kind, None, amount), t) == BookedFor(a, t)
  {
    BookedForJoin(a, Line(kind, None, amount), t);
  }

  /** The ledger after the technicians' lines. */
  function Closed(ledger: seq<Component>, travel: int, outsourcing: int, penalty: int, lost: int): seq<Component> {
    ledger + Line(TravelMinutes, None, travel) + Line(Outsourcing, None, outsourcing)
    + Line(SlaPenalty, None, penalty) + Line(UnservedRevenue, None, lost)
  }

  lemma ClosedBooks(b: Bill, travel: int, outsourcing: int, penalty: int, lost: int)
    requires BillMatches(b)
    ensures var l := Closed(b.ledger, travel, outsourcing, penalty, lost);
            && LedgerTotal(l) == Paid(b.charge) + travel + outsourcing + penalty + lost
            && NoZeros(l)
            && (forall kind :: Booked(l, kind) ==
                  (match kind
                   case RegularLabor => b.charge.regular
                   case OvertimeBase => b.charge.base
                   case OvertimePremium => b.charge.premium
                   case TravelMinutes => travel
                   case Outsourcing => outsourcing
                   case SlaPenalty => penalty
                   case UnservedRevenue => lost))
            && (forall t :: BookedFor(l, t) == BookedFor(b.ledger, t))
  {
    var one := b.ledger + Line(TravelMinutes, None, travel);
    var two := one + Line(Outsourcing, None, outsourcing);
    var three := two + Line(SlaPenalty, None, penalty);
    hide Booked, BookedFor, Line, LedgerTotal, NoZeros;
    forall kind ensures Booked(Closed(b.ledger, travel, outsourcing, penalty, lost), kind) == Booked(b.ledger, kind)
      + (match kind
         case TravelMinutes => travel
         case Outsourcing => outsourcing
         case SlaPenalty => penalty
         case UnservedRevenue => lost
         case _ => 0)
    {
      BookedLine(b.ledger, TravelMinutes, None, travel, kind);
      BookedLine(one, Outsourcing, None, outsourcing, kind);
      BookedLine(two, SlaPenalty, None, penalty, kind);
      BookedLine(three, UnservedRevenue, None, lost, kind);
    }
    BookedLine(b.ledger, TravelMinutes, None, travel, SlaPenalty);
    BookedLine(one, Outsourcing, None, outsourcing, SlaPenalty);
    BookedLine(two, SlaPenalty, None, penalty, SlaPenalty);
    BookedLine(three, UnservedRevenue, None, lost, SlaPenalty);
    forall t ensures BookedFor(Closed(b.ledger, travel, outsourcing, penalty, lost), t) == BookedFor(b.ledger, t) {
      BookedForNobody(b.ledger, TravelMinutes, travel, t);
      BookedForNobody(one, Outsourcing, outsourcing, t);
      BookedForNobody(two, SlaPenalty, penalty, t);
      BookedForNobody(three, UnservedRevenue, lost, t);
    }
  }

  lemma BreakdownBalances(sc: Scenario, kpis: ScheduleKpi, s: Schedule, e: Terms, outsourced: nat, b: Breakdown)
    requires BreakdownOf(sc, kpis, s, e, outsourced, b) && e.technicians == TechnicianIndex(sc.technicians)
    ensures LedgerMatches(b)
    ensures Distinct(RowIds(kpis.technicians)) ==>
              CostsMatch(b, RowIds(kpis.technicians), TechnicianIndex(sc.technicians))
  {
    var bill := BillOf(e, kpis.technicians);
    BillBalances(e, kpis.technicians);
    hide BillOf, Closed, Booked, BookedFor, LedgerTotal, CostSum, SlaMinutes, LostRevenue;
    ClosedBooks(bill, b.travel, b.outsourcing, b.slaPenalty, b.unservedRevenue);
    if Distinct(RowIds(kpis.technicians)) {
      forall t | t in e.technicians ensures e.technicians[t].id == t {
        TechnicianIndexSound(sc.technicians, t);
      }
      CostsAddUp(e, kpis.technicians);
    }
  }

  /**
    `analyze_plan_cost`: the breakdown, and a ledger whose lines add up to every
    figure of the breakdown, kind by kind and technician by technician.
   */
  method AnalyzePlanCost(sc: Scenario, kpis: ScheduleKpi, s: Schedule, p: Policy, outsourced: nat, scope: Scope,
                         sources: map<Id, WageSource>)
    returns (r: Outcome)
    ensures r.LaborModeNotSupported? <==> p.mode.SalariedAllocation?
    ensures r.Costed? ==> BreakdownOf(sc, kpis, s, TermsOf(sc, s, p, scope, sources), outsourced, r.value)
                          && LedgerMatches(r.value)
    ensures r.Costed? && Distinct(RowIds(kpis.technicians)) ==>
              CostsMatch(r.value, RowIds(kpis.technicians), TechnicianIndex(sc.technicians))
  {
    if p.mode.SalariedAllocation? {
      return LaborModeNotSupported;
    }
    hide LedgerMatches, CostsMatch, BillOf, SlaMinutes, LostRevenue, Line;
    var e := TermsOf(sc, s, p, scope, sources);
    var bill := BillTechnicians(e, kpis.technicians);
    var travel := kpis.totalTravel * p.travelRate;
    var late, lost := ServiceFailure(p, OrderIndex(sc.orders), s);
    var penalty := late * p.slaRate;
    var outsourcing := outsourced * p.outsourcingRate;
    var ledger := bill.ledger + Line(TravelMinutes, None, travel);
    ledger := ledger + Line(Outsourcing, None, outsourcing);
    ledger := ledger + Line(SlaPenalty, None, penalty);
    ledger := ledger + Line(UnservedRevenue, None, lost);
    var labor := bill.charge.regular + bill.charge.base + bill.charge.premium;
    var cash := labor + travel + outsourcing;
    var b := Breakdown(bill.charge.regular, bill.charge.base, bill.charge.premium, travel, penalty, lost, outsourcing,
                       cash, penalty + lost, cash + penalty + lost, bill.costs,
                       if p.mode.PaidShift? then bill.committed else bill.charge.regular, ledger);
    BreakdownBalances(sc, kpis, s, e, outsourced, b);
    r := Costed(b);
  }
}
