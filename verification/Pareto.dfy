/**
  Marking the candidates of an experiment that no other candidate dominates,
  with a tolerance on every comparison.
 */
module Pareto {
  import opened Domain

  const TOLERANCE := 0.000000001
  const TICKS := 10000

  /** Incompleteness, lateness, travel, overtime and workload spread; smaller is better. */
  datatype Metrics = Metrics(missing: real, late: real, travel: real, overtime: real, spread: real)

  function ValuesOf(m: Metrics): (r: seq<real>)
    ensures |r| == 5
  {
    [m.missing, m.late, m.travel, m.overtime, m.spread]
  }

  datatype Entry = Entry(id: Id, metrics: Metrics)

  predicate NoWorse(a: seq<real>, b: seq<real>)
    requires |a| == |b|
  {
    forall i :: 0 <= i < |a| ==> a[i] <= b[i] + TOLERANCE
  }

  predicate StrictlyBetter(a: seq<real>, b: seq<real>)
    requires |a| == |b|
  {
    exists i :: 0 <= i < |a| && a[i] < b[i] - TOLERANCE
  }

  /** `a` dominates `b`; a candidate never dominates one with its own id. */
  predicate Dominates(a: Entry, b: Entry) {
    a.id != b.id && NoWorse(ValuesOf(a.metrics), ValuesOf(b.metrics))
    && StrictlyBetter(ValuesOf(a.metrics), ValuesOf(b.metrics))
  }

  /** The ids of the candidates that dominate `c`, in list order. */
  function DominatedBy(es: seq<Entry>, c: Entry): seq<Id> {
    if es == [] then []
    else DominatedBy(es[..|es| - 1], c) + if Dominates(es[|es| - 1], c) then [es[|es| - 1].id] else []
  }

  class Candidate {
    const entry: Entry
    var dominatedBy: seq<Id>
    var paretoOptimal: bool

    constructor (entry: Entry)
      ensures this.entry == entry
    {
      this.entry, dominatedBy, paretoOptimal := entry, [], false;
    }
  }

  function Entries(cs: seq<Candidate>): (es: seq<Entry>)
    ensures |es| == |cs| && forall i :: 0 <= i < |cs| ==> es[i] == cs[i].entry
  {
    seq(|cs|, i requires 0 <= i < |cs| => cs[i].entry)
  }

  /** The inner loop: who dominates this candidate. */
  method FindDominators(es: seq<Entry>, c: Entry) returns (found: seq<Id>)
    ensures found == DominatedBy(es, c)
  {
    hide NoWorse, StrictlyBetter, ValuesOf;
    found := [];
    for j := 0 to |es|
      invariant found == DominatedBy(es[..j], c)
    {
      assert es[..j + 1][..j] == es[..j];
      if es[j].id != c.id {
        var mine, other := ValuesOf(c.metrics), ValuesOf(es[j].metrics);
        if NoWorse(other, mine) && StrictlyBetter(other, mine) {
          found := found + [es[j].id];
        }
      }
    }
    assert es[..|es|] == es;
  }

  /** `mark_pareto_candidates`. */
  method MarkParetoCandidates(cs: seq<Candidate>)
    modifies set c | c in cs
    ensures forall c :: c in cs ==> c.dominatedBy == DominatedBy(Entries(cs), c.entry)
    ensures forall c :: c in cs ==> (c.paretoOptimal <==> c.dominatedBy == [])
  {
    hide DominatedBy;
    for i := 0 to |cs|
      invariant forall k :: 0 <= k < i ==> cs[k].dominatedBy == DominatedBy(Entries(cs), cs[k].entry)
      invariant forall k :: 0 <= k < i ==> (cs[k].paretoOptimal <==> cs[k].dominatedBy == [])
    {
      var found := FindDominators(Entries(cs), cs[i].entry);
      cs[i].dominatedBy := found;
      cs[i].paretoOptimal := found == [];
    }
  }

  // ----- on a grid coarser than the tolerance, the tolerance does not show -----

  function Tick(g: real, k: int): real {
    k as real * g
  }

  /** A multiple of the step `g`. */
  ghost predicate OnGrid(g: real, x: real) {
    exists k :: x == Tick(g, k)
  }

  ghost predicate EntryOnGrid(g: real, e: Entry) {
    forall i :: 0 <= i < 5 ==> OnGrid(g, ValuesOf(e.metrics)[i])
  }

  lemma TicksApart(g: real, i: int, j: int)
    requires g > 0.0 && i < j
    ensures Tick(g, j) >= Tick(g, i) + g
  {
    var n := j - i - 1;
    assert n as real * g >= 0.0;
    assert j as real == i as real + n as real + 1.0;
    assert Tick(g, j) == (i as real + n as real + 1.0) * g == i as real * g + n as real * g + g;
  }

  lemma TicksCompare(g: real, x: real, y: real)
    requires g > TOLERANCE && OnGrid(g, x) && OnGrid(g, y)
    ensures x <= y + TOLERANCE <==> x <= y
    ensures x < y - TOLERANCE <==> x < y
  {
    var i: int :| x == Tick(g, i);
    var j: int :| y == Tick(g, j);
    hide Tick;
    if i < j {
      TicksApart(g, i, j);
    } else if j < i {
      TicksApart(g, j, i);
    }
  }

  lemma DominatesExactly(g: real, a: Entry, b: Entry)
    requires g > TOLERANCE && EntryOnGrid(g, a) && EntryOnGrid(g, b)
    ensures var x, y := ValuesOf(a.metrics), ValuesOf(b.metrics);
            Dominates(a, b) <==> a.id != b.id && (forall i :: 0 <= i < 5 ==> x[i] <= y[i])
                                 && (exists i :: 0 <= i < 5 && x[i] < y[i])
  {
    hide OnGrid;
    var x, y := ValuesOf(a.metrics), ValuesOf(b.metrics);
    forall i | 0 <= i < 5
      ensures (x[i] <= y[i] + TOLERANCE <==> x[i] <= y[i]) && (x[i] < y[i] - TOLERANCE <==> x[i] < y[i])
    {
      TicksCompare(g, x[i], y[i]);
    }
  }

  /** A list of candidates with distinct ids whose metrics lie on the grid. */
  ghost predicate GridList(g: real, es: seq<Entry>) {
    && (forall e :: e in es ==> EntryOnGrid(g, e))
    && (forall i, j :: 0 <= i < j < |es| ==> es[i].id != es[j].id)
  }

  /** On a coarse grid dominance is a strict partial order. */
  lemma StrictPartialOrder(g: real, a: Entry, b: Entry, c: Entry)
    requires g > TOLERANCE && EntryOnGrid(g, a) && EntryOnGrid(g, b) && EntryOnGrid(g, c)
    ensures !Dominates(a, a)
    ensures Dominates(a, b) ==> !Dominates(b, a)
    ensures Dominates(a, b) && Dominates(b, c) && a.id != c.id ==> Dominates(a, c)
    ensures Dominates(a, b) && Dominates(b, c) && a.id == c.id ==> a.metrics != c.metrics
  {
    hide EntryOnGrid, Dominates;
    DominatesExactly(g, a, b);
    DominatesExactly(g, b, a);
    DominatesExactly(g, b, c);
    DominatesExactly(g, a, c);
    DominatesExactly(g, a, a);
  }

  predicate Optimal(es: seq<Entry>, c: Entry) {
    DominatedBy(es, c) == []
  }

  lemma {:induction false} OptimalExactly(es: seq<Entry>, c: Entry)
    ensures Optimal(es, c) <==> forall e :: e in es ==> !Dominates(e, c)
  {
    if es != [] {
      assert es == es[..|es| - 1] + [es[|es| - 1]];
      OptimalExactly(es[..|es| - 1], c);
    }
  }

  ghost function Dominators(es: seq<Entry>, c: Entry): set<Entry> {
    set e | e in es && Dominates(e, c)
  }

  /** Every candidate is optimal or is dominated by an optimal one. */
  lemma {:induction false} DominatedByOptimal(g: real, es: seq<Entry>, c: Entry) returns (d: Entry)
    requires g > TOLERANCE && GridList(g, es) && c in es
    ensures d in es && Optimal(es, d) && (d == c || Dominates(d, c))
    decreases |Dominators(es, c)|
  {
    hide EntryOnGrid, Dominates;
    OptimalExactly(es, c);
    if Optimal(es, c) {
      d := c;
    } else {
      var e :| e in es && Dominates(e, c);
      FewerDominators(g, es, e, c);
      d := DominatedByOptimal(g, es, e);
      if d != e {
        ChainDominates(g, es, d, e, c);
      }
    }
  }

  lemma ChainDominates(g: real, es: seq<Entry>, a: Entry, b: Entry, c: Entry)
    requires g > TOLERANCE && GridList(g, es) && a in es && b in es && c in es && Dominates(a, b) && Dominates(b, c)
    ensures Dominates(a, c)
  {
    hide EntryOnGrid, Dominates;
    StrictPartialOrder(g, a, b, c);
    if a.id == c.id {
      SameIdSame(g, es, a, c);
    }
  }

  lemma SameIdSame(g: real, es: seq<Entry>, a: Entry, b: Entry)
    requires GridList(g, es) && a in es && b in es && a.id == b.id
    ensures a == b
  {
    var i :| 0 <= i < |es| && es[i] == a;
    var j :| 0 <= j < |es| && es[j] == b;
  }

  lemma FewerDominators(g: real, es: seq<Entry>, e: Entry, c: Entry)
    requires g > TOLERANCE && GridList(g, es) && e in es && c in es && Dominates(e, c)
    ensures |Dominators(es, e)| < |Dominators(es, c)|
  {
    hide EntryOnGrid, Dominates, GridList;
    forall x | x in Dominators(es, e) ensures x in Dominators(es, c) {
      ChainDominates(g, es, x, e, c);
    }
    NotItself(e);
    assert e in Dominators(es, c) && e !in Dominators(es, e);
    var rest := Dominators(es, c) - Dominators(es, e);
    assert Dominators(es, c) == Dominators(es, e) + rest && e in rest;
  }

  lemma NotItself(e: Entry)
    ensures !Dominates(e, e)
  {
  }

  // ----- exactly when the marking is sound -----

  /** Every non-empty list on the grid has an optimal candidate. */
  ghost predicate AlwaysOptimal(g: real) {
    forall es :: GridList(g, es) && es != [] ==> exists d :: d in es && Optimal(es, d)
  }

  /** The largest multiple of a fine step that the tolerance still hides. */
  lemma HiddenTick(g: real) returns (k: nat)
    requires 0.0 < g <= TOLERANCE
    ensures Tick(g, k) <= TOLERANCE < 2.0 * Tick(g, k)
  {
    k := 1;
    while Tick(g, k + 1) <= TOLERANCE
      invariant k >= 1 && Tick(g, k) <= TOLERANCE
      decreases (TOLERANCE / g - k as real).Floor
    {
      NextTick(g, k);
      k := k + 1;
    }
    TickSum(g, k);
  }

  lemma TickSum(g: real, k: nat)
    requires g > 0.0 && k >= 1
    ensures Tick(g, k + 1) == Tick(g, k) + g && g <= Tick(g, k)
  {
    assert (k as real - 1.0) * g >= 0.0;
    assert (k as real - 1.0) * g == k as real * g - g;
    assert (k + 1) as real * g == k as real * g + g;
  }

  lemma NextTick(g: real, k: nat)
    requires g > 0.0 && Tick(g, k + 1) <= TOLERANCE
    ensures TOLERANCE / g >= (k + 1) as real
  {
    assert TOLERANCE == (TOLERANCE / g) * g;
    if TOLERANCE / g < (k + 1) as real {
      ScaledOrder(TOLERANCE / g, (k + 1) as real, g);
    }
  }

  lemma ScaledOrder(x: real, y: real, g: real)
    requires x < y && g > 0.0
    ensures x * g < y * g
  {
    assert (y - x) * g > 0.0;
    assert (y - x) * g == y * g - x * g;
  }

  /** Three candidates that dominate each other in a ring, each hidden step apart. */
  function Ring(p: Id, u: real, n: nat): Entry {
    Entry(p, match n
             case 0 => Metrics(0.0, u, 2.0 * u, 0.0, 0.0)
             case 1 => Metrics(2.0 * u, 0.0, u, 0.0, 0.0)
             case _ => Metrics(u, 2.0 * u, 0.0, 0.0, 0.0))
  }

  lemma RingHasNoOptimal(u: real, p: Id, q: Id, r: Id)
    requires p != q && q != r && p != r && u <= TOLERANCE < 2.0 * u
    ensures forall d :: d in [Ring(p, u, 0), Ring(q, u, 1), Ring(r, u, 2)] ==>
              !Optimal([Ring(p, u, 0), Ring(q, u, 1), Ring(r, u, 2)], d)
  {
    var a, b, c := Ring(p, u, 0), Ring(q, u, 1), Ring(r, u, 2);
    Beats(a, b, 0);
    Beats(b, c, 1);
    Beats(c, a, 2);
    hide Dominates, Optimal, Ring;
    OptimalExactly([a, b, c], a);
    OptimalExactly([a, b, c], b);
    OptimalExactly([a, b, c], c);
  }

  lemma Beats(a: Entry, b: Entry, i: nat)
    requires a.id != b.id && i < 5 && ValuesOf(a.metrics)[i] < ValuesOf(b.metrics)[i] - TOLERANCE
    requires NoWorse(ValuesOf(a.metrics), ValuesOf(b.metrics))
    ensures Dominates(a, b)
  {
  }

  /**
    Every list of candidates with metrics on a grid has an optimal one if and
    only if the step of the grid is larger than the tolerance. The program
    rounds to four decimals, far above it.
   */
  lemma OptimalExactlyOnCoarseGrids(g: real)
    requires g > 0.0
    ensures AlwaysOptimal(g) <==> g > TOLERANCE
    ensures 1.0 / TICKS as real > TOLERANCE
  {
    if g > TOLERANCE {
      forall es | GridList(g, es) && es != [] ensures exists d :: d in es && Optimal(es, d) {
        var d := DominatedByOptimal(g, es, es[0]);
      }
    } else {
      var k := HiddenTick(g);
      var u := Tick(g, k);
      var es := [Ring(Id(1), u, 0), Ring(Id(2), u, 1), Ring(Id(3), u, 2)];
      RingOnGrid(g, k);
      RingHasNoOptimal(u, Id(1), Id(2), Id(3));
      assert GridList(g, es) && es != [];
    }
  }

  lemma RingOnGrid(g: real, k: nat)
    ensures var u := Tick(g, k);
            GridList(g, [Ring(Id(1), u, 0), Ring(Id(2), u, 1), Ring(Id(3), u, 2)])
  {
    var u := Tick(g, k);
    assert Tick(g, 0) == 0.0 && Tick(g, 2 * k) == 2.0 * u by {
      assert (2 * k) as real * g == 2.0 * (k as real * g);
    }
    assert OnGrid(g, 0.0) && OnGrid(g, u) && OnGrid(g, 2.0 * u);
  }
}
