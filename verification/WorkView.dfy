/**
  `_analysis_work_view`: the part of a published replan that is still to be
  done. Frozen visits are dropped, routes renumbered, and the depot of every
  re-entered technician moved to the route's true terminal. The view of an
  accepted replan is proved to be an accepted plan of its own.
 */
module WorkView {
  import opened Domain
  import opened Sorting
  import opened Routes
  import opened Capacity
  import V = Verifier

  // ----- the scoped scenario -----

  function ScopeTechnician(entries: map<Id, RouteEntry>, t: Technician): Technician {
    if t.id in entries then t.(depot := entries[t.id].returnTo) else t
  }

  function ScopeTechnicians(entries: map<Id, RouteEntry>, ts: seq<Technician>): (r: seq<Technician>)
    ensures |r| == |ts|
  {
    seq(|ts|, i requires 0 <= i < |ts| => ScopeTechnician(entries, ts[i]))
  }

  function OpenOrders(orders: seq<WorkOrder>, frozen: set<Id>): seq<WorkOrder> {
    if orders == [] then []
    else OpenOrders(orders[..|orders| - 1], frozen)
         + (if orders[|orders| - 1].id in frozen then [] else [orders[|orders| - 1]])
  }

  function OpenLocks(locks: seq<Lock>, frozen: set<Id>): seq<Lock> {
    if locks == [] then []
    else OpenLocks(locks[..|locks| - 1], frozen)
         + (if locks[|locks| - 1].orderId in frozen then [] else [locks[|locks| - 1]])
  }

  function Scoped(sc: Scenario, entries: map<Id, RouteEntry>, frozen: set<Id>): Scenario {
    Scenario(ScopeTechnicians(entries, sc.technicians), OpenOrders(sc.orders, frozen), OpenLocks(sc.locks, frozen))
  }

  // ----- the scoped schedule -----

  /** The visits that were not frozen. */
  function Unfrozen(s: seq<Assignment>, frozen: set<Id>): seq<Assignment> {
    if s == [] then []
    else Unfrozen(s[..|s| - 1], frozen) + (if s[|s| - 1].orderId in frozen then [] else [s[|s| - 1]])
  }

  /** `enumerate(route, start=1)`. */
  function Numbered(r: seq<Assignment>): (n: seq<Assignment>)
    ensures |n| == |r|
  {
    seq(|r|, i requires 0 <= i < |r| => r[i].(sequence := i + 1))
  }

  function ActiveOnly(ids: seq<Id>, active: set<Id>): seq<Id> {
    if ids == [] then []
    else ActiveOnly(ids[..|ids| - 1], active) + (if ids[|ids| - 1] in active then [ids[|ids| - 1]] else [])
  }

  /** What the view promises: a sorted roster whose routes are the renumbered unfrozen routes. */
  ghost predicate IsView(scoped: Scenario, frozen: set<Id>, s: Schedule, v: Schedule) {
    && SortedBy(RosterOrder, v.assignments)
    && (forall t :: Route(v.assignments, t) == Numbered(Route(Unfrozen(s.assignments, frozen), t)))
    && v.unassigned == ActiveOnly(s.unassigned, ActiveOrders(scoped).Keys)
  }

  lemma NumberedRoute(r: seq<Assignment>)
    ensures Contiguous(Numbered(r)) && Sort(SequenceOrder, Numbered(r)) == Numbered(r)
  {
    SortIdentity(SequenceOrder, Numbered(r));
  }

  lemma {:induction false} MineConcat(a: seq<Assignment>, b: seq<Assignment>, t: Id)
    ensures Mine(a + b, t) == Mine(a, t) + Mine(b, t)
  {
    if b == [] {
      assert a + b == a && Mine(a, t) + [] == Mine(a, t);
    } else {
      assert (a + b)[..|a + b| - 1] == a + b[..|b| - 1];
      MineConcat(a, b[..|b| - 1], t);
      assert (a + b)[|a + b| - 1] == b[|b| - 1];
    }
  }

  lemma {:induction false} MineOfOne(b: seq<Assignment>, owner: Id, t: Id)
    requires forall a :: a in b ==> a.techId == owner
    ensures Mine(b, t) == if t == owner then b else []
  {
    if b != [] {
      assert b[|b| - 1] in b;
      assert forall a :: a in b[..|b| - 1] ==> a in b;
      MineOfOne(b[..|b| - 1], owner, t);
      assert b == b[..|b| - 1] + [b[|b| - 1]];
    }
  }

  lemma AppendNumbered(list: seq<Assignment>, kept: seq<Assignment>, t: Id)
    ensures forall x :: Mine(list + Numbered(Route(kept, t)), x)
                     == Mine(list, x) + (if x == t then Numbered(Route(kept, t)) else [])
  {
    var numbered := Numbered(Route(kept, t));
    forall a | a in numbered ensures a.techId == t {
      var i :| 0 <= i < |numbered| && numbered[i] == a;
      RouteMembers(kept, t, Route(kept, t)[i]);
    }
    forall x ensures Mine(list + numbered, x) == Mine(list, x) + (if x == t then numbered else []) {
      MineConcat(list, numbered, x);
      MineOfOne(numbered, t, x);
    }
  }

  /** The routes of the technicians done so far, and nothing else. */
  ghost predicate Assembled(list: seq<Assignment>, kept: seq<Assignment>, done: set<Id>) {
    forall t :: Mine(list, t) == if t in done then Numbered(Route(kept, t)) else []
  }

  lemma AssembleOne(list: seq<Assignment>, kept: seq<Assignment>, done: set<Id>, t: Id)
    requires Assembled(list, kept, done) && t !in done
    ensures Assembled(list + Numbered(Route(kept, t)), kept, done + {t})
  {
    hide Numbered, Mine, Route;
    AppendNumbered(list, kept, t);
  }

  lemma AssembledAll(list: seq<Assignment>, kept: seq<Assignment>, grouped: map<Id, seq<Assignment>>)
    requires Assembled(list, kept, grouped.Keys) && forall t :: V.Bucket(grouped, t) == Mine(kept, t)
    ensures forall t :: Mine(list, t) == Numbered(Route(kept, t))
  {
    hide Mine;
    forall t ensures Mine(list, t) == Numbered(Route(kept, t)) {
      assert V.Bucket(grouped, t) == Mine(kept, t);
    }
  }

  /** Numbers one route after the other. */
  method NumberRoutes(kept: seq<Assignment>) returns (list: seq<Assignment>)
    ensures forall t :: Mine(list, t) == Numbered(Route(kept, t))
  {
    var grouped := V.Grouped(kept);
    list := [];
    var todo := grouped.Keys;
    while todo != {}
      invariant todo <= grouped.Keys && Assembled(list, kept, grouped.Keys - todo)
      decreases todo
    {
      hide Numbered, Mine, Assembled, Sort;
      var t :| t in todo;
      assert V.Bucket(grouped, t) == grouped[t];
      assert Sort(SequenceOrder, grouped[t]) == Route(kept, t);
      AssembleOne(list, kept, grouped.Keys - todo, t);
      list := list + Numbered(Sort(SequenceOrder, grouped[t]));
      assert grouped.Keys - (todo - {t}) == grouped.Keys - todo + {t};
      todo := todo - {t};
    }
    assert grouped.Keys - {} == grouped.Keys;
    AssembledAll(list, kept, grouped);
  }

  /** The renumbering loop over the grouped routes, and the final sort of the roster. */
  method Renumber(kept: seq<Assignment>) returns (out: seq<Assignment>)
    ensures SortedBy(RosterOrder, out)
    ensures forall t :: Route(out, t) == Numbered(Route(kept, t))
  {
    var list := NumberRoutes(kept);
    out := Sort(RosterOrder, list);
    OrdersAreTotal();
    SortSorted(RosterOrder, list);
    SortContents(RosterOrder, list);
    forall t ensures Route(out, t) == Numbered(Route(kept, t)) {
      NumberedRoute(Route(kept, t));
      RoutePermutation(list, out, t);
    }
  }

  method AnalysisWorkView(sc: Scenario, s: Schedule, entries: map<Id, RouteEntry>, frozen: set<Id>)
    returns (scoped: Scenario, v: Schedule)
    ensures scoped == Scoped(sc, entries, frozen) && IsView(scoped, frozen, s, v)
  {
    var technicians: seq<Technician> := [];
    for i := 0 to |sc.technicians|
      invariant technicians == ScopeTechnicians(entries, sc.technicians)[..i]
    {
      var t := sc.technicians[i];
      if t.id in entries {
        t := t.(depot := entries[t.id].returnTo);
      }
      technicians := technicians + [t];
    }
    scoped := Scenario(technicians, OpenOrders(sc.orders, frozen), OpenLocks(sc.locks, frozen));
    var kept: seq<Assignment> := [];
    for i := 0 to |s.assignments|
      invariant kept == Unfrozen(s.assignments[..i], frozen)
    {
      assert s.assignments[..i + 1][..i] == s.assignments[..i];
      if s.assignments[i].orderId !in frozen {
        kept := kept + [s.assignments[i]];
      }
    }
    assert s.assignments[..|s.assignments|] == s.assignments;
    var roster := Renumber(kept);
    v := Schedule(roster, ActiveOnly(s.unassigned, ActiveOrders(scoped).Keys));
  }
}
