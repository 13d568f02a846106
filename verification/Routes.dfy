/**
  Grouping a schedule by technician and ordering each group by its sequence
  number, as every checker, simulator and metric of the program does first.
 */
module Routes {
  import opened Domain
  import opened Sorting

  predicate SequenceOrder(a: Assignment, b: Assignment) {
    a.sequence <= b.sequence
  }

  lemma SequenceOrderIsTotal()
    ensures TotalPreorder(SequenceOrder)
  {
  }

  /** The assignments of one technician, in list order. */
  function Mine(s: seq<Assignment>, t: Id): (r: seq<Assignment>)
    ensures forall a :: a in r ==> a.techId == t
  {
    if s == [] then []
    else Mine(s[..|s| - 1], t) + (if s[|s| - 1].techId == t then [s[|s| - 1]] else [])
  }

  /** `sorted(grouped[technician_id], key=sequence)`. */
  function Route(s: seq<Assignment>, t: Id): seq<Assignment> {
    Sort(SequenceOrder, Mine(s, t))
  }

  /** `[item.sequence for item in ordered] == list(range(1, len(ordered) + 1))`. */
  predicate Contiguous(r: seq<Assignment>) {
    forall i :: 0 <= i < |r| ==> r[i].sequence == i + 1
  }

  function Ids(s: seq<Assignment>): (r: seq<Id>)
    ensures |r| == |s|
  {
    seq(|s|, i requires 0 <= i < |s| => s[i].orderId)
  }

  lemma {:induction false} MineMembers(s: seq<Assignment>, t: Id, a: Assignment)
    ensures a in Mine(s, t) <==> a in s && a.techId == t
  {
    if s != [] {
      assert s == s[..|s| - 1] + [s[|s| - 1]];
      MineMembers(s[..|s| - 1], t, a);
    }
  }

  lemma RouteMembers(s: seq<Assignment>, t: Id, a: Assignment)
    ensures a in Route(s, t) <==> a in s && a.techId == t
  {
    MineMembers(s, t, a);
    SortMembers(SequenceOrder, Mine(s, t), a);
  }

  lemma MineAppend(s: seq<Assignment>, t: Id, a: Assignment)
    ensures Mine(s + [a], t) == Mine(s, t) + (if a.techId == t then [a] else [])
  {
    assert (s + [a])[..|s|] == s;
  }

  /** Appending a visit numbered one past a contiguous route extends that route only. */
  lemma RouteAppend(s: seq<Assignment>, t: Id, a: Assignment)
    requires Contiguous(Route(s, t))
    requires a.techId == t ==> a.sequence == |Route(s, t)| + 1
    ensures Route(s + [a], t) == Route(s, t) + (if a.techId == t then [a] else [])
    ensures Contiguous(Route(s + [a], t))
  {
    MineAppend(s, t, a);
    if a.techId == t {
      forall x | x in Mine(s, t) ensures SequenceOrder(x, a) {
        SortMembers(SequenceOrder, Mine(s, t), x);
      }
      SortAppend(SequenceOrder, Mine(s, t), a);
    } else {
      assert Mine(s, t) + [] == Mine(s, t) && Route(s, t) + [] == Route(s, t);
    }
  }

  /** The multiset of one technician's visits. */
  lemma {:induction false} MineContents(s: seq<Assignment>, t: Id, a: Assignment)
    ensures multiset(Mine(s, t))[a] == if a.techId == t then multiset(s)[a] else 0
  {
    if s != [] {
      assert s == s[..|s| - 1] + [s[|s| - 1]];
      MineContents(s[..|s| - 1], t, a);
    }
  }

  lemma MinePermutation(s: seq<Assignment>, r: seq<Assignment>, t: Id)
    requires multiset(s) == multiset(r)
    ensures multiset(Mine(s, t)) == multiset(Mine(r, t))
  {
    forall a ensures multiset(Mine(s, t))[a] == multiset(Mine(r, t))[a] {
      MineContents(s, t, a);
      MineContents(r, t, a);
    }
  }

  lemma ContiguousHasNoTies(s: seq<Assignment>)
    requires Contiguous(Sort(SequenceOrder, s))
    ensures NoTies(SequenceOrder, s)
  {
    forall i, j | 0 <= i < |s| && 0 <= j < |s| && s[i].sequence == s[j].sequence ensures s[i] == s[j] {
      SortMembers(SequenceOrder, s, s[i]);
      SortMembers(SequenceOrder, s, s[j]);
    }
  }

  /** Re-ordering the list of assignments changes no contiguous route. */
  lemma RoutePermutation(s: seq<Assignment>, r: seq<Assignment>, t: Id)
    requires multiset(s) == multiset(r) && Contiguous(Route(s, t))
    ensures Route(r, t) == Route(s, t)
  {
    SequenceOrderIsTotal();
    MinePermutation(s, r, t);
    ContiguousHasNoTies(Mine(s, t));
    SortPermutation(SequenceOrder, Mine(s, t), Mine(r, t));
  }

  /** The position of an assignment on its technician's route. */
  lemma RoutePosition(s: seq<Assignment>, a: Assignment) returns (k: nat)
    requires a in s
    ensures k < |Route(s, a.techId)| && Route(s, a.techId)[k] == a
  {
    RouteMembers(s, a.techId, a);
    k :| 0 <= k < |Route(s, a.techId)| && Route(s, a.techId)[k] == a;
  }

  lemma DistinctAppend(s: seq<Id>, x: Id)
    ensures Distinct(s + [x]) <==> Distinct(s) && x !in s
  {
    if Distinct(s + [x]) {
      forall i, j | 0 <= i < j < |s| ensures s[i] != s[j] {
        assert (s + [x])[i] != (s + [x])[j];
      }
      forall i | 0 <= i < |s| ensures s[i] != x {
        assert (s + [x])[i] != (s + [x])[|s|];
      }
    }
  }

  lemma {:induction false} DistinctIsCounted<T>(s: seq<T>)
    ensures Distinct(s) <==> forall x :: multiset(s)[x] <= 1
  {
    if s != [] {
      var front, last := s[..|s| - 1], s[|s| - 1];
      assert s == front + [last];
      DistinctIsCounted(front);
      if Distinct(s) {
        assert last !in front;
      } else {
        var i, j :| 0 <= i < j < |s| && s[i] == s[j];
        if j < |s| - 1 {
          assert front[i] == front[j];
          var x :| multiset(front)[x] > 1;
          assert multiset(s)[x] > 1;
        } else {
          assert last == front[i];
          assert multiset(s)[last] > 1;
        }
      }
    }
  }

  lemma SortDistinct<T>(leq: (T, T) -> bool, s: seq<T>)
    requires Distinct(s)
    ensures Distinct(Sort(leq, s))
  {
    SortContents(leq, s);
    DistinctIsCounted(s);
    DistinctIsCounted(Sort(leq, s));
  }

  lemma SameMembersSameCounts(a: seq<Id>, b: seq<Id>)
    requires Distinct(a) && Distinct(b) && forall x :: x in a <==> x in b
    ensures multiset(a) == multiset(b)
  {
    DistinctIsCounted(a);
    DistinctIsCounted(b);
    forall x ensures multiset(a)[x] == multiset(b)[x] {
      assert x in a <==> x in multiset(a);
      assert x in b <==> x in multiset(b);
    }
  }

  /** No order is visited twice, said without reference to list positions. */
  ghost predicate VisitedOnce(s: seq<Assignment>) {
    && (forall a :: multiset(s)[a] <= 1)
    && (forall a, b :: a in s && b in s && a.orderId == b.orderId ==> a == b)
  }

  lemma DistinctIdsMeansVisitedOnce(s: seq<Assignment>)
    ensures Distinct(Ids(s)) <==> VisitedOnce(s)
  {
    DistinctIsCounted(s);
    if Distinct(Ids(s)) {
      assert Distinct(s) by {
        forall i, j | 0 <= i < j < |s| ensures s[i] != s[j] {
          assert Ids(s)[i] != Ids(s)[j];
        }
      }
      forall a, b | a in s && b in s && a.orderId == b.orderId ensures a == b {
        var i :| 0 <= i < |s| && s[i] == a;
        var j :| 0 <= j < |s| && s[j] == b;
        assert Ids(s)[i] == Ids(s)[j];
      }
    }
  }

  /** Duplicates and the visited set do not depend on list order. */
  lemma IdsPermutation(s: seq<Assignment>, r: seq<Assignment>)
    requires multiset(s) == multiset(r)
    ensures Distinct(Ids(s)) <==> Distinct(Ids(r))
    ensures forall id :: id in Ids(s) <==> id in Ids(r)
  {
    DistinctIdsMeansVisitedOnce(s);
    DistinctIdsMeansVisitedOnce(r);
    forall a ensures a in s <==> a in r {
      assert a in s <==> a in multiset(s);
      assert a in r <==> a in multiset(r);
    }
    forall id ensures id in Ids(s) <==> id in Ids(r) {
      IdListed(s, id);
      IdListed(r, id);
    }
  }

  lemma IdListed(s: seq<Assignment>, id: Id)
    ensures id in Ids(s) <==> exists a :: a in s && a.orderId == id
  {
    if id in Ids(s) {
      var i :| 0 <= i < |s| && Ids(s)[i] == id;
      assert s[i] in s;
    }
    if a :| a in s && a.orderId == id {
      var i :| 0 <= i < |s| && s[i] == a;
      assert Ids(s)[i] == id;
    }
  }

  lemma RouteIdsDistinct(s: seq<Assignment>, t: Id)
    requires Distinct(Ids(s))
    ensures Distinct(Ids(Route(s, t)))
  {
    var r := Route(s, t);
    DistinctIdsMeansVisitedOnce(s);
    SortContents(SequenceOrder, Mine(s, t));
    forall a ensures multiset(r)[a] <= 1 {
      MineContents(s, t, a);
    }
    forall a, b | a in r && b in r && a.orderId == b.orderId ensures a == b {
      RouteMembers(s, t, a);
      RouteMembers(s, t, b);
    }
    DistinctIdsMeansVisitedOnce(r);
  }
}
