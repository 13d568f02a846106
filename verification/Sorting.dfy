/**
  Python's `sorted` as a function: a stable insertion sort over an arbitrary
  total preorder, with the facts about it that the routes and the greedy loops
  rely on.
 */
module Sorting {

  /** A comparison that is total and transitive; ties are allowed. */
  ghost predicate TotalPreorder<T(!new)>(leq: (T, T) -> bool) {
    && (forall a, b :: leq(a, b) || leq(b, a))
    && (forall a, b, c :: leq(a, b) && leq(b, c) ==> leq(a, c))
  }

  ghost predicate SortedBy<T>(leq: (T, T) -> bool, s: seq<T>) {
    forall i, j :: 0 <= i < j < |s| ==> leq(s[i], s[j])
  }

  /** Places `a` behind the last element that is not larger. */
  function Insert<T>(leq: (T, T) -> bool, s: seq<T>, a: T): (r: seq<T>)
    ensures |r| == |s| + 1
  {
    if s == [] || leq(s[|s| - 1], a) then s + [a]
    else Insert(leq, s[..|s| - 1], a) + [s[|s| - 1]]
  }

  function Sort<T>(leq: (T, T) -> bool, s: seq<T>): (r: seq<T>)
    ensures |r| == |s|
  {
    if s == [] then [] else Insert(leq, Sort(leq, s[..|s| - 1]), s[|s| - 1])
  }

  lemma {:induction false} InsertContents<T>(leq: (T, T) -> bool, s: seq<T>, a: T)
    ensures multiset(Insert(leq, s, a)) == multiset(s) + multiset{a}
  {
    if s == [] || leq(s[|s| - 1], a) {
    } else {
      assert s == s[..|s| - 1] + [s[|s| - 1]];
      InsertContents(leq, s[..|s| - 1], a);
    }
  }

  lemma {:induction false} SortContents<T>(leq: (T, T) -> bool, s: seq<T>)
    ensures multiset(Sort(leq, s)) == multiset(s)
  {
    if s != [] {
      assert s == s[..|s| - 1] + [s[|s| - 1]];
      SortContents(leq, s[..|s| - 1]);
      InsertContents(leq, Sort(leq, s[..|s| - 1]), s[|s| - 1]);
    }
  }

  lemma SortMembers<T>(leq: (T, T) -> bool, s: seq<T>, a: T)
    ensures a in Sort(leq, s) <==> a in s
  {
    SortContents(leq, s);
    assert a in Sort(leq, s) <==> a in multiset(Sort(leq, s));
    assert a in s <==> a in multiset(s);
  }

  lemma {:induction false} InsertSorted<T(!new)>(leq: (T, T) -> bool, s: seq<T>, a: T)
    requires TotalPreorder(leq) && SortedBy(leq, s)
    ensures SortedBy(leq, Insert(leq, s, a))
  {
    if s == [] {
    } else if leq(s[|s| - 1], a) {
      forall i | 0 <= i < |s| ensures leq(s[i], a) {
        assert leq(s[i], s[|s| - 1]) || i == |s| - 1;
      }
    } else {
      var front, last := s[..|s| - 1], s[|s| - 1];
      InsertSorted(leq, front, a);
      var r := Insert(leq, front, a);
      forall i | 0 <= i < |r| ensures leq(r[i], last) {
        InsertContents(leq, front, a);
        assert r[i] in multiset(r);
        assert r[i] in front || r[i] == a;
      }
    }
  }

  lemma {:induction false} SortSorted<T(!new)>(leq: (T, T) -> bool, s: seq<T>)
    requires TotalPreorder(leq)
    ensures SortedBy(leq, Sort(leq, s))
  {
    if s != [] {
      SortSorted(leq, s[..|s| - 1]);
      InsertSorted(leq, Sort(leq, s[..|s| - 1]), s[|s| - 1]);
    }
  }

  /** An element at least as large as all others ends up last. */
  lemma SortAppend<T>(leq: (T, T) -> bool, s: seq<T>, a: T)
    requires forall x :: x in s ==> leq(x, a)
    ensures Sort(leq, s + [a]) == Sort(leq, s) + [a]
  {
    assert (s + [a])[..|s|] == s;
    if s != [] {
      SortMembers(leq, s, Sort(leq, s)[|s| - 1]);
    }
  }

  lemma {:induction false} SortIdentity<T>(leq: (T, T) -> bool, s: seq<T>)
    requires SortedBy(leq, s)
    ensures Sort(leq, s) == s
  {
    if s != [] {
      var front, last := s[..|s| - 1], s[|s| - 1];
      SortIdentity(leq, front);
      assert s == front + [last];
      SortAppend(leq, front, last);
    }
  }

  ghost predicate NoTies<T>(leq: (T, T) -> bool, s: seq<T>) {
    forall i, j :: 0 <= i < |s| && 0 <= j < |s| && leq(s[i], s[j]) && leq(s[j], s[i]) ==> s[i] == s[j]
  }

  lemma LastOfSorted<T(!new)>(leq: (T, T) -> bool, s: seq<T>, r: seq<T>)
    requires SortedBy(leq, s) && SortedBy(leq, r) && NoTies(leq, s)
    requires multiset(s) == multiset(r) && s != []
    ensures r != [] && s[|s| - 1] == r[|r| - 1]
  {
    assert |multiset(s)| == |s| && |multiset(r)| == |r|;
    var x, y := s[|s| - 1], r[|r| - 1];
    assert x in multiset(r) && y in multiset(s);
    var i :| 0 <= i < |r| && r[i] == x;
    var j :| 0 <= j < |s| && s[j] == y;
    if i < |r| - 1 && j < |s| - 1 {
      assert leq(r[i], r[|r| - 1]) && leq(s[j], s[|s| - 1]);
    }
  }

  lemma FrontContents<T>(s: seq<T>)
    requires s != []
    ensures multiset(s[..|s| - 1]) == multiset(s) - multiset{s[|s| - 1]}
  {
    assert s == s[..|s| - 1] + [s[|s| - 1]];
  }

  lemma FrontSorted<T(!new)>(leq: (T, T) -> bool, s: seq<T>)
    requires s != [] && SortedBy(leq, s)
    ensures SortedBy(leq, s[..|s| - 1])
    ensures NoTies(leq, s) ==> NoTies(leq, s[..|s| - 1])
  {
  }

  lemma FrontAndLast<T>(s: seq<T>)
    requires s != []
    ensures s == s[..|s| - 1] + [s[|s| - 1]]
  {
  }

  /** Two sorted arrangements of the same elements agree when no two elements tie. */
  lemma {:induction false} SortedUnique<T(!new)>(leq: (T, T) -> bool, s: seq<T>, r: seq<T>)
    requires SortedBy(leq, s) && SortedBy(leq, r) && NoTies(leq, s)
    requires multiset(s) == multiset(r)
    ensures s == r
  {
    if s == [] {
      assert r == [] by { assert |multiset(r)| == |r|; }
    } else {
      LastOfSorted(leq, s, r);
      FrontContents(s);
      FrontContents(r);
      FrontSorted(leq, s);
      FrontSorted(leq, r);
      SortedUnique(leq, s[..|s| - 1], r[..|r| - 1]);
      FrontAndLast(s);
      FrontAndLast(r);
    }
  }

  /** Sorting forgets the order of its input when no two elements tie. */
  lemma SortPermutation<T(!new)>(leq: (T, T) -> bool, s: seq<T>, r: seq<T>)
    requires TotalPreorder(leq) && NoTies(leq, s)
    requires multiset(s) == multiset(r)
    ensures Sort(leq, s) == Sort(leq, r)
  {
    SortSorted(leq, s);
    SortSorted(leq, r);
    SortContents(leq, s);
    SortContents(leq, r);
    var p := Sort(leq, s);
    forall i, j | 0 <= i < |p| && 0 <= j < |p| && leq(p[i], p[j]) && leq(p[j], p[i]) ensures p[i] == p[j] {
      SortMembers(leq, s, p[i]);
      SortMembers(leq, s, p[j]);
    }
    SortedUnique(leq, p, Sort(leq, r));
  }
}
