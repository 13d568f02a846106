/**
  The model definitions a decision depends on: a worklist over the names used
  by each definition. The list may hold duplicates and may grow again after it
  shrank; it still empties, and what was selected is exactly what can be reached.
 */
module Closure {
  import opened Domain
  import opened Sorting
  import opened Routes

  /** Each defined name with the names its definition mentions. */
  type Definitions = map<Id, set<Id>>

  /** A chain of defined names, each mentioned by the one before, from a required name. */
  predicate Chain(d: Definitions, required: set<Id>, path: seq<Id>) {
    && path != [] && path[0] in required
    && (forall i :: 0 <= i < |path| ==> path[i] in d)
    && (forall i :: 0 < i < |path| ==> path[i] in d[path[i - 1]])
  }

  ghost predicate Reachable(d: Definitions, required: set<Id>, name: Id) {
    exists path :: Chain(d, required, path) && path[|path| - 1] == name
  }

  /** A name the worklist may hold: required, or mentioned by a reachable definition. */
  ghost predicate Due(d: Definitions, required: set<Id>, name: Id) {
    name in required || exists user :: user in d && name in d[user] && Reachable(d, required, user)
  }

  lemma DueIsReachable(d: Definitions, required: set<Id>, name: Id)
    requires Due(d, required, name) && name in d
    ensures Reachable(d, required, name)
  {
    if name in required {
      assert Chain(d, required, [name]);
    } else {
      var user :| user in d && name in d[user] && Reachable(d, required, user);
      var path :| Chain(d, required, path) && path[|path| - 1] == user;
      assert Chain(d, required, path + [name]);
    }
  }

  /** Nothing reachable lies outside a selection that holds the required names and is closed under mention. */
  lemma {:induction false} ClosedHoldsChains(d: Definitions, required: set<Id>, selected: set<Id>, path: seq<Id>)
    requires forall name :: name in required && name in d ==> name in selected
    requires forall user, name :: user in selected && user in d && name in d[user] && name in d ==> name in selected
    requires Chain(d, required, path)
    ensures path[|path| - 1] in selected
  {
    if |path| > 1 {
      ClosedHoldsChains(d, required, selected, path[..|path| - 1]);
    }
  }

  /** `sorted(names)`. */
  method Listing(names: set<Id>) returns (l: seq<Id>)
    ensures forall x :: x in l <==> x in names
    ensures SortedBy(RankOrder, l) && Distinct(l)
  {
    var rest := names;
    var picked: seq<Id> := [];
    while rest != {}
      invariant rest <= names && Distinct(picked)
      invariant forall x :: x in picked <==> x in names && x !in rest
    {
      var x :| x in rest;
      rest, picked := rest - {x}, picked + [x];
    }
    l := Sort(RankOrder, picked);
    RankOrderIsTotal();
    SortSorted(RankOrder, picked);
    SortDistinct(RankOrder, picked);
    forall x ensures x in l <==> x in names {
      SortMembers(RankOrder, picked, x);
    }
  }

  lemma RankOrderIsTotal()
    ensures TotalPreorder(RankOrder)
  {
  }

  /** The state of the worklist between two names. */
  ghost predicate Underway(d: Definitions, required: set<Id>, selected: set<Id>, pending: seq<Id>) {
    && selected <= d.Keys
    && (forall x :: x in selected ==> Reachable(d, required, x))
    && (forall x :: x in pending ==> Due(d, required, x))
    && (forall x :: x in required && x in d ==> x in selected || x in pending)
    && (forall user, x :: user in selected && x in d[user] && x in d ==> x in selected || x in pending)
  }

  /** A name that is known or undefined is dropped. */
  lemma Drop(d: Definitions, required: set<Id>, selected: set<Id>, pending: seq<Id>, name: Id)
    requires Underway(d, required, selected, pending + [name]) && (name in selected || name !in d)
    ensures Underway(d, required, selected, pending)
  {
    hide Reachable, Due;
    forall x | x in pending ensures x in pending + [name] {
    }
    forall x | x in pending + [name] && x != name ensures x in pending {
    }
  }

  /** A new definition is selected and the names it mentions join the list. */
  lemma Take(d: Definitions, required: set<Id>, selected: set<Id>, pending: seq<Id>, name: Id, mentioned: seq<Id>)
    requires Underway(d, required, selected, pending + [name]) && name !in selected && name in d
    requires forall x :: x in mentioned <==> x in d[name] - (selected + {name})
    ensures Underway(d, required, selected + {name}, pending + mentioned)
  {
    assert name in pending + [name];
    DueIsReachable(d, required, name);
    forall x | x in mentioned ensures Due(d, required, x) {
    }
    hide Reachable, Due;
    forall x | x in pending ensures x in pending + [name] {
    }
    forall x | x in pending + [name] && x != name ensures x in pending {
    }
  }

  lemma Opening(d: Definitions, required: set<Id>, pending: seq<Id>)
    requires forall x :: x in pending <==> x in required
    ensures Underway(d, required, {}, pending)
  {
  }

  /** When the list is empty the selection is what can be reached. */
  lemma Finished(d: Definitions, required: set<Id>, selected: set<Id>)
    requires Underway(d, required, selected, [])
    ensures forall x :: x in selected <==> Reachable(d, required, x)
  {
    forall x | Reachable(d, required, x) ensures x in selected {
      ReachableIsLeast(d, required, selected, x);
    }
  }

  /** The selection is the least one that holds the required names and is closed under mention. */
  lemma ReachableIsLeast(d: Definitions, required: set<Id>, selected: set<Id>, name: Id)
    requires forall x :: x in required && x in d ==> x in selected
    requires forall user, x :: user in selected && user in d && x in d[user] && x in d ==> x in selected
    requires Reachable(d, required, name)
    ensures name in selected
  {
    var path :| Chain(d, required, path) && path[|path| - 1] == name;
    ClosedHoldsChains(d, required, selected, path);
  }

  /**
    `_decision_model_source_closure`: the sorted list of exactly the defined
    names that can be reached from the required ones.
   */
  method SourceClosure(d: Definitions, required: set<Id>) returns (names: seq<Id>)
    ensures forall x :: x in names <==> Reachable(d, required, x)
    ensures SortedBy(RankOrder, names) && Distinct(names)
  {
    hide Underway, Reachable;
    var selected: set<Id> := {};
    var pending := Listing(required);
    Opening(d, required, pending);
    while pending != []
      invariant Underway(d, required, selected, pending)
      decreases d.Keys - selected, |pending|
    {
      var name, rest := pending[|pending| - 1], pending[..|pending| - 1];
      assert pending == rest + [name];
      if name in selected || name !in d {
        Drop(d, required, selected, rest, name);
        pending := rest;
      } else {
        assert name in d.Keys - selected;
        var mentioned := Listing(d[name] - (selected + {name}));
        Take(d, required, selected, rest, name, mentioned);
        selected, pending := selected + {name}, rest + mentioned;
      }
    }
    Finished(d, required, selected);
    names := Listing(selected);
  }
}
