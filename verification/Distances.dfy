/**
  Breadth-first search seen abstractly: a successor function, a cost for
  expanding a node, and what a traversal knows after each complete level.
*/
module Distances {
  type Id = string

  /** Successors of a node, of a set of nodes, and the cost of expanding a node. */
  datatype Net = Net(succ: Id -> set<Id>, step: set<Id> -> set<Id>, cost: Id -> nat)

  ghost predicate Consistent(n: Net) {
    forall s, b :: b in n.step(s) <==> exists a :: a in s && b in n.succ(a)
  }

  /* ---------- distance ---------- */

  /** The nodes at most k steps from the seed. */
  ghost function Within(n: Net, seed: Id, k: nat): set<Id> {
    if k == 0 then {seed} else Within(n, seed, k - 1) + n.step(Within(n, seed, k - 1))
  }

  lemma {:induction false} WithinGrows(n: Net, seed: Id, k: nat, l: nat)
    requires k <= l
    ensures Within(n, seed, k) <= Within(n, seed, l)
    decreases l
  {
    if k < l {
      WithinGrows(n, seed, k, l - 1);
    }
  }

  lemma {:induction false} WithinSettles(n: Net, seed: Id, k: nat, l: nat)
    requires k <= l && Within(n, seed, k + 1) == Within(n, seed, k)
    ensures Within(n, seed, l) == Within(n, seed, k)
    decreases l
  {
    if k < l {
      WithinSettles(n, seed, k, l - 1);
    }
  }

  lemma StepIn(n: Net, seed: Id, k: nat, a: Id, b: Id)
    requires Consistent(n) && a in Within(n, seed, k) && b in n.succ(a)
    ensures b in Within(n, seed, k + 1)
  {
  }

  lemma SteppedFrom(n: Net, seed: Id, k: nat, b: Id) returns (a: Id)
    requires Consistent(n) && b in Within(n, seed, k + 1) - Within(n, seed, k)
    ensures a in Within(n, seed, k) && b in n.succ(a)
  {
    a :| a in Within(n, seed, k) && b in n.succ(a);
  }

  /* ---------- cost ---------- */

  ghost function Total(n: Net, s: set<Id>): nat {
    if s == {} then 0 else var x :| x in s; n.cost(x) + Total(n, s - {x})
  }

  lemma {:induction false} TotalSplits(n: Net, s: set<Id>, y: Id)
    requires y in s
    ensures Total(n, s) == n.cost(y) + Total(n, s - {y})
    decreases s
  {
    var x :| x in s && Total(n, s) == n.cost(x) + Total(n, s - {x});
    if x != y {
      TotalSplits(n, s - {x}, y);
      TotalSplits(n, s - {y}, x);
      assert s - {x} - {y} == s - {y} - {x};
    }
  }

  lemma TotalAdds(n: Net, s: set<Id>, y: Id)
    requires y !in s
    ensures Total(n, s + {y}) == Total(n, s) + n.cost(y)
  {
    TotalSplits(n, s + {y}, y);
    assert s + {y} - {y} == s;
  }

  lemma {:induction false} TotalGrows(n: Net, s: set<Id>, t: set<Id>)
    requires s <= t
    ensures Total(n, s) <= Total(n, t)
    decreases t
  {
    if s != t {
      assert !(t <= s);
      var y :| y in t && y !in s;
      TotalSplits(n, t, y);
      TotalGrows(n, s, t - {y});
    }
  }

  lemma {:induction false} TotalOfUnion(n: Net, s: set<Id>, t: set<Id>)
    requires s !! t
    ensures Total(n, s + t) == Total(n, s) + Total(n, t)
    decreases t
  {
    if t == {} {
      assert s + t == s;
    } else {
      var y :| y in t;
      TotalOfUnion(n, s, t - {y});
      TotalSplits(n, t, y);
      TotalSplits(n, s + t, y);
      assert s + t - {y} == s + (t - {y});
    }
  }

  /* ---------- sequences of nodes ---------- */

  ghost function Elements(s: seq<Id>): set<Id> { set x | x in s }

  ghost predicate Distinct(s: seq<Id>) {
    forall i, j :: 0 <= i < j < |s| ==> s[i] != s[j]
  }

  lemma {:induction false} DistinctCount(s: seq<Id>)
    requires Distinct(s)
    ensures |Elements(s)| == |s|
  {
    if s != [] {
      var m := |s| - 1;
      DistinctCount(s[..m]);
      assert Elements(s) == Elements(s[..m]) + {s[m]};
      assert s[m] !in s[..m];
    }
  }

  lemma SubsetCount(s: set<Id>, t: set<Id>)
    requires s <= t
    ensures |s| <= |t|
  {
    assert s + (t - s) == t;
  }

  /* ---------- a traversal, level by level ---------- */

  /** The variables of the traversal. */
  datatype Walk = Walk(visited: set<Id>, items: seq<Id>, following: seq<Id>, inspected: nat, limited: bool)

  /** w is w0 with new, unvisited, distinct nodes appended everywhere. */
  ghost predicate Appended(w0: Walk, w: Walk, added: seq<Id>) {
    && w.items == w0.items + added
    && w.following == w0.following + added
    && w.visited == w0.visited + Elements(added)
    && Distinct(added) && Elements(added) !! w0.visited
  }

  lemma AppendedTwice(w0: Walk, w1: Walk, w2: Walk, a: seq<Id>, b: seq<Id>)
    requires Appended(w0, w1, a) && Appended(w1, w2, b)
    ensures Appended(w0, w2, a + b) && Elements(a + b) == Elements(a) + Elements(b)
  {
    assert Elements(a + b) == Elements(a) + Elements(b);
    forall i, j | 0 <= i < j < |a + b| ensures (a + b)[i] != (a + b)[j] {
      if i < |a| <= j {
        assert (a + b)[i] in Elements(a) && (a + b)[j] in Elements(b);
      }
    }
  }

  ghost predicate FromFrontier(n: Net, frontier: seq<Id>, added: seq<Id>) {
    forall b :: b in added ==> exists a :: a in frontier && b in n.succ(a)
  }

  /** Some successor of the frontier was not visited. */
  ghost predicate Missed(n: Net, frontier: seq<Id>, visited: set<Id>) {
    exists a, b :: a in frontier && b in n.succ(a) && b !in visited
  }

  /** Listed nearest first: whatever distance reaches a later item reaches every earlier one. */
  ghost predicate NearestFirst(n: Net, seed: Id, items: seq<Id>) {
    forall i, j, m: nat :: 0 <= i < j < |items| && items[j] in Within(n, seed, m) ==> items[i] in Within(n, seed, m)
  }

  ghost function Inner(n: Net, seed: Id, k: nat): set<Id> {
    if k == 0 then {} else Within(n, seed, k - 1)
  }

  lemma InnerWithin(n: Net, seed: Id, k: nat)
    ensures Inner(n, seed, k) <= Within(n, seed, k) && seed in Within(n, seed, k)
  {
    WithinGrows(n, seed, 0, k);
    if k > 0 {
      WithinGrows(n, seed, k - 1, k);
    }
  }

  /** The traversal after k complete levels. */
  ghost predicate Complete(n: Net, seed: Id, k: nat, w: Walk, frontier: seq<Id>) {
    && w.visited == Within(n, seed, k)
    && Elements(w.items) == Within(n, seed, k) - {seed} && Distinct(w.items) && NearestFirst(n, seed, w.items)
    && Elements(frontier) == Within(n, seed, k) - Inner(n, seed, k) && Distinct(frontier)
    && w.inspected == Total(n, Inner(n, seed, k))
    && !w.limited
  }

  lemma StartIsComplete(n: Net, seed: Id)
    ensures Complete(n, seed, 0, Walk({seed}, [], [], 0, false), [seed])
  {
    assert Elements([seed]) == {seed};
  }

  /** A fresh `following` list does not matter. */
  lemma NextLevelStarts(n: Net, seed: Id, k: nat, w: Walk, frontier: seq<Id>)
    requires Complete(n, seed, k, w, frontier)
    ensures Complete(n, seed, k, w.(following := []), frontier) && Distinct(frontier) && !w.limited
  {
  }

  /** What one more level adds lies exactly one step further out. */
  lemma AddedAreNext(n: Net, seed: Id, k: nat, w0: Walk, frontier: seq<Id>, w: Walk, added: seq<Id>)
    requires Consistent(n) && Complete(n, seed, k, w0, frontier) && Appended(w0, w, added) && FromFrontier(n, frontier, added)
    ensures Elements(added) <= Within(n, seed, k + 1) - Within(n, seed, k)
    ensures Within(n, seed, k) <= w.visited <= Within(n, seed, k + 1)
  {
    forall b | b in added ensures b in Within(n, seed, k + 1) {
      var a :| a in frontier && b in n.succ(a);
      assert a in Elements(frontier);
      StepIn(n, seed, k, a, b);
    }
    WithinGrows(n, seed, k, k + 1);
  }

  lemma NearestFirstAppends(n: Net, seed: Id, k: nat, items: seq<Id>, added: seq<Id>)
    requires NearestFirst(n, seed, items) && Elements(items) <= Within(n, seed, k)
    requires Elements(added) <= Within(n, seed, k + 1) - Within(n, seed, k)
    ensures NearestFirst(n, seed, items + added)
  {
    var all := items + added;
    forall i, j, m: nat | 0 <= i < j < |all| && all[j] in Within(n, seed, m)
      ensures all[i] in Within(n, seed, m)
    {
      if j >= |items| {
        assert all[j] in Elements(added);
        if m <= k {
          WithinGrows(n, seed, m, k);
        } else {
          WithinGrows(n, seed, k, k + 1);
          WithinGrows(n, seed, k + 1, m);
          assert all[i] in Elements(items) || all[i] in Elements(added);
        }
      }
    }
  }

  /** One more level, whether or not it was cut short. */
  lemma LevelAppends(n: Net, seed: Id, k: nat, w0: Walk, frontier: seq<Id>, w: Walk, added: seq<Id>)
    requires Consistent(n) && Complete(n, seed, k, w0, frontier) && Appended(w0, w, added) && FromFrontier(n, frontier, added)
    ensures Elements(w.items) == w.visited - {seed} && seed in w.visited && w.visited <= Within(n, seed, k + 1)
    ensures Distinct(w.items) && NearestFirst(n, seed, w.items)
  {
    AddedAreNext(n, seed, k, w0, frontier, w, added);
    InnerWithin(n, seed, k);
    NearestFirstAppends(n, seed, k, w0.items, added);
    assert Elements(w.items) == Elements(w0.items) + Elements(added);
    forall i, j | 0 <= i < j < |w.items| ensures w.items[i] != w.items[j] {
      if i < |w0.items| <= j {
        assert w.items[i] in Elements(w0.items) && w.items[j] in Elements(added);
      }
    }
  }

  lemma FrontierTotal(n: Net, seed: Id, k: nat, w: Walk, frontier: seq<Id>)
    requires Complete(n, seed, k, w, frontier)
    ensures w.inspected + Total(n, Elements(frontier)) == Total(n, Within(n, seed, k))
  {
    InnerWithin(n, seed, k);
    TotalOfUnion(n, Inner(n, seed, k), Elements(frontier));
    assert Inner(n, seed, k) + Elements(frontier) == Within(n, seed, k);
  }

  lemma InnerSuccessors(n: Net, seed: Id, k: nat, a: Id, b: Id)
    requires Consistent(n) && b in n.succ(a)
    ensures a in Inner(n, seed, k) ==> b in Within(n, seed, k)
  {
  }

  /** A level that missed nothing completes the next distance. */
  lemma LevelCompletes(n: Net, seed: Id, k: nat, w0: Walk, frontier: seq<Id>, w: Walk, added: seq<Id>)
    requires Consistent(n) && Complete(n, seed, k, w0, frontier) && w0.following == [] && Appended(w0, w, added) && !w.limited
    requires FromFrontier(n, frontier, added) && !Missed(n, frontier, w.visited)
    requires w.inspected == w0.inspected + Total(n, Elements(frontier))
    ensures Complete(n, seed, k + 1, w, w.following)
  {
    LevelAppends(n, seed, k, w0, frontier, w, added);
    AddedAreNext(n, seed, k, w0, frontier, w, added);
    InnerWithin(n, seed, k);
    FrontierTotal(n, seed, k, w0, frontier);
    forall b | b in Within(n, seed, k + 1) ensures b in w.visited {
      if b !in Within(n, seed, k) {
        var a := SteppedFrom(n, seed, k, b);
        InnerSuccessors(n, seed, k, a, b);
        assert a in Elements(frontier);
      }
    }
    assert w.following == added;
  }

  /* ---------- the answer ---------- */

  /** The promise about a list of nodes and its mark, for a depth, a node budget and a row cap. */
  ghost predicate Correct(n: Net, seed: Id, depth: nat, budget: nat, cap: nat, items: seq<Id>, incomplete: bool)
    requires depth >= 1
  {
    && Distinct(items) && seed !in items && |items| <= budget
    && Elements(items) <= Within(n, seed, depth)
    && NearestFirst(n, seed, items)
    && (!incomplete ==> Elements(items) == Within(n, seed, depth) - {seed})
    && (incomplete <==> |Within(n, seed, depth)| > budget + 1 || Total(n, Within(n, seed, depth - 1)) > cap)
  }

  /** A missed successor does not fit into the budget: more nodes are in reach than it allows. */
  lemma MissedExceedsBudget(n: Net, seed: Id, k: nat, w: Walk, frontier: seq<Id>)
    requires Consistent(n) && Elements(frontier) <= Within(n, seed, k) && w.visited <= Within(n, seed, k + 1)
    requires Elements(w.items) == w.visited - {seed} && seed in w.visited && Distinct(w.items)
    requires Missed(n, frontier, w.visited)
    ensures |Within(n, seed, k + 1)| > |w.items| + 1
  {
    var a, b :| a in frontier && b in n.succ(a) && b !in w.visited;
    assert a in Elements(frontier);
    StepIn(n, seed, k, a, b);
    DistinctCount(w.items);
    assert w.visited == Elements(w.items) + {seed};
    SubsetCount(w.visited + {b}, Within(n, seed, k + 1));
  }

  lemma CapExceeded(n: Net, seed: Id, k: nat, depth: nat, cap: nat, w0: Walk, frontier: seq<Id>)
    requires Complete(n, seed, k, w0, frontier) && k < depth
    requires cap < w0.inspected + Total(n, Elements(frontier))
    ensures Total(n, Within(n, seed, depth - 1)) > cap
  {
    FrontierTotal(n, seed, k, w0, frontier);
    WithinGrows(n, seed, k, depth - 1);
    TotalGrows(n, Within(n, seed, k), Within(n, seed, depth - 1));
  }

  lemma CutShortIsIncomplete(n: Net, seed: Id, k: nat, depth: nat, budget: nat, cap: nat,
                             w0: Walk, frontier: seq<Id>, w: Walk, added: seq<Id>)
    requires Consistent(n) && Complete(n, seed, k, w0, frontier) && Appended(w0, w, added) && FromFrontier(n, frontier, added)
    requires k < depth && |w.items| <= budget
    requires
      || cap < w.inspected <= w0.inspected + Total(n, Elements(frontier))
      || (|w.items| == budget && Missed(n, frontier, w.visited))
    ensures Correct(n, seed, depth, budget, cap, w.items, true)
  {
    LevelAppends(n, seed, k, w0, frontier, w, added);
    WithinGrows(n, seed, k + 1, depth);
    NotIn(w.items, seed);
    if cap < w.inspected <= w0.inspected + Total(n, Elements(frontier)) {
      CapExceeded(n, seed, k, depth, cap, w0, frontier);
    } else {
      ElementsOfFrontier(n, seed, k, w0, frontier);
      MissedExceedsBudget(n, seed, k, w, frontier);
      SubsetCount(Within(n, seed, k + 1), Within(n, seed, depth));
    }
  }

  lemma ElementsOfFrontier(n: Net, seed: Id, k: nat, w: Walk, frontier: seq<Id>)
    requires Complete(n, seed, k, w, frontier)
    ensures Elements(frontier) <= Within(n, seed, k)
  {
  }

  lemma NotIn(items: seq<Id>, x: Id)
    requires x !in Elements(items)
    ensures x !in items
  {
  }

  lemma SameSet(outer: set<Id>, inner: set<Id>, frontier: seq<Id>)
    requires inner <= outer && outer - inner == Elements(frontier) && frontier == []
    ensures outer == inner
  {
    assert forall x :: x in outer ==> x in inner || x in outer - inner;
  }

  /** An empty frontier means the search has settled. */
  lemma EmptyFrontierSettles(n: Net, seed: Id, k: nat, l: nat, frontier: seq<Id>)
    requires 1 <= k <= l && Elements(frontier) == Within(n, seed, k) - Inner(n, seed, k) && frontier == []
    ensures Within(n, seed, l) == Within(n, seed, k) && Within(n, seed, l - 1) == Within(n, seed, k - 1)
  {
    InnerWithin(n, seed, k);
    SameSet(Within(n, seed, k), Within(n, seed, k - 1), frontier);
    WithinSettles(n, seed, k - 1, l);
    WithinSettles(n, seed, k - 1, l - 1);
  }

  lemma FinishedIsCorrect(n: Net, seed: Id, k: nat, depth: nat, budget: nat, cap: nat, w: Walk, frontier: seq<Id>)
    requires Complete(n, seed, k, w, frontier) && 1 <= k <= depth && (k == depth || frontier == [])
    requires |w.items| <= budget && w.inspected <= cap
    ensures Correct(n, seed, depth, budget, cap, w.items, false)
  {
    if frontier == [] {
      EmptyFrontierSettles(n, seed, k, depth, frontier);
    }
    NotIn(w.items, seed);
    ItemsCount(n, seed, k, w, frontier);
  }

  lemma ItemsCount(n: Net, seed: Id, k: nat, w: Walk, frontier: seq<Id>)
    requires Complete(n, seed, k, w, frontier)
    ensures |Within(n, seed, k)| == |w.items| + 1
  {
    InnerWithin(n, seed, k);
    DistinctCount(w.items);
    assert Within(n, seed, k) == Elements(w.items) + {seed};
  }
}
