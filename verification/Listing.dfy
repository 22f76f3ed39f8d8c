/** The rows of a query, in an order the query leaves open. */
module Listing {
  import opened Domain

  ghost predicate Distinct<T(!new)>(order: seq<T>) {
    forall m, n :: 0 <= m < n < |order| ==> order[m] != order[n]
  }

  /** `order` lists the members of `all`, each once. */
  ghost predicate Lists<T(!new)>(order: seq<T>, all: set<T>) {
    && Distinct(order)
    && (forall n :: 0 <= n < |order| ==> order[n] in all)
    && (forall x :: x in all ==> exists n :: 0 <= n < |order| && order[n] == x)
  }

  lemma ListOneMore<T(!new)>(order: seq<T>, all: set<T>, x: T)
    requires Lists(order, all) && x !in all
    ensures Lists(order + [x], all + {x})
  {
    var longer := order + [x];
    forall y | y in all + {x}
      ensures exists n :: 0 <= n < |longer| && longer[n] == y
    {
      if y == x {
        assert longer[|order|] == y;
      } else {
        var n :| 0 <= n < |order| && order[n] == y;
        assert longer[n] == y;
      }
    }
  }

  /** Some such list. */
  method List<T(==, !new)>(all: set<T>) returns (order: seq<T>)
    ensures Lists(order, all)
    ensures |order| == |all|
  {
    order := [];
    var rest := all;
    ghost var taken: set<T> := {};
    while rest != {}
      invariant forall x :: x in all <==> x in taken || x in rest
      invariant forall x :: x in rest ==> x !in taken
      invariant Lists(order, taken) && |order| == |taken|
      invariant |taken| + |rest| == |all|
      decreases rest
    {
      ghost var some := Element(rest);
      var x :| x in rest;
      ListOneMore(order, taken, x);
      order, rest, taken := order + [x], rest - {x}, taken + {x};
    }
    SameMembers(taken, all);
  }
}
