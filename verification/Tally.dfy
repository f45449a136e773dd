/** Sums over an insertion-ordered dictionary: an order of distinct keys, and a weight for some of them. */
module Tally {
  import opened Domain

  ghost predicate Distinct(order: seq<Symbol>) {
    forall i, j :: 0 <= i < j < |order| ==> order[i] != order[j]
  }

  /** The order left when one key is deleted. */
  function Without(order: seq<Symbol>, s: Symbol): seq<Symbol> {
    if order == [] then []
    else
      var rest, last := order[..|order| - 1], order[|order| - 1];
      if last == s then Without(rest, s) else Without(rest, s) + [last]
  }

  function At(w: map<Symbol, real>, s: Symbol): real {
    if s in w then w[s] else 0.0
  }

  /** The sum of the weights along an order; a key without a weight adds nothing. */
  function Total(order: seq<Symbol>, w: map<Symbol, real>): real {
    if order == [] then 0.0
    else Total(order[..|order| - 1], w) + At(w, order[|order| - 1])
  }

  lemma {:induction false} WithoutMembers(order: seq<Symbol>, s: Symbol)
    requires Distinct(order)
    ensures Distinct(Without(order, s))
    ensures forall t :: t in Without(order, s) <==> t in order && t != s
    ensures |Without(order, s)| == if s in order then |order| - 1 else |order|
  {
    if order != [] {
      var rest, last := order[..|order| - 1], order[|order| - 1];
      assert order == rest + [last];
      WithoutMembers(rest, s);
      assert last !in rest;
    }
  }

  lemma {:induction false} TotalAgrees(order: seq<Symbol>, w: map<Symbol, real>, w': map<Symbol, real>)
    requires forall t :: t in order ==> At(w, t) == At(w', t)
    ensures Total(order, w) == Total(order, w')
  {
    if order != [] {
      TotalAgrees(order[..|order| - 1], w, w');
    }
  }

  lemma {:induction false} TotalWithout(order: seq<Symbol>, w: map<Symbol, real>, w': map<Symbol, real>, s: Symbol)
    requires Distinct(order) && s in order
    requires forall t :: t in order && t != s ==> At(w, t) == At(w', t)
    ensures Total(Without(order, s), w') == Total(order, w) - At(w, s)
  {
    var rest, last := order[..|order| - 1], order[|order| - 1];
    assert order == rest + [last];
    WithoutMembers(rest, s);
    if last == s {
      WithoutUntouched(rest, s);
      TotalAgrees(rest, w, w');
    } else {
      TotalWithout(rest, w, w', s);
      assert (Without(rest, s) + [last])[..|Without(rest, s)|] == Without(rest, s);
    }
  }

  lemma {:induction false} WithoutUntouched(order: seq<Symbol>, s: Symbol)
    requires s !in order
    ensures Without(order, s) == order
  {
    if order != [] {
      WithoutUntouched(order[..|order| - 1], s);
    }
  }

  lemma {:induction false} TotalReplace(order: seq<Symbol>, w: map<Symbol, real>, w': map<Symbol, real>, s: Symbol)
    requires Distinct(order) && s in order
    requires forall t :: t in order && t != s ==> At(w, t) == At(w', t)
    ensures Total(order, w') == Total(order, w) - At(w, s) + At(w', s)
  {
    TotalWithout(order, w, w', s);
    TotalWithout(order, w', w', s);
  }

  lemma TotalAppend(order: seq<Symbol>, w: map<Symbol, real>, w': map<Symbol, real>, s: Symbol)
    requires forall t :: t in order ==> At(w, t) == At(w', t)
    ensures Total(order + [s], w') == Total(order, w) + At(w', s)
  {
    assert (order + [s])[..|order|] == order;
    TotalAgrees(order, w, w');
  }

  /** Sums are linear: a weight that is everywhere a combination of two others sums to that combination. */
  lemma {:induction false} TotalCombines(order: seq<Symbol>, w: map<Symbol, real>, u: map<Symbol, real>,
                                         v: map<Symbol, real>)
    requires forall t :: t in order ==> At(w, t) == At(u, t) + At(v, t)
    ensures Total(order, w) == Total(order, u) + Total(order, v)
  {
    if order != [] {
      TotalCombines(order[..|order| - 1], w, u, v);
    }
  }

  /** Two orders of the same keys have one size and one sum. */
  lemma {:induction false} OrderCounts(order: seq<Symbol>, keys: set<Symbol>)
    requires Distinct(order) && forall s :: s in order <==> s in keys
    ensures |order| == |keys|
  {
    if order != [] {
      var rest, last := order[..|order| - 1], order[|order| - 1];
      assert order == rest + [last];
      OrderCounts(rest, keys - {last});
    }
  }

  lemma {:induction false} TotalReordered(a: seq<Symbol>, b: seq<Symbol>, w: map<Symbol, real>)
    requires Distinct(a) && Distinct(b) && forall s :: s in a <==> s in b
    ensures Total(a, w) == Total(b, w)
  {
    OrderCounts(a, set s | s in a);
    OrderCounts(b, set s | s in a);
    if a != [] {
      var rest, last := a[..|a| - 1], a[|a| - 1];
      assert a == rest + [last];
      WithoutMembers(b, last);
      TotalReordered(rest, Without(b, last), w);
      TotalWithout(b, w, w, last);
    }
  }
}
