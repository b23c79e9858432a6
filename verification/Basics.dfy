/** Vocabulary shared by every component: optional values and results. */
module Basics {
  datatype Option<+T> = None | Some(value: T)

  datatype Result<+T> = Success(value: T) | Failure

  lemma SameMap<K, V>(a: map<K, V>, b: map<K, V>)
    requires forall k :: k in a <==> k in b
    requires forall k :: k in a ==> a[k] == b[k]
    ensures a == b
  {
  }

  /** `order` lists every element of `s` exactly once: one possible outcome of ranging over a Go map. */
  ghost predicate Lists<T>(order: seq<T>, s: set<T>) {
    && (forall k :: 0 <= k < |order| ==> order[k] in s)
    && (forall x :: x in s ==> x in order)
    && (forall j, k :: 0 <= j < k < |order| ==> order[j] != order[k])
  }

  /** Ranging over a set in some unspecified order. */
  method Range<T(==)>(s: set<T>) returns (order: seq<T>)
    ensures Lists(order, s)
  {
    order := [];
    var rest := s;
    while rest != {}
      invariant rest <= s
      invariant forall k :: 0 <= k < |order| ==> order[k] in s && order[k] !in rest
      invariant forall x :: x in s ==> x in rest || x in order
      invariant forall j, k :: 0 <= j < k < |order| ==> order[j] != order[k]
      decreases |rest|
    {
      var x :| x in rest;
      order := order + [x];
      rest := rest - {x};
    }
  }
}
