/** Small shared vocabulary: an optional value, duplicate-free sequences and
    the Python idiom `list(set(xs))`, whose order is unspecified. */
module Common {

  datatype Option<+T> = None | Some(value: T)

  /** No element occurs twice. */
  predicate NoDup<T(==)>(s: seq<T>) {
    forall i, j :: 0 <= i < j < |s| ==> s[i] != s[j]
  }

  /** The elements of a sequence, as a set. */
  function Elems<T>(s: seq<T>): set<T> {
    set x | x in s
  }

  /** `order` lists each element of `s` exactly once. */
  predicate IsEnumeration<T(==)>(order: seq<T>, s: set<T>) {
    NoDup(order) && Elems(order) == s && |order| == |s|
  }

  /** `list(set(xs))`: the distinct elements of a finite set, in an order the
      caller cannot rely on (the choice below is arbitrary). */
  method Enumerate<T(==)>(s: set<T>) returns (order: seq<T>)
    ensures IsEnumeration(order, s)
    ensures |order| == |s|
  {
    order := [];
    var rest := s;
    while rest != {}
      invariant Elems(order) + rest == s
      invariant Elems(order) !! rest
      invariant NoDup(order)
      invariant |order| + |rest| == |s|
      decreases |rest|
    {
      var x :| x in rest;
      EnumerateStep(order, rest, x);
      order := order + [x];
      rest := rest - {x};
    }
  }

  /** One step of `Enumerate`: moving `x` from the rest to the order. */
  lemma EnumerateStep<T>(order: seq<T>, rest: set<T>, x: T)
    requires NoDup(order) && Elems(order) !! rest && x in rest
    ensures NoDup(order + [x])
    ensures Elems(order + [x]) == Elems(order) + {x}
    ensures Elems(order + [x]) !! rest - {x}
    ensures Elems(order + [x]) + (rest - {x}) == Elems(order) + rest
    ensures |rest - {x}| == |rest| - 1
  {
    assert forall i :: 0 <= i < |order| ==> (order + [x])[i] == order[i];
    assert forall y :: y in order + [x] <==> y in order || y == x;
  }

  /** Concatenation regroups freely; stated once so that proofs about long
      concatenations need not rediscover it. */
  lemma ConcatAssoc<T>(a: seq<T>, b: seq<T>, c: seq<T>)
    ensures (a + b) + c == a + (b + c)
  {
  }
}
