/** Python's `set(xs)` followed by iteration: the distinct elements of a list,
    in an order the language leaves unspecified. */
module Collections {

  predicate NoDuplicates<T(==)>(xs: seq<T>)
  {
    forall i, j :: 0 <= i < j < |xs| ==> xs[i] != xs[j]
  }

  /** The elements of `xs`, as Python's `set(xs)` holds them. */
  function Elements<T>(xs: seq<T>): set<T>
  {
    set x | x in xs
  }

  /** `xs` lists every element of `s` exactly once, in some order. */
  predicate Enumerates<T(==)>(xs: seq<T>, s: set<T>)
  {
    NoDuplicates(xs) && Elements(xs) == s
  }

  /** A list without duplicates has as many distinct elements as entries. */
  lemma {:induction false} NoDuplicatesCardinality<T>(xs: seq<T>)
    requires NoDuplicates(xs)
    ensures |Elements(xs)| == |xs|
  {
    if xs != [] {
      var last := xs[|xs| - 1];
      var init := xs[..|xs| - 1];
      NoDuplicatesCardinality(init);
      assert Elements(xs) == Elements(init) + {last};
      assert last !in Elements(init);
    }
  }

  /** Iterating over a set: each element once, in an unspecified order. Two
      calls on the same set are not promised to agree on the order. */
  method SetToSeq<T>(s: set<T>) returns (xs: seq<T>)
    ensures Enumerates(xs, s)
    ensures |xs| == |s|
  {
    xs := [];
    var rest := s;
    while rest != {}
      invariant rest <= s
      invariant NoDuplicates(xs)
      invariant forall x :: x in xs <==> x in s && x !in rest
      decreases rest
    {
      var x :| x in rest;
      xs := xs + [x];
      rest := rest - {x};
    }
    NoDuplicatesCardinality(xs);
    assert Elements(xs) == s;
  }
}
