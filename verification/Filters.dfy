/**
 Order-preserving filtering, the meaning of a `WHERE` clause over a table that is
 kept in primary-key order, with the laws the page and retention proofs use.
 */
module Filters {

  function Filter<T(!new)>(p: T -> bool, xs: seq<T>): (ys: seq<T>)
    ensures |ys| <= |xs|
    ensures forall y :: y in ys <==> y in xs && p(y)
  {
    if xs == [] then []
    else (if p(xs[0]) then [xs[0]] else []) + Filter(p, xs[1..])
  }

  lemma {:induction false} FilterConcat<T(!new)>(p: T -> bool, xs: seq<T>, ys: seq<T>)
    ensures Filter(p, xs + ys) == Filter(p, xs) + Filter(p, ys)
  {
    if xs == [] {
      assert xs + ys == ys;
    } else {
      assert (xs + ys)[1..] == xs[1..] + ys;
      FilterConcat(p, xs[1..], ys);
    }
  }

  lemma {:induction false} FilterAll<T(!new)>(p: T -> bool, xs: seq<T>)
    requires forall x | x in xs :: p(x)
    ensures Filter(p, xs) == xs
  {
    if xs != [] {
      FilterAll(p, xs[1..]);
    }
  }

  lemma FilterNone<T(!new)>(p: T -> bool, xs: seq<T>)
    requires forall x | x in xs :: !p(x)
    ensures Filter(p, xs) == []
  {
  }

  lemma {:induction false} FilterExt<T(!new)>(p: T -> bool, q: T -> bool, xs: seq<T>)
    requires forall x | x in xs :: p(x) == q(x)
    ensures Filter(p, xs) == Filter(q, xs)
  {
    if xs != [] {
      FilterExt(p, q, xs[1..]);
    }
  }

  /** Filtering twice is filtering once by the conjunction. */
  lemma {:induction false} FilterFilter<T(!new)>(p: T -> bool, q: T -> bool, both: T -> bool, xs: seq<T>)
    requires forall x | x in xs :: both(x) == (p(x) && q(x))
    ensures Filter(q, Filter(p, xs)) == Filter(both, xs)
  {
    if xs != [] {
      FilterFilter(p, q, both, xs[1..]);
      var head := if p(xs[0]) then [xs[0]] else [];
      FilterConcat(q, head, Filter(p, xs[1..]));
    }
  }
}
