/** Generic list helpers: `Array.prototype.filter` and counting by a predicate. */
module Lists {

  /** `a` is obtained from `b` by deleting elements, keeping the order of what remains. */
  predicate IsSubsequence<T(==)>(a: seq<T>, b: seq<T>)
    decreases |b|
  {
    if a == [] then true
    else if b == [] then false
    else if a[0] == b[0] then IsSubsequence(a[1..], b[1..])
    else IsSubsequence(a, b[1..])
  }

  /** JavaScript's `xs.filter(p)`. */
  function Filter<T(==,!new)>(xs: seq<T>, p: T -> bool): (r: seq<T>)
    ensures |r| <= |xs|
    ensures forall x :: x in r <==> x in xs && p(x)
    ensures forall i :: 0 <= i < |r| ==> p(r[i])
    ensures IsSubsequence(r, xs)
  {
    if xs == [] then []
    else if p(xs[0]) then [xs[0]] + Filter(xs[1..], p)
    else Filter(xs[1..], p)
  }

  /** A filter every element passes keeps the whole list. */
  lemma {:induction false} FilterAll<T(!new)>(xs: seq<T>, p: T -> bool)
    requires forall i :: 0 <= i < |xs| ==> p(xs[i])
    ensures Filter(xs, p) == xs
  {
    if xs != [] {
      FilterAll(xs[1..], p);
      assert [xs[0]] + xs[1..] == xs;
    }
  }

  /** JavaScript's `xs.filter(p).length`. */
  function Count<T(==)>(xs: seq<T>, p: T -> bool): (n: nat)
    ensures n <= |xs|
    ensures n == 0 <==> forall i :: 0 <= i < |xs| ==> !p(xs[i])
  {
    if xs == [] then 0
    else (if p(xs[0]) then 1 else 0) + Count(xs[1..], p)
  }

  /** Counting an extended list adds the last element's contribution. */
  lemma {:induction false} CountAppend<T>(xs: seq<T>, x: T, p: T -> bool)
    ensures Count(xs + [x], p) == Count(xs, p) + (if p(x) then 1 else 0)
  {
    if xs == [] {
      assert xs + [x] == [x];
    } else {
      assert (xs + [x])[1..] == xs[1..] + [x];
      CountAppend(xs[1..], x, p);
    }
  }

  /** Counting a non-empty list is counting all but its last element, plus that element. */
  lemma CountLast<T>(xs: seq<T>, p: T -> bool)
    requires xs != []
    ensures Count(xs, p) == Count(xs[..|xs| - 1], p) + (if p(xs[|xs| - 1]) then 1 else 0)
  {
    var init, last := xs[..|xs| - 1], xs[|xs| - 1];
    CountAppend(init, last, p);
    assert init + [last] == xs;
  }

  /** A predicate implied by another counts at least as many elements. */
  lemma {:induction false} CountMonotone<T>(xs: seq<T>, p: T -> bool, q: T -> bool)
    requires forall x :: p(x) ==> q(x)
    ensures Count(xs, p) <= Count(xs, q)
  {
    if xs != [] {
      CountMonotone(xs[1..], p, q);
    }
  }

  /** Counting is the length of the filtered list. */
  lemma {:induction false} CountIsFilterLength<T(!new)>(xs: seq<T>, p: T -> bool)
    ensures Count(xs, p) == |Filter(xs, p)|
  {
    if xs != [] {
      CountIsFilterLength(xs[1..], p);
    }
  }

  /** A subsequence whose elements all pass holds at most the passing elements. */
  lemma {:induction false} SubsequenceCount<T>(r: seq<T>, xs: seq<T>, p: T -> bool)
    requires IsSubsequence(r, xs)
    requires forall i :: 0 <= i < |r| ==> p(r[i])
    ensures |r| <= Count(xs, p)
    decreases |xs|
  {
    if r != [] && xs != [] {
      if r[0] == xs[0] {
        SubsequenceCount(r[1..], xs[1..], p);
      } else {
        SubsequenceCount(r, xs[1..], p);
      }
    }
  }

  /** The filter is the only order-preserving subsequence of passing elements that keeps as many
      elements as pass: a list with these three properties is `Filter(xs, p)`. */
  lemma {:induction false} FilterUnique<T(!new)>(r: seq<T>, xs: seq<T>, p: T -> bool)
    requires IsSubsequence(r, xs)
    requires forall i :: 0 <= i < |r| ==> p(r[i])
    requires |r| == Count(xs, p)
    ensures r == Filter(xs, p)
    decreases |xs|
  {
    if xs == [] {
    } else if r == [] {
      FilterUnique(r, xs[1..], p);
    } else if r[0] == xs[0] {
      FilterUnique(r[1..], xs[1..], p);
      assert [r[0]] + r[1..] == r;
    } else {
      if p(xs[0]) {
        SubsequenceCount(r, xs[1..], p);
        assert false;
      }
      FilterUnique(r, xs[1..], p);
    }
  }

  /** Four pairwise exclusive predicates count at most the whole list. */
  lemma {:induction false} ExclusiveCountsBounded<T(!new)>(xs: seq<T>, a: T -> bool, b: T -> bool, c: T -> bool, d: T -> bool)
    requires forall x :: (a(x) ==> !b(x) && !c(x) && !d(x)) && (b(x) ==> !c(x) && !d(x)) && (c(x) ==> !d(x))
    ensures Count(xs, a) + Count(xs, b) + Count(xs, c) + Count(xs, d) <= |xs|
  {
    if xs != [] {
      ExclusiveCountsBounded(xs[1..], a, b, c, d);
    }
  }
}
