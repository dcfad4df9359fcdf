/** Order-preserving filtering, prefixes and sums over sequences, with the facts the screens rely
    on: a filter keeps exactly the elements that pass, in their original order. */
module SeqUtil {

  /** `Array.prototype.filter`: the elements of `s` that satisfy `p`, in order. */
  function Filter<T(==)>(s: seq<T>, p: T -> bool): (r: seq<T>)
    ensures |r| <= |s|
    ensures forall i :: 0 <= i < |r| ==> r[i] in s && p(r[i])
    ensures forall i :: 0 <= i < |s| && p(s[i]) ==> s[i] in r
    decreases |s|
  {
    if s == [] then []
    else Filter(s[..|s| - 1], p) + (if p(s[|s| - 1]) then [s[|s| - 1]] else [])
  }

  /** A filter keeps every copy of an element that passes and none of one that fails. */
  lemma {:induction false} FilterMultiplicity<T>(s: seq<T>, p: T -> bool, x: T)
    ensures multiset(Filter(s, p))[x] == if p(x) then multiset(s)[x] else 0
    decreases |s|
  {
    if s != [] {
      var init, last := s[..|s| - 1], s[|s| - 1];
      FilterMultiplicity(init, p, x);
      assert s == init + [last];
      assert multiset(s) == multiset(init) + multiset{last};
      assert multiset(Filter(s, p)) == multiset(Filter(init, p)) + multiset(if p(last) then [last] else []);
    }
  }

  /** `a` is obtained from `b` by deleting elements, keeping the order of the rest. */
  predicate IsSubseq<T(==)>(a: seq<T>, b: seq<T>)
    decreases |b|
  {
    if a == [] then true
    else if b == [] then false
    else (a[|a| - 1] == b[|b| - 1] && IsSubseq(a[..|a| - 1], b[..|b| - 1]))
         || IsSubseq(a, b[..|b| - 1])
  }

  /** `Array.prototype.slice(0, n)`: the first `n` elements, or all of `s` when it is shorter. */
  function Take<T>(s: seq<T>, n: nat): (r: seq<T>)
    ensures |r| == (if |s| < n then |s| else n)
    ensures r <= s
  {
    if |s| < n then s else s[..n]
  }

  /** The sum of `f` over `s` (a `reduce` with initial value 0). */
  function SumInt<T>(s: seq<T>, f: T -> int): int
    decreases |s|
  {
    if s == [] then 0 else SumInt(s[..|s| - 1], f) + f(s[|s| - 1])
  }

  /** The same over real-valued fields. */
  function SumReal<T>(s: seq<T>, f: T -> real): real
    decreases |s|
  {
    if s == [] then 0.0 else SumReal(s[..|s| - 1], f) + f(s[|s| - 1])
  }

  /** Filtering one element more appends that element exactly when it passes. */
  lemma FilterSnoc<T>(s: seq<T>, x: T, p: T -> bool)
    ensures Filter(s + [x], p) == Filter(s, p) + (if p(x) then [x] else [])
  {
    assert (s + [x])[..|s + [x]| - 1] == s;
  }

  /** Summing one element more adds its value. */
  lemma SumIntSnoc<T>(s: seq<T>, x: T, f: T -> int)
    ensures SumInt(s + [x], f) == SumInt(s, f) + f(x)
  {
    assert (s + [x])[..|s + [x]| - 1] == s;
  }

  lemma SumRealSnoc<T>(s: seq<T>, x: T, f: T -> real)
    ensures SumReal(s + [x], f) == SumReal(s, f) + f(x)
  {
    assert (s + [x])[..|s + [x]| - 1] == s;
  }

  /** Filtering one element more adds its value to a sum over the kept elements exactly when it
      passes. */
  lemma FilterSumSnoc<T>(s: seq<T>, x: T, p: T -> bool, f: T -> int, g: T -> real)
    ensures |Filter(s + [x], p)| == |Filter(s, p)| + (if p(x) then 1 else 0)
    ensures SumInt(Filter(s + [x], p), f) == SumInt(Filter(s, p), f) + (if p(x) then f(x) else 0)
    ensures SumReal(Filter(s + [x], p), g) == SumReal(Filter(s, p), g) + (if p(x) then g(x) else 0.0)
  {
    FilterSnoc(s, x, p);
    if p(x) {
      assert Filter(s + [x], p) == Filter(s, p) + [x];
      SumIntSnoc(Filter(s, p), x, f);
      SumRealSnoc(Filter(s, p), x, g);
    } else {
      assert Filter(s + [x], p) == Filter(s, p);
    }
  }

  /** Filtering distributes over concatenation. */
  lemma {:induction false} FilterConcat<T>(a: seq<T>, b: seq<T>, p: T -> bool)
    ensures Filter(a + b, p) == Filter(a, p) + Filter(b, p)
    decreases |b|
  {
    if b == [] {
      assert a + b == a;
    } else {
      var b' := b[..|b| - 1];
      var x := b[|b| - 1];
      assert a + b == (a + b') + [x];
      assert b == b' + [x];
      FilterSnoc(a + b', x, p);
      FilterSnoc(b', x, p);
      FilterConcat(a, b', p);
    }
  }

  /** A filter whose predicate holds of every element returns its input. */
  lemma {:induction false} FilterAll<T>(s: seq<T>, p: T -> bool)
    requires forall i :: 0 <= i < |s| ==> p(s[i])
    ensures Filter(s, p) == s
    decreases |s|
  {
    if s != [] {
      FilterAll(s[..|s| - 1], p);
      assert s == s[..|s| - 1] + [s[|s| - 1]];
    }
  }

  /** Two predicates that agree on the elements of `s` filter it the same way. */
  lemma {:induction false} FilterCongruent<T>(s: seq<T>, p: T -> bool, q: T -> bool)
    requires forall i :: 0 <= i < |s| ==> p(s[i]) == q(s[i])
    ensures Filter(s, p) == Filter(s, q)
    decreases |s|
  {
    if s != [] {
      FilterCongruent(s[..|s| - 1], p, q);
    }
  }

  /** Deleting elements preserves `IsSubseq` after appending one element to the larger side. */
  lemma SubseqSnocRight<T>(a: seq<T>, b: seq<T>, x: T)
    requires IsSubseq(a, b)
    ensures IsSubseq(a, b + [x])
  {
    assert (b + [x])[..|b + [x]| - 1] == b;
  }

  /** Appending the same element to both sides preserves `IsSubseq`. */
  lemma SubseqSnocBoth<T>(a: seq<T>, b: seq<T>, x: T)
    requires IsSubseq(a, b)
    ensures IsSubseq(a + [x], b + [x])
  {
    assert (a + [x])[..|a + [x]| - 1] == a;
    assert (b + [x])[..|b + [x]| - 1] == b;
  }

  /** Every sequence is a subsequence of itself. */
  lemma {:induction false} SubseqRefl<T>(s: seq<T>)
    ensures IsSubseq(s, s)
    decreases |s|
  {
    if s != [] {
      SubseqRefl(s[..|s| - 1]);
      SubseqSnocBoth(s[..|s| - 1], s[..|s| - 1], s[|s| - 1]);
      assert s[..|s| - 1] + [s[|s| - 1]] == s;
    }
  }

  /** Filtering with a stronger predicate keeps a subsequence of what a weaker one keeps. */
  lemma {:induction false} FilterMonotone<T>(s: seq<T>, p: T -> bool, q: T -> bool)
    requires forall x :: q(x) ==> p(x)
    ensures IsSubseq(Filter(s, q), Filter(s, p))
    decreases |s|
  {
    if s == [] {
    } else {
      var s' := s[..|s| - 1];
      var x := s[|s| - 1];
      assert Filter(s, p) == Filter(s', p) + (if p(x) then [x] else []);
      assert Filter(s, q) == Filter(s', q) + (if q(x) then [x] else []);
      FilterMonotone(s', p, q);
      if q(x) {
        SubseqSnocBoth(Filter(s', q), Filter(s', p), x);
      } else if p(x) {
        assert Filter(s, q) == Filter(s', q);
        SubseqSnocRight(Filter(s', q), Filter(s', p), x);
      } else {
        assert Filter(s, q) == Filter(s', q) && Filter(s, p) == Filter(s', p);
      }
    }
  }

  /** A filter's result is a subsequence of its input. */
  lemma FilterIsSubseq<T>(s: seq<T>, p: T -> bool)
    ensures IsSubseq(Filter(s, p), s)
  {
    var always := (x: T) => true;
    FilterAll(s, always);
    FilterMonotone(s, always, p);
  }

  /** A subsequence is never longer than the sequence it comes from. */
  lemma {:induction false} SubseqLength<T>(a: seq<T>, b: seq<T>)
    requires IsSubseq(a, b)
    ensures |a| <= |b|
    decreases |b|
  {
    if a != [] {
      if a[|a| - 1] == b[|b| - 1] && IsSubseq(a[..|a| - 1], b[..|b| - 1]) {
        SubseqLength(a[..|a| - 1], b[..|b| - 1]);
      } else {
        SubseqLength(a, b[..|b| - 1]);
      }
    }
  }

  /** Over a non-negative field, a subsequence never sums to more. */
  lemma {:induction false} SubseqSumInt<T>(a: seq<T>, b: seq<T>, f: T -> int)
    requires IsSubseq(a, b)
    requires forall i :: 0 <= i < |b| ==> f(b[i]) >= 0
    ensures SumInt(a, f) <= SumInt(b, f)
    decreases |b|
  {
    if a == [] {
      SumIntNonNegative(b, f);
    } else if a[|a| - 1] == b[|b| - 1] && IsSubseq(a[..|a| - 1], b[..|b| - 1]) {
      SubseqSumInt(a[..|a| - 1], b[..|b| - 1], f);
    } else {
      SubseqSumInt(a, b[..|b| - 1], f);
    }
  }

  /** The real-valued counterpart of `SubseqSumInt`. */
  lemma {:induction false} SubseqSumReal<T>(a: seq<T>, b: seq<T>, f: T -> real)
    requires IsSubseq(a, b)
    requires forall i :: 0 <= i < |b| ==> f(b[i]) >= 0.0
    ensures SumReal(a, f) <= SumReal(b, f)
    decreases |b|
  {
    if a == [] {
      SumRealNonNegative(b, f);
    } else if a[|a| - 1] == b[|b| - 1] && IsSubseq(a[..|a| - 1], b[..|b| - 1]) {
      SubseqSumReal(a[..|a| - 1], b[..|b| - 1], f);
    } else {
      SubseqSumReal(a, b[..|b| - 1], f);
    }
  }

  lemma {:induction false} SumIntNonNegative<T>(s: seq<T>, f: T -> int)
    requires forall i :: 0 <= i < |s| ==> f(s[i]) >= 0
    ensures SumInt(s, f) >= 0
    decreases |s|
  {
    if s != [] {
      SumIntNonNegative(s[..|s| - 1], f);
    }
  }

  lemma {:induction false} SumRealNonNegative<T>(s: seq<T>, f: T -> real)
    requires forall i :: 0 <= i < |s| ==> f(s[i]) >= 0.0
    ensures SumReal(s, f) >= 0.0
    decreases |s|
  {
    if s != [] {
      SumRealNonNegative(s[..|s| - 1], f);
    }
  }

  /** Filtering by the union of two disjoint predicates keeps as many elements as the two filters
      together. */
  lemma {:induction false} FilterDisjointCount<T>(s: seq<T>, p: T -> bool, q: T -> bool, r: T -> bool)
    requires forall x :: r(x) <==> p(x) || q(x)
    requires forall x :: !(p(x) && q(x))
    ensures |Filter(s, p)| + |Filter(s, q)| == |Filter(s, r)|
    decreases |s|
  {
    if s != [] {
      FilterDisjointCount(s[..|s| - 1], p, q, r);
    }
  }

  /** Filtering a filtered sequence with a predicate that implies the first is a single filter. */
  lemma {:induction false} FilterFilter<T>(s: seq<T>, p: T -> bool, q: T -> bool)
    requires forall x :: q(x) ==> p(x)
    ensures Filter(Filter(s, p), q) == Filter(s, q)
    decreases |s|
  {
    if s != [] {
      var s' := s[..|s| - 1];
      var x := s[|s| - 1];
      assert Filter(s, p) == Filter(s', p) + (if p(x) then [x] else []);
      assert Filter(s, q) == Filter(s', q) + (if q(x) then [x] else []);
      FilterFilter(s', p, q);
      FilterSnoc(Filter(s', p), x, q);
      if !p(x) {
        assert Filter(s, p) == Filter(s', p);
      }
    }
  }
}
