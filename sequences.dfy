/** Array.prototype.filter over immutable sequences, and what "keeps the original
    order" means: an order-preserving index embedding of the result into the input. */
module Sequences {

  /** The elements of `s` that satisfy `p`, in their original order. */
  function Filter<T>(p: T -> bool, s: seq<T>): (r: seq<T>)
    ensures |r| <= |s|
    ensures forall x :: x in r ==> x in s && p(x)
    ensures forall x :: x in s && p(x) ==> x in r
  {
    if s == [] then []
    else if p(s[0]) then [s[0]] + Filter(p, s[1..])
    else Filter(p, s[1..])
  }

  /** The conjunction of two predicates. */
  function And<T>(p: T -> bool, q: T -> bool): T -> bool
  {
    x => p(x) && q(x)
  }

  /** `s[i..i + |n|] == n`, as a named predicate so that quantifiers over `i` have a trigger. */
  predicate OccursAt<T(==)>(n: seq<T>, h: seq<T>, i: nat)
  {
    i + |n| <= |h| && h[i..i + |n|] == n
  }

  /** `n` is a contiguous slice of `h`. */
  ghost predicate IsSubstring<T>(n: seq<T>, h: seq<T>)
  {
    exists i: nat :: OccursAt(n, h, i)
  }

  /** `f` maps every position of `a` to a position of `b` holding the same
      element, and maps positions in strictly increasing order. */
  ghost predicate Embeds<T>(f: seq<nat>, a: seq<T>, b: seq<T>)
  {
    && |f| == |a|
    && (forall k :: 0 <= k < |f| ==> f[k] < |b| && a[k] == b[f[k]])
    && (forall j, k :: 0 <= j < k < |f| ==> f[j] < f[k])
  }

  /** `a` is obtained from `b` by deleting elements: nothing reordered, duplicated or added. */
  ghost predicate IsSubsequence<T>(a: seq<T>, b: seq<T>)
  {
    exists f :: Embeds(f, a, b)
  }

  function Shifted(f: seq<nat>): seq<nat>
  {
    seq(|f|, k requires 0 <= k < |f| => f[k] + 1)
  }

  /** The positions of `s` whose elements `Filter(p, s)` keeps. */
  function FilterIndices<T>(p: T -> bool, s: seq<T>): seq<nat>
  {
    if s == [] then []
    else if p(s[0]) then [0] + Shifted(FilterIndices(p, s[1..]))
    else Shifted(FilterIndices(p, s[1..]))
  }

  lemma ShiftedEmbeds<T>(f: seq<nat>, a: seq<T>, s: seq<T>)
    requires s != [] && Embeds(f, a, s[1..])
    ensures Embeds(Shifted(f), a, s)
    ensures forall k :: 0 <= k < |f| ==> Shifted(f)[k] >= 1
  {
  }

  lemma ConsEmbeds<T>(g: seq<nat>, a: seq<T>, s: seq<T>)
    requires s != [] && Embeds(g, a, s)
    requires forall k :: 0 <= k < |g| ==> g[k] >= 1
    ensures Embeds([0] + g, [s[0]] + a, s)
  {
    var f, b := [0] + g, [s[0]] + a;
    assert forall k :: 1 <= k < |f| ==> f[k] == g[k - 1] && b[k] == a[k - 1];
  }

  lemma {:induction false} FilterEmbeds<T>(p: T -> bool, s: seq<T>)
    ensures Embeds(FilterIndices(p, s), Filter(p, s), s)
  {
    if s != [] {
      var f := FilterIndices(p, s[1..]);
      FilterEmbeds(p, s[1..]);
      ShiftedEmbeds(f, Filter(p, s[1..]), s);
      if p(s[0]) {
        ConsEmbeds(Shifted(f), Filter(p, s[1..]), s);
      }
    }
  }

  /** Filtering never reorders, duplicates or invents elements. */
  lemma FilterIsSubsequence<T>(p: T -> bool, s: seq<T>)
    ensures IsSubsequence(Filter(p, s), s)
  {
    FilterEmbeds(p, s);
  }

  /** Filtering keeps every occurrence of an accepted element and no occurrence of a rejected one. */
  lemma {:induction false} FilterMultiplicity<T>(p: T -> bool, s: seq<T>, x: T)
    ensures multiset(Filter(p, s))[x] == if p(x) then multiset(s)[x] else 0
  {
    if s != [] {
      FilterMultiplicity(p, s[1..], x);
      assert s == [s[0]] + s[1..];
      assert multiset(s) == multiset([s[0]]) + multiset(s[1..]);
      if p(s[0]) {
        assert multiset(Filter(p, s)) == multiset([s[0]]) + multiset(Filter(p, s[1..]));
      }
    }
  }

  /** A filter that accepts every element of `s` returns `s` itself. */
  lemma {:induction false} FilterKeepsAll<T>(p: T -> bool, s: seq<T>)
    requires forall x :: x in s ==> p(x)
    ensures Filter(p, s) == s
  {
    if s != [] {
      assert s[0] in s;
      assert forall x :: x in s[1..] ==> x in s;
      FilterKeepsAll(p, s[1..]);
      assert s == [s[0]] + s[1..];
    }
  }

  /** Two predicates that agree on the elements of `s` filter it alike. */
  lemma {:induction false} FilterCongruent<T>(p: T -> bool, q: T -> bool, s: seq<T>)
    requires forall x :: x in s ==> p(x) == q(x)
    ensures Filter(p, s) == Filter(q, s)
  {
    if s != [] {
      assert s[0] in s;
      assert forall x :: x in s[1..] ==> x in s;
      FilterCongruent(p, q, s[1..]);
    }
  }

  /** Filtering twice is filtering once by the conjunction. */
  lemma {:induction false} FilterFusion<T>(p: T -> bool, q: T -> bool, s: seq<T>)
    ensures Filter(q, Filter(p, s)) == Filter(And(p, q), s)
  {
    if s != [] {
      FilterFusion(p, q, s[1..]);
      if p(s[0]) {
        assert Filter(p, s) == [s[0]] + Filter(p, s[1..]);
        assert Filter(p, s)[1..] == Filter(p, s[1..]);
      }
    }
  }

  /** Filtering a two-element sequence, for worked examples. */
  lemma FilterPair<T>(p: T -> bool, a: T, b: T)
    ensures Filter(p, [a, b]) == (if p(a) then [a] else []) + (if p(b) then [b] else [])
  {
    assert [a, b][1..] == [b];
  }

  /** Re-filtering a filtered sequence by the same predicate changes nothing. */
  lemma FilterIdempotent<T>(p: T -> bool, s: seq<T>)
    ensures Filter(p, Filter(p, s)) == Filter(p, s)
  {
    FilterKeepsAll(p, Filter(p, s));
  }
}
