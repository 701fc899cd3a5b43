/**
 * Sequence combinators that mirror JavaScript's `Array.prototype.filter`, `map`
 * and the summing `reduce`, with the facts about them that the pages rely on.
 */
module Seqs {

  /** `r` is an order-preserving subsequence of `s`: `r` is `s` with some elements dropped. */
  ghost predicate IsSubsequence<T>(r: seq<T>, s: seq<T>)
    decreases |s|
  {
    if r == [] then true
    else if s == [] then false
    else (r[0] == s[0] && IsSubsequence(r[1..], s[1..])) || IsSubsequence(r, s[1..])
  }

  /** `xs.filter(p)`: the elements of `s` that satisfy `p`, in their original order. */
  function Filter<T(!new)>(p: T -> bool, s: seq<T>): (r: seq<T>)
    ensures |r| <= |s|
    ensures forall i :: 0 <= i < |r| ==> p(r[i])
    ensures forall x :: x in r <==> x in s && p(x)
    ensures forall x :: multiset(r)[x] == if p(x) then multiset(s)[x] else 0
  {
    if s == [] then []
    else
      var rest := Filter(p, s[1..]);
      assert s == [s[0]] + s[1..];
      assert multiset(s) == multiset{s[0]} + multiset(s[1..]);
      if p(s[0]) then [s[0]] + rest else rest
  }

  /** `xs.map(f)`. */
  function MapSeq<T, U>(f: T -> U, s: seq<T>): (r: seq<U>)
    ensures |r| == |s|
    ensures forall i :: 0 <= i < |s| ==> r[i] == f(s[i])
  {
    seq(|s|, i requires 0 <= i < |s| => f(s[i]))
  }

  /** `xs.reduce((sum, x) => sum + f(x), 0)` over unbounded integers. */
  function SumOf<T>(f: T -> int, s: seq<T>): int
  {
    if s == [] then 0 else f(s[0]) + SumOf(f, s[1..])
  }

  /** Every filter result is an order-preserving subsequence of its input. */
  lemma {:induction false} FilterIsSubsequence<T(!new)>(p: T -> bool, s: seq<T>)
    ensures IsSubsequence(Filter(p, s), s)
  {
    if s != [] {
      FilterIsSubsequence(p, s[1..]);
      var rest := Filter(p, s[1..]);
      if p(s[0]) {
        assert Filter(p, s) == [s[0]] + rest;
        assert ([s[0]] + rest)[1..] == rest;
      } else {
        assert Filter(p, s) == rest;
        SubsequenceDropHead(rest, s);
      }
    }
  }

  /** Dropping the head of the longer sequence keeps a subsequence a subsequence of the whole. */
  lemma SubsequenceDropHead<T>(r: seq<T>, s: seq<T>)
    requires s != [] && IsSubsequence(r, s[1..])
    ensures IsSubsequence(r, s)
  {
  }

  /** A filter that rejects nothing returns its input unchanged. */
  lemma {:induction false} FilterAll<T(!new)>(p: T -> bool, s: seq<T>)
    requires forall x :: x in s ==> p(x)
    ensures Filter(p, s) == s
  {
    if s != [] {
      FilterAll(p, s[1..]);
      assert s == [s[0]] + s[1..];
    }
  }

  /** Filtering distributes over concatenation. */
  lemma {:induction false} FilterAppend<T(!new)>(p: T -> bool, a: seq<T>, b: seq<T>)
    ensures Filter(p, a + b) == Filter(p, a) + Filter(p, b)
  {
    if a == [] {
      assert a + b == b;
    } else {
      var ab := a + b;
      assert ab[0] == a[0] && ab[1..] == a[1..] + b;
      FilterAppend(p, a[1..], b);
      if p(a[0]) {
        assert Filter(p, ab) == [a[0]] + (Filter(p, a[1..]) + Filter(p, b));
      }
    }
  }

  /** Filtering by `p` and by its complement `q` splits `s` in two: the lengths add up. */
  lemma {:induction false} FilterSplitLength<T(!new)>(p: T -> bool, q: T -> bool, s: seq<T>)
    requires forall x :: q(x) == !p(x)
    ensures |Filter(p, s)| + |Filter(q, s)| == |s|
  {
    if s != [] {
      FilterSplitLength(p, q, s[1..]);
    }
  }

  /** Sums distribute over concatenation. */
  lemma {:induction false} SumOfAppend<T>(f: T -> int, a: seq<T>, b: seq<T>)
    ensures SumOf(f, a + b) == SumOf(f, a) + SumOf(f, b)
  {
    if a == [] {
      assert a + b == b;
    } else {
      SumOfAppend(f, a[1..], b);
      assert (a + b)[1..] == a[1..] + b;
    }
  }

  /** Filtering by `p` and by its complement `q` splits a sum in two. */
  lemma {:induction false} SumOfFilterSplit<T(!new)>(f: T -> int, p: T -> bool, q: T -> bool, s: seq<T>)
    requires forall x :: q(x) == !p(x)
    ensures SumOf(f, s) == SumOf(f, Filter(p, s)) + SumOf(f, Filter(q, s))
  {
    if s != [] {
      SumOfFilterSplit(f, p, q, s[1..]);
      var yes, no := Filter(p, s[1..]), Filter(q, s[1..]);
      if p(s[0]) {
        assert Filter(p, s) == [s[0]] + yes;
        assert ([s[0]] + yes)[1..] == yes;
      } else {
        assert Filter(q, s) == [s[0]] + no;
        assert ([s[0]] + no)[1..] == no;
      }
    }
  }

  /** A sum of terms that are each at least `lo` is at least `lo` times the length. */
  lemma {:induction false} SumOfLowerBound<T>(f: T -> int, s: seq<T>, lo: int)
    requires forall x :: x in s ==> f(x) >= lo
    ensures SumOf(f, s) >= lo * |s|
  {
    if s != [] {
      SumOfLowerBound(f, s[1..], lo);
    }
  }

  /** A sum of zeros is zero. */
  lemma {:induction false} SumOfZeros<T>(f: T -> int, s: seq<T>)
    requires forall x :: x in s ==> f(x) == 0
    ensures SumOf(f, s) == 0
  {
    if s != [] {
      SumOfZeros(f, s[1..]);
    }
  }

  /** Mapping preserves the subsequence relation. */
  lemma {:induction false} MapSeqSubsequence<T, U>(f: T -> U, r: seq<T>, s: seq<T>)
    requires IsSubsequence(r, s)
    ensures IsSubsequence(MapSeq(f, r), MapSeq(f, s))
    decreases |s|
  {
    if r != [] {
      assert MapSeq(f, s)[1..] == MapSeq(f, s[1..]);
      if r[0] == s[0] && IsSubsequence(r[1..], s[1..]) {
        MapSeqSubsequence(f, r[1..], s[1..]);
        assert MapSeq(f, r)[1..] == MapSeq(f, r[1..]);
      } else {
        MapSeqSubsequence(f, r, s[1..]);
      }
    }
  }
}
