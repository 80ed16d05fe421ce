/** Occurrence counts, first-seen order and histograms over sequences. */
module Counting {

  /** Number of occurrences of x in s. */
  function Count<T(==)>(s: seq<T>, x: T): (n: nat)
    ensures n <= |s|
    ensures n > 0 <==> x in s
  {
    if |s| == 0 then 0
    else
      assert s == s[..|s| - 1] + [s[|s| - 1]];
      Count(s[..|s| - 1], x) + (if s[|s| - 1] == x then 1 else 0)
  }

  lemma {:induction false} CountSnoc<T>(s: seq<T>, a: T, x: T)
    ensures Count(s + [a], x) == Count(s, x) + (if a == x then 1 else 0)
  {
    assert (s + [a])[..|s|] == s;
  }

  predicate Distinct<T(==)>(s: seq<T>) {
    forall i, j :: 0 <= i < j < |s| ==> s[i] != s[j]
  }

  /** Index of the first occurrence of x in s. */
  function IndexOf<T(==)>(s: seq<T>, x: T): (k: nat)
    requires x in s
    ensures k < |s| && s[k] == x
    ensures forall j :: 0 <= j < k ==> s[j] != x
  {
    if s[0] == x then 0 else 1 + IndexOf(s[1..], x)
  }

  /** The distinct elements of s, each where it first occurs. */
  function FirstSeen<T(==, !new)>(s: seq<T>): (r: seq<T>)
    ensures forall x :: x in r <==> x in s
  {
    if |s| == 0 then []
    else
      var r := FirstSeen(s[..|s| - 1]);
      var last := s[|s| - 1];
      assert s == s[..|s| - 1] + [last];
      if last in r then r else r + [last]
  }

  /** FirstSeen lists no element twice. */
  lemma {:induction false} FirstSeenDistinct<T(!new)>(s: seq<T>)
    ensures Distinct(FirstSeen(s))
  {
    if |s| > 0 {
      var p, a := s[..|s| - 1], s[|s| - 1];
      assert s == p + [a];
      FirstSeenDistinct(p);
      FirstSeenSnoc(p, a);
    }
  }

  /** A sequence of one repeated value has at most one distinct element. */
  lemma {:induction false} FirstSeenConstant<T(!new)>(s: seq<T>, c: T)
    requires forall i :: 0 <= i < |s| ==> s[i] == c
    ensures |FirstSeen(s)| <= 1
  {
    if |s| > 0 {
      var p := s[..|s| - 1];
      FirstSeenConstant(p, c);
      FirstSeenSnoc(p, s[|s| - 1]);
      assert s == p + [s[|s| - 1]];
      if |FirstSeen(p)| == 1 {
        assert FirstSeen(p)[0] in p;
      }
    }
  }

  lemma {:induction false} FirstSeenSnoc<T(!new)>(s: seq<T>, a: T)
    ensures FirstSeen(s + [a]) == if a in FirstSeen(s) then FirstSeen(s) else FirstSeen(s) + [a]
  {
    assert (s + [a])[..|s|] == s;
  }

  lemma {:induction false} IndexOfSnoc<T>(s: seq<T>, a: T, x: T)
    requires x in s
    ensures IndexOf(s + [a], x) == IndexOf(s, x)
  {
    var k := IndexOf(s, x);
    assert (s + [a])[k] == x;
    assert forall j :: 0 <= j < k ==> (s + [a])[j] == s[j];
  }

  lemma {:induction false} IndexOfLast<T>(s: seq<T>, a: T)
    requires a !in s
    ensures IndexOf(s + [a], a) == |s|
  {
    assert forall j :: 0 <= j < |s| ==> (s + [a])[j] == s[j];
  }

  /** FirstSeen lists the elements in the order of their first occurrences. */
  lemma {:induction false} FirstSeenOrdered<T(!new)>(s: seq<T>)
    ensures forall i, j :: 0 <= i < j < |FirstSeen(s)| ==>
      IndexOf(s, FirstSeen(s)[i]) < IndexOf(s, FirstSeen(s)[j])
  {
    if |s| > 0 {
      var p, a := s[..|s| - 1], s[|s| - 1];
      assert s == p + [a];
      FirstSeenOrdered(p);
      FirstSeenSnoc(p, a);
      var r, q := FirstSeen(p), FirstSeen(s);
      forall i, j | 0 <= i < j < |q|
        ensures IndexOf(s, q[i]) < IndexOf(s, q[j])
      {
        assert q[i] == r[i] && r[i] in r;
        IndexOfSnoc(p, a, r[i]);
        if j < |r| {
          assert q[j] == r[j] && r[j] in r;
          IndexOfSnoc(p, a, r[j]);
        } else {
          IndexOfLast(p, a);
        }
      }
    }
  }

  /** Sum of the occurrence counts in s of the keys, in order. */
  function SumCounts<T(==)>(keys: seq<T>, s: seq<T>): nat
  {
    if |keys| == 0 then 0 else SumCounts(keys[..|keys| - 1], s) + Count(s, keys[|keys| - 1])
  }

  lemma {:induction false} SumCountsSnoc<T>(keys: seq<T>, s: seq<T>, a: T)
    requires Distinct(keys)
    ensures SumCounts(keys, s + [a]) == SumCounts(keys, s) + (if a in keys then 1 else 0)
  {
    if |keys| > 0 {
      var ks, k := keys[..|keys| - 1], keys[|keys| - 1];
      assert keys == ks + [k];
      SumCountsSnoc(ks, s, a);
      CountSnoc(s, a, k);
      assert a in keys <==> a in ks || a == k;
      assert k !in ks;
    }
  }

  /** Counting every distinct element once accounts for every entry of s. */
  lemma {:induction false} FirstSeenCountsAll<T(!new)>(s: seq<T>)
    ensures SumCounts(FirstSeen(s), s) == |s|
  {
    if |s| > 0 {
      var p, a := s[..|s| - 1], s[|s| - 1];
      assert s == p + [a];
      FirstSeenCountsAll(p);
      FirstSeenSnoc(p, a);
      var r := FirstSeen(p);
      FirstSeenDistinct(p);
      SumCountsSnoc(r, p, a);
      if a !in r {
        assert a !in p;
        assert SumCounts(r + [a], s) == SumCounts(r, s) + Count(s, a);
        assert (r + [a])[..|r|] == r;
        CountSnoc(p, a, a);
      }
    }
  }

  /** Left-to-right sum of integers. */
  function SumInts(s: seq<int>): int
  {
    if |s| == 0 then 0 else SumInts(s[..|s| - 1]) + s[|s| - 1]
  }

  lemma {:induction false} SumIntsIncrement(s: seq<int>, i: nat)
    requires i < |s|
    ensures SumInts(s[i := s[i] + 1]) == SumInts(s) + 1
  {
    var t := s[i := s[i] + 1];
    if i < |s| - 1 {
      assert t[..|t| - 1] == s[..|s| - 1][i := s[i] + 1];
      SumIntsIncrement(s[..|s| - 1], i);
    } else {
      assert t[..|t| - 1] == s[..|s| - 1];
    }
  }

  /** One more value in a histogram: its bucket goes up by one, if it has one. */
  function Bump(hist: seq<nat>, p: int): (r: seq<nat>)
    ensures |r| == |hist|
  {
    if 0 <= p < |hist| then hist[p := hist[p] + 1] else hist
  }

  /** Bucket counts of the integers ps over buckets 0 .. n-1, one value at a time; values outside are dropped. */
  function Histogram(ps: seq<int>, n: nat): (h: seq<nat>)
    ensures |h| == n
  {
    if |ps| == 0 then seq(n, _ => 0) else Bump(Histogram(ps[..|ps| - 1], n), ps[|ps| - 1])
  }

  lemma {:induction false} HistogramSnoc(ps: seq<int>, n: nat, p: int)
    ensures Histogram(ps + [p], n) == Bump(Histogram(ps, n), p)
  {
    assert (ps + [p])[..|ps|] == ps;
  }

  /** Each bucket holds the number of occurrences of its index. */
  lemma {:induction false} HistogramCounts(ps: seq<int>, n: nat)
    ensures forall p :: 0 <= p < n ==> Histogram(ps, n)[p] == Count(ps, p)
  {
    if |ps| > 0 {
      var qs, q := ps[..|ps| - 1], ps[|ps| - 1];
      assert ps == qs + [q];
      HistogramCounts(qs, n);
      forall p | 0 <= p < n ensures Histogram(ps, n)[p] == Count(ps, p) {
        CountSnoc(qs, q, p);
      }
    }
  }

  /** How many values of ps fall in 0 .. n-1. */
  function InRange(ps: seq<int>, n: nat): (c: nat)
    ensures c <= |ps|
  {
    if |ps| == 0 then 0
    else InRange(ps[..|ps| - 1], n) + (if 0 <= ps[|ps| - 1] < n then 1 else 0)
  }

  /** A histogram's buckets add up to the number of values that fall in its range. */
  lemma {:induction false} HistogramTotal(ps: seq<int>, n: nat)
    ensures SumInts(Histogram(ps, n)) == InRange(ps, n)
    ensures (forall i :: 0 <= i < |ps| ==> 0 <= ps[i] < n) ==> InRange(ps, n) == |ps|
  {
    if |ps| == 0 {
      assert Histogram(ps, n) == seq(n, _ => 0);
      ZeroSum(n);
    } else {
      var qs, p := ps[..|ps| - 1], ps[|ps| - 1];
      assert ps == qs + [p];
      HistogramTotal(qs, n);
      HistogramSnoc(qs, n, p);
      if 0 <= p < n {
        SumIntsIncrement(Histogram(qs, n), p);
      }
    }
  }

  lemma {:induction false} ZeroSum(n: nat)
    ensures SumInts(seq(n, _ => 0)) == 0
  {
    if n > 0 {
      assert seq(n, _ => 0)[..n - 1] == seq(n - 1, _ => 0);
      ZeroSum(n - 1);
    }
  }
}
