/** The array operations the front-end leans on: `filter`, a stable
    `sort` (also the order a `select ... order by` returns), and
    `slice` with JavaScript's negative-index rules. */
module Seqs {

  function Min(a: int, b: int): int
  {
    if a <= b then a else b
  }

  /** `Array.prototype.filter`: keeps, in order, the elements that satisfy `p`. */
  function Filter<T(!new)>(s: seq<T>, p: T -> bool): (r: seq<T>)
    ensures |r| <= |s|
    ensures forall x | x in r :: p(x)
    ensures forall x :: multiset(r)[x] == if p(x) then multiset(s)[x] else 0
  {
    if s == [] then []
    else
      var rest := Filter(s[1..], p);
      assert s == [s[0]] + s[1..];
      if p(s[0]) then [s[0]] + rest else rest
  }

  /** Filtering distributes over concatenation, so the kept elements stay in their original order. */
  lemma {:induction false} FilterAppend<T(!new)>(a: seq<T>, b: seq<T>, p: T -> bool)
    ensures Filter(a + b, p) == Filter(a, p) + Filter(b, p)
  {
    if a == [] {
      assert a + b == b;
    } else {
      var ab := a + b;
      assert ab[0] == a[0] && ab[1..] == a[1..] + b;
      FilterAppend(a[1..], b, p);
      var head := if p(a[0]) then [a[0]] else [];
      calc {
        Filter(ab, p);
        head + Filter(a[1..] + b, p);
        head + (Filter(a[1..], p) + Filter(b, p));
        (head + Filter(a[1..], p)) + Filter(b, p);
      }
    }
  }

  /** Filters by predicates that agree everywhere give the same sequence. */
  lemma {:induction false} FilterSamePredicate<T(!new)>(s: seq<T>, p: T -> bool, q: T -> bool)
    requires forall x :: p(x) == q(x)
    ensures Filter(s, p) == Filter(s, q)
  {
    if s != [] {
      FilterSamePredicate(s[1..], p, q);
    }
  }

  /** A filter that keeps every element returns the sequence unchanged. */
  lemma {:induction false} FilterKeepsAll<T(!new)>(s: seq<T>, p: T -> bool)
    requires forall i | 0 <= i < |s| :: p(s[i])
    ensures Filter(s, p) == s
  {
    if s != [] {
      FilterKeepsAll(s[1..], p);
    }
  }

  /** `le` is a total preorder: what a comparator-based sort needs. */
  ghost predicate TotalPreorder<T(!new)>(le: (T, T) -> bool)
  {
    && (forall a, b :: le(a, b) || le(b, a))
    && (forall a, b, c :: le(a, b) && le(b, c) ==> le(a, c))
  }

  predicate SortedBy<T>(s: seq<T>, le: (T, T) -> bool)
  {
    forall i, j | 0 <= i < j < |s| :: le(s[i], s[j])
  }

  /** Puts `x` in front of the first element it may precede; ties keep `x` first. */
  function Insert<T>(x: T, s: seq<T>, le: (T, T) -> bool): (r: seq<T>)
    ensures |r| == |s| + 1
    ensures multiset(r) == multiset(s) + multiset{x}
  {
    if s == [] then [x]
    else if le(x, s[0]) then [x] + s
    else
      assert s == [s[0]] + s[1..];
      [s[0]] + Insert(x, s[1..], le)
  }

  /** A stable insertion sort, as `Array.prototype.sort` with a comparator behaves. */
  function SortBy<T>(s: seq<T>, le: (T, T) -> bool): (r: seq<T>)
    ensures |r| == |s|
    ensures multiset(r) == multiset(s)
  {
    if s == [] then []
    else
      assert s == [s[0]] + s[1..];
      Insert(s[0], SortBy(s[1..], le), le)
  }

  lemma {:induction false} InsertSorted<T(!new)>(x: T, s: seq<T>, le: (T, T) -> bool)
    requires TotalPreorder(le)
    requires SortedBy(s, le)
    ensures SortedBy(Insert(x, s, le), le)
  {
    if s == [] {
    } else if le(x, s[0]) {
      var r := [x] + s;
      forall i, j | 0 <= i < j < |r| ensures le(r[i], r[j]) {
        if i == 0 && j > 1 {
          assert le(s[0], s[j - 1]);
        }
      }
    } else {
      var tail := Insert(x, s[1..], le);
      InsertSorted(x, s[1..], le);
      assert le(s[0], x);
      forall y | y in tail ensures le(s[0], y) {
        assert y in multiset(tail);
        if y != x {
          assert y in multiset(s[1..]);
          var k :| 0 <= k < |s[1..]| && s[1..][k] == y;
          assert s[k + 1] == y;
        }
      }
      var r := [s[0]] + tail;
      forall i, j | 0 <= i < j < |r| ensures le(r[i], r[j]) {
        if i == 0 {
          assert r[j] == tail[j - 1];
          assert tail[j - 1] in tail;
        } else {
          assert r[i] == tail[i - 1] && r[j] == tail[j - 1];
        }
      }
    }
  }

  /** `SortBy` produces a sorted permutation of its input. */
  lemma {:induction false} SortBySorted<T(!new)>(s: seq<T>, le: (T, T) -> bool)
    requires TotalPreorder(le)
    ensures SortedBy(SortBy(s, le), le)
    ensures multiset(SortBy(s, le)) == multiset(s)
  {
    if s != [] {
      SortBySorted(s[1..], le);
      InsertSorted(s[0], SortBy(s[1..], le), le);
    }
  }

  /** Sequences that are permutations of each other hold the same elements. */
  lemma SameElements<T>(a: seq<T>, b: seq<T>)
    requires multiset(a) == multiset(b)
    ensures forall x :: x in a <==> x in b
  {
    forall x ensures x in a <==> x in b {
      assert x in a <==> x in multiset(a);
      assert x in b <==> x in multiset(b);
    }
  }

  /** The position of the first occurrence of `x` in `s`. */
  function FirstIndex<T(==)>(s: seq<T>, x: T): (i: nat)
    requires x in s
    ensures i < |s| && s[i] == x && x !in s[..i]
  {
    if s[0] == x then 0
    else
      var i := 1 + FirstIndex(s[1..], x);
      assert s[..i] == [s[0]] + s[1..][..i - 1];
      i
  }

  /** Appending an element leaves the first occurrences of the elements already present where they were,
      and places a new element's first occurrence at the end. */
  lemma {:induction false} FirstIndexAppend<T>(s: seq<T>, e: T, x: T)
    requires x in s + [e]
    ensures x in s ==> FirstIndex(s + [e], x) == FirstIndex(s, x)
    ensures x !in s ==> FirstIndex(s + [e], x) == |s|
  {
    if s != [] && s[0] != x {
      assert (s + [e])[1..] == s[1..] + [e];
      assert x in s <==> x in s[1..];
      FirstIndexAppend(s[1..], e, x);
    }
  }

  /** How `slice` turns a possibly negative index into a position in `[0, n]`. */
  function RelativeIndex(k: int, n: nat): (r: nat)
    ensures r <= n
    ensures k >= 0 ==> r == Min(k, n)
    ensures k < 0 ==> r == if n + k < 0 then 0 else n + k
  {
    if k < 0 then (if n + k < 0 then 0 else n + k)
    else if k > n then n
    else k
  }

  /** `Array.prototype.slice(start, end)`. */
  function Slice<T>(s: seq<T>, start: int, end: int): seq<T>
  {
    var from := RelativeIndex(start, |s|);
    var to := RelativeIndex(end, |s|);
    if from < to then s[from..to] else []
  }

  /** `Array.prototype.slice(start)`. */
  function SliceFrom<T>(s: seq<T>, start: int): seq<T>
  {
    Slice(s, start, |s|)
  }

  /** `slice(-k)` for a positive `k` is the last `min(k, n)` elements. */
  lemma LastElements<T>(s: seq<T>, k: int)
    requires k > 0
    ensures |SliceFrom(s, -k)| == Min(k, |s|)
    ensures SliceFrom(s, -k) == s[|s| - Min(k, |s|)..]
  {
  }

  /** `slice(0, k)` for `k >= 0` is the first `min(k, n)` elements. */
  lemma FirstElements<T>(s: seq<T>, k: int)
    requires k >= 0
    ensures |Slice(s, 0, k)| == Min(k, |s|)
    ensures Slice(s, 0, k) == s[..Min(k, |s|)]
  {
  }

  /** Sum of a weight over a sequence, as `reduce((sum, x) => sum + w(x), 0)`. */
  function SumOf<T>(s: seq<T>, w: T -> int): int
  {
    if s == [] then 0 else w(s[0]) + SumOf(s[1..], w)
  }

  lemma {:induction false} SumOfAppend<T>(a: seq<T>, b: seq<T>, w: T -> int)
    ensures SumOf(a + b, w) == SumOf(a, w) + SumOf(b, w)
  {
    if a == [] {
      assert a + b == b;
    } else {
      assert (a + b)[1..] == a[1..] + b;
      SumOfAppend(a[1..], b, w);
    }
  }

  lemma {:induction false} SumOfNonNegative<T>(s: seq<T>, w: T -> int)
    requires forall i | 0 <= i < |s| :: w(s[i]) >= 0
    ensures SumOf(s, w) >= 0
  {
    if s != [] {
      SumOfNonNegative(s[1..], w);
    }
  }

  /** With non-negative weights, a filtered sum never exceeds the full sum. */
  lemma {:induction false} SumOfFilterAtMost<T(!new)>(s: seq<T>, p: T -> bool, w: T -> int)
    requires forall i | 0 <= i < |s| :: w(s[i]) >= 0
    ensures SumOf(Filter(s, p), w) <= SumOf(s, w)
  {
    if s != [] {
      SumOfFilterAtMost(s[1..], p, w);
    }
  }
}
