/** Sequence functions shared by the list pages and the API routes: order-keeping
    filters, sums, a stable descending sort and prefix truncation. */
module Seqs {

  /** `a` is `b` with some elements removed, the rest kept in order. */
  ghost predicate IsSubseq<T>(a: seq<T>, b: seq<T>)
    decreases |b|
  {
    && |a| <= |b|
    && (|a| == 0 || (a[0] == b[0] && IsSubseq(a[1..], b[1..])) || IsSubseq(a, b[1..]))
  }

  lemma {:induction false} SubseqRefl<T>(s: seq<T>)
    ensures IsSubseq(s, s)
    decreases |s|
  {
    if |s| > 0 {
      SubseqRefl(s[1..]);
    }
  }

  /** JavaScript's `Array.prototype.filter`: keeps the elements satisfying `p`, in order. */
  function Filter<T>(s: seq<T>, p: T -> bool): (r: seq<T>)
    ensures |r| <= |s|
    ensures forall i :: 0 <= i < |r| ==> r[i] in s && p(r[i])
    ensures forall i :: 0 <= i < |s| && p(s[i]) ==> s[i] in r
    decreases |s|
  {
    if |s| == 0 then []
    else (if p(s[0]) then [s[0]] else []) + Filter(s[1..], p)
  }

  lemma {:induction false} FilterIsSubseq<T>(s: seq<T>, p: T -> bool)
    ensures IsSubseq(Filter(s, p), s)
    decreases |s|
  {
    if |s| > 0 {
      FilterIsSubseq(s[1..], p);
      var rest := Filter(s[1..], p);
      if p(s[0]) {
        assert Filter(s, p) == [s[0]] + rest;
        assert ([s[0]] + rest)[1..] == rest;
      } else {
        assert Filter(s, p) == rest;
        if |rest| > 0 {
          assert IsSubseq(rest, s[1..]);
        }
      }
    }
  }

  /** Filtering twice is filtering once by the conjunction `r` of the two predicates. */
  lemma {:induction false} FilterFilter<T>(s: seq<T>, p: T -> bool, q: T -> bool, r: T -> bool)
    requires forall x :: r(x) == (p(x) && q(x))
    ensures Filter(Filter(s, p), q) == Filter(s, r)
    decreases |s|
  {
    if |s| > 0 {
      FilterFilter(s[1..], p, q, r);
      var rest := Filter(s[1..], p);
      if p(s[0]) {
        assert Filter(s, p) == [s[0]] + rest;
        assert ([s[0]] + rest)[1..] == rest;
      } else {
        assert Filter(s, p) == rest;
      }
    }
  }

  /** Two predicates that agree everywhere filter alike. */
  lemma {:induction false} FilterSame<T>(s: seq<T>, p: T -> bool, q: T -> bool)
    requires forall x :: p(x) == q(x)
    ensures Filter(s, p) == Filter(s, q)
    decreases |s|
  {
    if |s| > 0 {
      FilterSame(s[1..], p, q);
    }
  }

  /** A predicate true of every element removes nothing. */
  lemma {:induction false} FilterAll<T>(s: seq<T>, p: T -> bool)
    requires forall i :: 0 <= i < |s| ==> p(s[i])
    ensures Filter(s, p) == s
    decreases |s|
  {
    if |s| > 0 {
      FilterAll(s[1..], p);
    }
  }

  lemma {:induction false} FilterAppend<T>(a: seq<T>, b: seq<T>, p: T -> bool)
    ensures Filter(a + b, p) == Filter(a, p) + Filter(b, p)
    decreases |a|
  {
    if |a| > 0 {
      assert (a + b)[1..] == a[1..] + b;
      FilterAppend(a[1..], b, p);
    } else {
      assert a + b == b;
    }
  }

  /** Filtering a sequence filters all but its last element, then keeps or drops that one. */
  lemma FilterSnoc<T>(s: seq<T>, p: T -> bool)
    requires |s| > 0
    ensures Filter(s, p) == Filter(s[..|s| - 1], p) + (if p(s[|s| - 1]) then [s[|s| - 1]] else [])
  {
    var last := s[|s| - 1];
    SplitLast(s);
    FilterAppend(s[..|s| - 1], [last], p);
    assert [last][1..] == [];
  }

  lemma SplitLast<T>(s: seq<T>)
    requires |s| > 0
    ensures s == s[..|s| - 1] + [s[|s| - 1]]
  {
  }

  /** `s.reduce((sum, x) => sum + f(x), 0)`. */
  function SumBy<T>(s: seq<T>, f: T -> int): int
    decreases |s|
  {
    if |s| == 0 then 0 else f(s[0]) + SumBy(s[1..], f)
  }

  lemma {:induction false} SumByAppend<T>(a: seq<T>, b: seq<T>, f: T -> int)
    ensures SumBy(a + b, f) == SumBy(a, f) + SumBy(b, f)
    decreases |a|
  {
    if |a| > 0 {
      assert (a + b)[1..] == a[1..] + b;
      SumByAppend(a[1..], b, f);
    } else {
      assert a + b == b;
    }
  }

  /** Summing over the elements that pass `p` and over those that fail it (`np`) gives
      the whole sum. */
  lemma {:induction false} SumBySplit<T>(s: seq<T>, f: T -> int, p: T -> bool, np: T -> bool)
    requires forall x :: np(x) == !p(x)
    ensures SumBy(Filter(s, p), f) + SumBy(Filter(s, np), f) == SumBy(s, f)
    decreases |s|
  {
    if |s| > 0 {
      SumBySplit(s[1..], f, p, np);
      SumByAppend(if p(s[0]) then [s[0]] else [], Filter(s[1..], p), f);
      SumByAppend(if np(s[0]) then [s[0]] else [], Filter(s[1..], np), f);
    }
  }

  lemma {:induction false} SumNonNegative<T>(s: seq<T>, f: T -> int)
    requires forall i :: 0 <= i < |s| ==> f(s[i]) >= 0
    ensures SumBy(s, f) >= 0
    decreases |s|
  {
    if |s| > 0 {
      SumNonNegative(s[1..], f);
    }
  }

  lemma {:induction false} SumZero<T>(s: seq<T>, f: T -> int)
    requires forall i :: 0 <= i < |s| ==> f(s[i]) == 0
    ensures SumBy(s, f) == 0
    decreases |s|
  {
    if |s| > 0 {
      SumZero(s[1..], f);
    }
  }

  lemma {:induction false} SumNegate<T>(s: seq<T>, f: T -> int, g: T -> int)
    requires forall x :: g(x) == -f(x)
    ensures SumBy(s, g) == -SumBy(s, f)
    decreases |s|
  {
    if |s| > 0 {
      SumNegate(s[1..], f, g);
    }
  }

  /** Every element of `s` ranked by `key`, from the largest key to the smallest. */
  ghost predicate SortedDesc<T>(s: seq<T>, key: T -> int)
  {
    forall i, j :: 0 <= i < j < |s| ==> key(s[i]) >= key(s[j])
  }

  /** Places `x` in front of the first element whose key does not exceed its own. */
  function InsertDesc<T>(x: T, r: seq<T>, key: T -> int): (out: seq<T>)
    requires SortedDesc(r, key)
    ensures |out| == |r| + 1
    ensures out[0] == x || (|r| > 0 && out[0] == r[0])
    ensures SortedDesc(out, key)
    ensures multiset(out) == multiset(r) + multiset{x}
    decreases |r|
  {
    if |r| == 0 || key(r[0]) <= key(x) then
      assert SortedDesc([x] + r, key) by {
        forall j | 0 <= j < |r| ensures key(r[j]) <= key(x) {
          assert key(r[0]) >= key(r[j]);
        }
        ConsSorted(x, r, key);
      }
      [x] + r
    else
      var rest := InsertDesc(x, r[1..], key);
      assert SortedDesc([r[0]] + rest, key) by {
        assert key(r[0]) >= key(rest[0]);
        ConsSorted(r[0], rest, key);
      }
      assert multiset([r[0]] + rest) == multiset(r) + multiset{x} by {
        assert r == [r[0]] + r[1..];
      }
      [r[0]] + rest
  }

  /** Filtering keeps every key under a bound that held before. */
  lemma FilterBelow<T>(s: seq<T>, p: T -> bool, key: T -> int, bound: int)
    requires forall i :: 0 <= i < |s| ==> key(s[i]) <= bound
    ensures forall i :: 0 <= i < |Filter(s, p)| ==> key(Filter(s, p)[i]) <= bound
  {
    var r := Filter(s, p);
    forall i | 0 <= i < |r| ensures key(r[i]) <= bound {
      var k :| 0 <= k < |s| && s[k] == r[i];
    }
  }

  /** A head no smaller than anything after it extends a descending order. */
  lemma ConsSorted<T>(x: T, rest: seq<T>, key: T -> int)
    requires SortedDesc(rest, key)
    requires forall j :: 0 <= j < |rest| ==> key(rest[j]) <= key(x)
    ensures SortedDesc([x] + rest, key)
  {
    var r := [x] + rest;
    forall i, j | 0 <= i < j < |r| ensures key(r[i]) >= key(r[j]) {
      assert r[j] == rest[j - 1];
      if i > 0 {
        assert r[i] == rest[i - 1];
      }
    }
  }

  /** Filtering keeps a descending order. */
  lemma {:induction false} FilterKeepsSorted<T>(s: seq<T>, p: T -> bool, key: T -> int)
    requires SortedDesc(s, key)
    ensures SortedDesc(Filter(s, p), key)
    decreases |s|
  {
    if |s| > 0 {
      var tail := s[1..];
      FilterKeepsSorted(tail, p, key);
      if p(s[0]) {
        forall i | 0 <= i < |tail| ensures key(tail[i]) <= key(s[0]) {
          assert tail[i] == s[i + 1];
        }
        FilterBelow(tail, p, key, key(s[0]));
        ConsSorted(s[0], Filter(tail, p), key);
        assert Filter(s, p) == [s[0]] + Filter(tail, p);
      } else {
        assert Filter(s, p) == Filter(tail, p);
      }
    }
  }

  /** `s.sort((a, b) => key(b) - key(a))`: the elements of `s` rearranged by descending key.
      Equal keys keep their input order, as JavaScript's stable sort does. */
  function SortDesc<T>(s: seq<T>, key: T -> int): (r: seq<T>)
    ensures SortedDesc(r, key)
    ensures multiset(r) == multiset(s)
    ensures |r| == |s|
    decreases |s|
  {
    if |s| == 0 then []
    else
      assert s == [s[0]] + s[1..];
      InsertDesc(s[0], SortDesc(s[1..], key), key)
  }

  /** The elements whose key is `k`. */
  function WithKey<T>(key: T -> int, k: int): T -> bool
  {
    x => key(x) == k
  }

  /** Inserting `x` puts it in front of every element of the same key. */
  lemma {:induction false} InsertStable<T>(x: T, r: seq<T>, key: T -> int, k: int)
    requires SortedDesc(r, key)
    ensures Filter(InsertDesc(x, r, key), WithKey(key, k))
      == (if key(x) == k then [x] else []) + Filter(r, WithKey(key, k))
    decreases |r|
  {
    var p := WithKey(key, k);
    var hx := if key(x) == k then [x] else [];
    if |r| == 0 || key(r[0]) <= key(x) {
      assert InsertDesc(x, r, key) == [x] + r;
      FilterCons(x, r, p);
    } else {
      var rest := InsertDesc(x, r[1..], key);
      assert InsertDesc(x, r, key) == [r[0]] + rest;
      assert Filter(rest, p) == hx + Filter(r[1..], p) by {
        InsertStable(x, r[1..], key, k);
      }
      assert Filter([r[0]] + rest, p) == hx + Filter([r[0]] + r[1..], p) by {
        PassSmaller(x, r[0], rest, r[1..], p);
      }
      assert [r[0]] + r[1..] == r;
    }
  }

  /** Stepping `x` past an element `y` of another key does not change the order within
      any key. */
  lemma PassSmaller<T>(x: T, y: T, rest: seq<T>, tail: seq<T>, p: T -> bool)
    requires !(p(x) && p(y))
    requires Filter(rest, p) == (if p(x) then [x] else []) + Filter(tail, p)
    ensures Filter([y] + rest, p) == (if p(x) then [x] else []) + Filter([y] + tail, p)
  {
    FilterCons(y, rest, p);
    FilterCons(y, tail, p);
    var hx := if p(x) then [x] else [];
    var hy := if p(y) then [y] else [];
    var f := Filter(tail, p);
    if hx == [] {
      assert hx + f == f && hx + (hy + f) == hy + f;
    } else {
      assert hy + (hx + f) == hx + f && hy + f == f;
    }
  }

  lemma FilterCons<T>(x: T, r: seq<T>, p: T -> bool)
    ensures Filter([x] + r, p) == (if p(x) then [x] else []) + Filter(r, p)
  {
    assert ([x] + r)[1..] == r;
  }

  /** The sort is stable: the elements of any one key come out in their input order. */
  lemma {:induction false} SortStable<T>(s: seq<T>, key: T -> int, k: int)
    ensures Filter(SortDesc(s, key), WithKey(key, k)) == Filter(s, WithKey(key, k))
    decreases |s|
  {
    if |s| > 0 {
      SortStable(s[1..], key, k);
      InsertStable(s[0], SortDesc(s[1..], key), key, k);
    }
  }

  /** Filtering a prefix gives a prefix of the filtered whole. */
  lemma {:induction false} FilterPrefix<T>(a: seq<T>, b: seq<T>, p: T -> bool)
    requires a <= b
    ensures Filter(a, p) <= Filter(b, p)
    decreases |a|
  {
    if |a| > 0 {
      assert a[1..] <= b[1..];
      FilterPrefix(a[1..], b[1..], p);
      assert b[0] == a[0];
    }
  }

  /** `s.map(f)`. */
  function Map<A, B>(s: seq<A>, f: A -> B): (r: seq<B>)
    ensures |r| == |s|
    ensures forall i :: 0 <= i < |s| ==> r[i] == f(s[i])
  {
    seq(|s|, i requires 0 <= i < |s| => f(s[i]))
  }

  lemma MapAppend<A, B>(a: seq<A>, b: seq<A>, f: A -> B)
    ensures Map(a + b, f) == Map(a, f) + Map(b, f)
  {
  }

  /** Mapping two rearrangements of the same elements gives two rearrangements of the
      same images. */
  lemma {:induction false} MapMultiset<A, B>(a: seq<A>, b: seq<A>, f: A -> B)
    requires multiset(a) == multiset(b)
    ensures multiset(Map(a, f)) == multiset(Map(b, f))
    decreases |a|
  {
    if |a| == 0 {
      assert |b| == |multiset(b)| == 0;
    } else {
      var x := a[0];
      assert x in multiset(b);
      var j :| 0 <= j < |b| && b[j] == x;
      var rest := b[..j] + b[j + 1..];
      assert b == b[..j] + [x] + b[j + 1..];
      assert a == [x] + a[1..];
      assert multiset(b) == multiset(b[..j]) + multiset{x} + multiset(b[j + 1..]);
      assert multiset(a) == multiset{x} + multiset(a[1..]);
      assert multiset(rest) == multiset(b[..j]) + multiset(b[j + 1..]);
      assert multiset(a[1..]) == multiset(a) - multiset{x};
      assert multiset(b) - multiset{x} == multiset(b[..j]) + multiset(b[j + 1..]);
      assert multiset(rest) == multiset(a[1..]);
      MapMultiset(a[1..], rest, f);
      MapAppend([x], a[1..], f);
      MapAppend(b[..j] + [x], b[j + 1..], f);
      MapAppend(b[..j], [x], f);
      MapAppend(b[..j], b[j + 1..], f);
    }
  }

  /** `s.slice(0, n)`. */
  function Take<T>(s: seq<T>, n: int): (r: seq<T>)
    ensures |r| == if n <= 0 then 0 else if n < |s| then n else |s|
    ensures forall i :: 0 <= i < |r| ==> r[i] == s[i]
  {
    if n <= 0 then [] else if n < |s| then s[..n] else s
  }

  /** The first `n` of `s` ranked by descending key: exactly `n` of them, or all of `s`
      when it has fewer, still ranked, none that `s` does not hold, and all of `s` when
      it has no more than `n`. */
  lemma TopByKey<T>(s: seq<T>, key: T -> int, n: int)
    requires n >= 0
    ensures var r := Take(SortDesc(s, key), n);
      && |r| == (if |s| < n then |s| else n)
      && SortedDesc(r, key)
      && multiset(r) <= multiset(s)
      && (|s| <= n ==> multiset(r) == multiset(s))
  {
    var sorted := SortDesc(s, key);
    var r := Take(sorted, n);
    assert |sorted| == |s| by {
      assert |multiset(sorted)| == |multiset(s)|;
    }
    assert multiset(sorted) == multiset(r) + multiset(sorted[|r|..]) by {
      assert sorted == r + sorted[|r|..];
    }
  }

  /** Ties are cut in input order: the elements of any one key among the first `n`
      are the first ones of that key in `s`. */
  lemma TopStable<T>(s: seq<T>, key: T -> int, n: int, k: int)
    ensures Filter(Take(SortDesc(s, key), n), WithKey(key, k)) <= Filter(s, WithKey(key, k))
  {
    var sorted := SortDesc(s, key);
    assert Take(sorted, n) <= sorted;
    FilterPrefix(Take(sorted, n), sorted, WithKey(key, k));
    SortStable(s, key, k);
  }

  /** Nothing that the first `n` by descending key leave out ranks above anything they
      keep. */
  lemma TopDominates<T>(s: seq<T>, key: T -> int, n: int)
    ensures var r := Take(SortDesc(s, key), n);
      forall e, t :: e in s && e !in r && t in r ==> key(t) >= key(e)
  {
    var r := Take(SortDesc(s, key), n);
    forall e, t | e in s && e !in r && t in r ensures key(t) >= key(e) {
      LeftOutIsOlder(s, key, n, e, t);
    }
  }

  /** One element left out of the top `n` against one kept. */
  lemma LeftOutIsOlder<T>(s: seq<T>, key: T -> int, n: int, e: T, t: T)
    requires e in s && e !in Take(SortDesc(s, key), n) && t in Take(SortDesc(s, key), n)
    ensures key(t) >= key(e)
  {
    var sorted := SortDesc(s, key);
    var r := Take(sorted, n);
    assert e in multiset(sorted);
    var k :| 0 <= k < |sorted| && sorted[k] == e;
    var j :| 0 <= j < |r| && r[j] == t;
    assert k >= |r|;
    assert sorted[j] == t;
  }
}
