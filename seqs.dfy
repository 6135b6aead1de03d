/**
 * Sequence operations the Python code builds from comprehensions and built-ins:
 * filtering comprehensions, slicing `s[:n]`, `dict.fromkeys` deduplication and
 * the stable `sorted(..., reverse=True)`.
 */
module Seqs {

  predicate Distinct<T(==)>(s: seq<T>)
  {
    forall i, j :: 0 <= i < j < |s| ==> s[i] != s[j]
  }

  /** `s[:n]`. */
  function Take<T>(s: seq<T>, n: nat): (r: seq<T>)
    ensures |r| <= n && |r| <= |s|
    ensures |s| <= n ==> r == s
    ensures |s| > n ==> |r| == n
    ensures forall i :: 0 <= i < |r| ==> r[i] == s[i]
  {
    if |s| <= n then s else s[..n]
  }

  /** `[x for x in s if p(x)]`. */
  function Filter<T(!new)>(s: seq<T>, p: T -> bool): (r: seq<T>)
    ensures |r| <= |s|
    ensures forall x :: x in r <==> x in s && p(x)
  {
    if s == [] then []
    else
      assert s == s[..|s| - 1] + [s[|s| - 1]];
      Filter(s[..|s| - 1], p) + (if p(s[|s| - 1]) then [s[|s| - 1]] else [])
  }

  /** Filtering by a predicate that holds nowhere leaves nothing. */
  lemma {:induction false} FilterNone<T(!new)>(s: seq<T>, p: T -> bool)
    requires forall x :: x in s ==> !p(x)
    ensures Filter(s, p) == []
  {
    if s != [] {
      FilterNone(s[..|s| - 1], p);
    }
  }

  /** Filtering by a predicate that holds everywhere changes nothing. */
  lemma {:induction false} FilterAll<T(!new)>(s: seq<T>, p: T -> bool)
    requires forall x :: x in s ==> p(x)
    ensures Filter(s, p) == s
  {
    if s != [] {
      FilterAll(s[..|s| - 1], p);
      assert s == s[..|s| - 1] + [s[|s| - 1]];
    }
  }

  /**
   * Position of the first occurrence of `x` in `s`, or `|s|` when it does not occur
   * (`s.index(x)` for present elements).
   */
  function FirstIndex<T(==)>(s: seq<T>, x: T): (i: nat)
    ensures i <= |s|
    ensures i < |s| <==> x in s
    ensures i < |s| ==> s[i] == x
    ensures forall j :: 0 <= j < i ==> s[j] != x
  {
    if s == [] then 0 else if s[0] == x then 0 else 1 + FirstIndex(s[1..], x)
  }

  lemma FirstIndexPrefix<T(!new)>(s: seq<T>, k: nat, x: T)
    requires k <= |s| && x in s[..k]
    ensures FirstIndex(s, x) == FirstIndex(s[..k], x)
  {
    var i := FirstIndex(s[..k], x);
    assert s[i] == s[..k][i] == x;
    assert forall m :: 0 <= m < i ==> s[m] == s[..k][m];
  }

  /** `list(dict.fromkeys(s))`: each element once, at its first occurrence. */
  function Dedup<T(==,!new)>(s: seq<T>): (r: seq<T>)
    ensures forall x :: x in r <==> x in s
    ensures Distinct(r)
    ensures |r| <= |s|
  {
    if s == [] then []
    else
      var d := Dedup(s[..|s| - 1]);
      assert s == s[..|s| - 1] + [s[|s| - 1]];
      if s[|s| - 1] in d then d else d + [s[|s| - 1]]
  }

  /** The deduplicated sequence lists elements in the order of their first occurrence. */
  lemma {:induction false} DedupFirstSeenOrder<T(!new)>(s: seq<T>)
    ensures forall i, j :: 0 <= i < j < |Dedup(s)| ==>
      FirstIndex(s, Dedup(s)[i]) < FirstIndex(s, Dedup(s)[j])
  {
    if s != [] {
      var t := s[..|s| - 1];
      var x := s[|s| - 1];
      var d := Dedup(t);
      DedupFirstSeenOrder(t);
      forall y | y in d ensures FirstIndex(s, y) == FirstIndex(t, y) && FirstIndex(t, y) < |t| {
        FirstIndexPrefix(s, |t|, y);
      }
      if x !in d {
        assert FirstIndex(s, x) == |t| by {
          forall j | 0 <= j < |t| ensures s[j] != x { assert s[j] == t[j]; }
        }
      }
    }
  }

  /** Appending one more element to the input extends the deduplicated sequence at most by it. */
  lemma DedupSnoc<T(!new)>(s: seq<T>, x: T)
    ensures Dedup(s + [x]) == if x in s then Dedup(s) else Dedup(s) + [x]
  {
    assert (s + [x])[..|s + [x]| - 1] == s;
  }

  lemma {:induction false} DistinctMultiset<T(!new)>(s: seq<T>)
    ensures Distinct(s) <==> forall x :: multiset(s)[x] <= 1
  {
    if Distinct(s) {
      forall x ensures multiset(s)[x] <= 1 {
        if s != [] {
          assert s == [s[0]] + s[1..];
          DistinctMultiset(s[1..]);
          assert s[1..] == s[1..];
          assert Distinct(s[1..]);
          if x == s[0] {
            assert x !in s[1..];
          }
        }
      }
    }
    if !Distinct(s) {
      var i, j :| 0 <= i < j < |s| && s[i] == s[j];
      assert s == s[..i] + [s[i]] + s[i + 1..j] + [s[j]] + s[j + 1..];
      assert multiset(s)[s[i]] >= 2;
    }
  }

  lemma DistinctPermutation<T(!new)>(a: seq<T>, b: seq<T>)
    requires Distinct(a) && multiset(a) == multiset(b)
    ensures Distinct(b)
  {
    DistinctMultiset(a);
    DistinctMultiset(b);
  }

  /** Elements of `s` whose key is exactly `k`, in order. */
  function WithKey<T>(s: seq<T>, key: T -> real, k: real): seq<T>
  {
    if s == [] then [] else (if key(s[0]) == k then [s[0]] else []) + WithKey(s[1..], key, k)
  }

  predicate SortedDesc<T>(s: seq<T>, key: T -> real)
  {
    forall i, j :: 0 <= i < j < |s| ==> key(s[i]) >= key(s[j])
  }

  /** Insert `x` before the first element whose key is not larger than its own. */
  function InsertDesc<T>(x: T, s: seq<T>, key: T -> real): seq<T>
  {
    if s == [] || key(x) >= key(s[0]) then [x] + s else [s[0]] + InsertDesc(x, s[1..], key)
  }

  /** `sorted(s, key=key, reverse=True)`: Python's sort is stable, also when reversed. */
  function SortDesc<T>(s: seq<T>, key: T -> real): seq<T>
  {
    if s == [] then [] else InsertDesc(s[0], SortDesc(s[1..], key), key)
  }

  lemma {:induction false} InsertDescMultiset<T(!new)>(x: T, s: seq<T>, key: T -> real)
    ensures multiset(InsertDesc(x, s, key)) == multiset{x} + multiset(s)
  {
    if s != [] && key(x) < key(s[0]) {
      InsertDescMultiset(x, s[1..], key);
      assert s == [s[0]] + s[1..];
    }
  }

  lemma {:induction false} InsertDescSorted<T(!new)>(x: T, s: seq<T>, key: T -> real)
    requires SortedDesc(s, key)
    ensures SortedDesc(InsertDesc(x, s, key), key)
  {
    if s != [] && key(x) < key(s[0]) {
      InsertDescSorted(x, s[1..], key);
      InsertDescMultiset(x, s[1..], key);
      var r := InsertDesc(x, s, key);
      var t := InsertDesc(x, s[1..], key);
      assert r == [s[0]] + t;
      forall j | 0 < j < |r| ensures key(r[0]) >= key(r[j]) {
        assert r[j] == t[j - 1];
        assert r[j] in multiset(t);
        assert r[j] == x || r[j] in multiset(s[1..]);
      }
    }
  }

  lemma {:induction false} InsertDescWithKey<T(!new)>(x: T, s: seq<T>, key: T -> real, k: real)
    requires SortedDesc(s, key)
    ensures WithKey(InsertDesc(x, s, key), key, k) == (if key(x) == k then [x] else []) + WithKey(s, key, k)
  {
    if s != [] && key(x) < key(s[0]) {
      InsertDescWithKey(x, s[1..], key, k);
      var r := InsertDesc(x, s, key);
      var t := InsertDesc(x, s[1..], key);
      assert r == [s[0]] + t && r[0] == s[0] && r[1..] == t;
      assert WithKey(r, key, k) == (if key(s[0]) == k then [s[0]] else []) + WithKey(t, key, k);
      assert WithKey(s, key, k) == (if key(s[0]) == k then [s[0]] else []) + WithKey(s[1..], key, k);
    }
  }

  /**
   * The stable descending sort: sorted by key, a permutation of its input, and the
   * elements sharing a key keep their input order.
   */
  lemma {:induction false} SortDescSpec<T(!new)>(s: seq<T>, key: T -> real)
    ensures SortedDesc(SortDesc(s, key), key)
    ensures multiset(SortDesc(s, key)) == multiset(s)
    ensures |SortDesc(s, key)| == |s|
    ensures forall k :: WithKey(SortDesc(s, key), key, k) == WithKey(s, key, k)
  {
    if s != [] {
      SortDescSpec(s[1..], key);
      InsertDescSorted(s[0], SortDesc(s[1..], key), key);
      InsertDescMultiset(s[0], SortDesc(s[1..], key), key);
      forall k ensures WithKey(SortDesc(s, key), key, k) == WithKey(s, key, k) {
        InsertDescWithKey(s[0], SortDesc(s[1..], key), key, k);
      }
      assert s == [s[0]] + s[1..];
      assert multiset(SortDesc(s, key)) == multiset(s);
      assert |multiset(SortDesc(s, key))| == |multiset(s)|;
    }
  }

  lemma {:induction false} WithKeyMember<T(!new)>(s: seq<T>, key: T -> real, k: real, x: T)
    requires x in s && key(x) == k
    ensures x in WithKey(s, key, k)
  {
    if s[0] != x {
      WithKeyMember(s[1..], key, k, x);
    }
  }

  /** Two elements with key `k` at positions `i < j` keep their order in `WithKey`. */
  lemma {:induction false} WithKeyPositions<T(!new)>(s: seq<T>, key: T -> real, i: nat, j: nat)
    requires i < j < |s| && key(s[i]) == key(s[j])
    ensures exists p, q :: (0 <= p < q < |WithKey(s, key, key(s[i]))| &&
      WithKey(s, key, key(s[i]))[p] == s[i] && WithKey(s, key, key(s[i]))[q] == s[j])
  {
    var k := key(s[i]);
    var w := WithKey(s, key, k);
    if i == 0 {
      WithKeyMember(s[1..], key, k, s[j]);
      var t := WithKey(s[1..], key, k);
      var q' :| 0 <= q' < |t| && t[q'] == s[j];
      assert w == [s[0]] + t;
      assert w[0] == s[i] && w[q' + 1] == s[j];
    } else {
      WithKeyPositions(s[1..], key, i - 1, j - 1);
      var t := WithKey(s[1..], key, k);
      var p', q' :| 0 <= p' < q' < |t| && t[p'] == s[i] && t[q'] == s[j];
      var h := if key(s[0]) == k then [s[0]] else [];
      assert w == h + t;
      assert w[|h| + p'] == s[i] && w[|h| + q'] == s[j];
    }
  }

  /** `WithKey` keeps any strictly increasing ranking of its input. */
  lemma {:induction false} WithKeyIncreasing<T(!new)>(s: seq<T>, key: T -> real, k: real, rank: T -> int)
    requires forall i, j :: 0 <= i < j < |s| ==> rank(s[i]) < rank(s[j])
    ensures forall i, j :: 0 <= i < j < |WithKey(s, key, k)| ==>
      rank(WithKey(s, key, k)[i]) < rank(WithKey(s, key, k)[j])
  {
    if s != [] {
      WithKeyIncreasing(s[1..], key, k, rank);
      var t := WithKey(s[1..], key, k);
      forall y | y in t ensures rank(s[0]) < rank(y) {
        WithKeyIn(s[1..], key, k, y);
        var m :| 0 <= m < |s[1..]| && s[1..][m] == y;
        assert s[m + 1] == y;
      }
    }
  }

  lemma {:induction false} WithKeyIn<T(!new)>(s: seq<T>, key: T -> real, k: real, y: T)
    requires y in WithKey(s, key, k)
    ensures y in s && key(y) == k
  {
    if s[0] != y || key(s[0]) != k {
      WithKeyIn(s[1..], key, k, y);
    }
  }

  /**
   * Stability stated pairwise: when `s` is strictly increasing in `rank`, two elements
   * of the sorted sequence with equal keys are still in increasing `rank`.
   */
  lemma SortDescTies<T(!new)>(s: seq<T>, key: T -> real, rank: T -> int)
    requires forall i, j :: 0 <= i < j < |s| ==> rank(s[i]) < rank(s[j])
    ensures forall i, j :: 0 <= i < j < |SortDesc(s, key)| && key(SortDesc(s, key)[i]) == key(SortDesc(s, key)[j]) ==>
      rank(SortDesc(s, key)[i]) < rank(SortDesc(s, key)[j])
  {
    var r := SortDesc(s, key);
    SortDescSpec(s, key);
    forall i, j | 0 <= i < j < |r| && key(r[i]) == key(r[j]) ensures rank(r[i]) < rank(r[j]) {
      var k := key(r[i]);
      WithKeyPositions(r, key, i, j);
      WithKeyIncreasing(s, key, k, rank);
    }
  }

  /** A sequence without repetitions whose elements all occur in `t` is no longer than `t`. */
  lemma {:induction false} DistinctSubsetLength<T(!new)>(s: seq<T>, t: seq<T>)
    requires Distinct(s) && forall x :: x in s ==> x in t
    ensures |s| <= |t|
    decreases |s|
  {
    if s != [] {
      var x := s[|s| - 1];
      var init := s[..|s| - 1];
      var k := FirstIndex(t, x);
      var rest := t[..k] + t[k + 1..];
      forall y | y in init ensures y in rest {
        var p :| 0 <= p < |init| && init[p] == y;
        assert s[p] == y && y != x;
        assert y in s;
        var q :| 0 <= q < |t| && t[q] == y;
        if q < k {
          assert rest[q] == y;
        } else {
          assert rest[q - 1] == y;
        }
      }
      DistinctSubsetLength(init, rest);
    }
  }

  /** `[0, 1, ..., n - 1]`. */
  function Range(n: nat): (r: seq<nat>)
    ensures |r| == n && forall i :: 0 <= i < n ==> r[i] == i
  {
    seq(n, i requires 0 <= i < n => i)
  }

  /** One more element read: it is in the longer prefix, and so is everything in the shorter one. */
  lemma InPrefixSnoc<T>(s: seq<T>, k: nat)
    requires k < |s|
    ensures forall x :: x in s[..k + 1] <==> x in s[..k] || x == s[k]
  {
    assert s[..k + 1] == s[..k] + [s[k]];
  }

  /** An order in which the indices `0 .. n - 1` can be visited: each exactly once. */
  predicate IsPermutation(order: seq<nat>, n: nat)
  {
    multiset(order) == multiset(Range(n))
  }

  /** Every index is visited at some step of a permutation, and every step visits an index. */
  lemma PermutationCovers(order: seq<nat>, n: nat)
    requires IsPermutation(order, n)
    ensures |order| == n
    ensures forall k :: 0 <= k < |order| ==> order[k] < n
    ensures forall i :: 0 <= i < n ==> i in order
  {
    assert |multiset(order)| == |multiset(Range(n))|;
    forall k | 0 <= k < |order| ensures order[k] < n {
      assert order[k] in multiset(order);
      assert order[k] in multiset(Range(n));
    }
    forall i | 0 <= i < n ensures i in order {
      assert Range(n)[i] == i;
      assert i in multiset(Range(n));
      assert i in multiset(order);
    }
  }

  /** The consecutive slices of length `n` (the last one shorter) of `s`. */
  function Chunks<T>(s: seq<T>, n: nat): seq<seq<T>>
    requires n > 0
    decreases |s|
  {
    if s == [] then []
    else if |s| <= n then [s]
    else [s[..n]] + Chunks(s[n..], n)
  }

  function Flatten<T>(ss: seq<seq<T>>): seq<T>
  {
    if ss == [] then [] else ss[0] + Flatten(ss[1..])
  }

  /** Chunks are non-empty, at most `n` long, and together spell out `s`. */
  lemma {:induction false} ChunksSpec<T>(s: seq<T>, n: nat)
    requires n > 0
    ensures Flatten(Chunks(s, n)) == s
    ensures forall c :: c in Chunks(s, n) ==> 0 < |c| <= n
    decreases |s|
  {
    if s != [] && |s| > n {
      ChunksSpec(s[n..], n);
      assert s == s[..n] + s[n..];
    }
  }

  /** `results` lists, step by step, the entry of `expected` that `order` names at that step. */
  predicate IsReordering<R(==)>(results: seq<R>, expected: seq<R>, order: seq<nat>)
  {
    |results| == |order|
    && forall k :: 0 <= k < |results| ==> order[k] < |expected| && results[k] == expected[order[k]]
  }

  /** Appending the entry of the next index in the order extends a reordering by one. */
  lemma ReorderingSnoc<R>(results: seq<R>, expected: seq<R>, order: seq<nat>, x: R)
    requires |results| < |order| && order[|results|] < |expected| && x == expected[order[|results|]]
    requires IsReordering(results, expected, order[..|results|])
    ensures IsReordering(results + [x], expected, order[..|results| + 1])
  {
    var k := |results|;
    forall j | 0 <= j < k + 1 ensures order[..k + 1][j] < |expected| && (results + [x])[j] == expected[order[..k + 1][j]] {
      if j < k {
        assert order[..k + 1][j] == order[..k][j];
      }
    }
  }

  /** Reordering by a permutation loses and adds nothing: every expected entry is listed. */
  lemma ReorderingCovers<R>(results: seq<R>, expected: seq<R>, order: seq<nat>)
    requires IsPermutation(order, |expected|) && IsReordering(results, expected, order)
    ensures |results| == |expected|
    ensures forall i :: 0 <= i < |expected| ==> expected[i] in results
  {
    PermutationCovers(order, |expected|);
    forall i | 0 <= i < |expected| ensures expected[i] in results {
      assert i in order;
      var k :| 0 <= k < |order| && order[k] == i;
      assert results[k] == expected[i];
    }
  }
}
