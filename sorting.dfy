/**
 * `Array.prototype.sort` with a comparator `(a, b) => key(b) - key(a)`:
 * a stable sort into descending key order. Modelled as insertion sort on
 * sequences, which is stable by construction.
 */
module Sorting {

  predicate SortedDesc<T>(xs: seq<T>, key: T -> int) {
    forall i, j :: 0 <= i < j < |xs| ==> key(xs[i]) >= key(xs[j])
  }

  /** Insert `x` in front of the first element whose key is not larger than `x`'s. */
  function Insert<T>(x: T, ys: seq<T>, key: T -> int): (r: seq<T>)
    ensures multiset(r) == multiset(ys) + multiset{x}
    ensures |r| == |ys| + 1
  {
    if ys == [] || key(ys[0]) <= key(x) then [x] + ys
    else
      assert ys == [ys[0]] + ys[1..];
      [ys[0]] + Insert(x, ys[1..], key)
  }

  /** Stable descending sort. */
  function SortDesc<T>(xs: seq<T>, key: T -> int): (r: seq<T>)
    ensures multiset(r) == multiset(xs)
    ensures |r| == |xs|
  {
    if xs == [] then []
    else
      assert xs == [xs[0]] + xs[1..];
      Insert(xs[0], SortDesc(xs[1..], key), key)
  }

  /** Every element of `Insert(x, ys)` is `x` or an element of `ys`. */
  lemma InsertElements<T>(x: T, ys: seq<T>, key: T -> int)
    ensures forall z :: z in Insert(x, ys, key) ==> z == x || z in ys
  {
    var r := Insert(x, ys, key);
    forall z | z in r
      ensures z == x || z in ys
    {
      assert z in multiset(r);
    }
  }

  lemma {:induction false} InsertSorted<T>(x: T, ys: seq<T>, key: T -> int)
    requires SortedDesc(ys, key)
    ensures SortedDesc(Insert(x, ys, key), key)
    decreases |ys|
  {
    if ys == [] || key(ys[0]) <= key(x) {
    } else {
      var rest := ys[1..];
      var tail := Insert(x, rest, key);
      assert SortedDesc(rest, key);
      InsertSorted(x, rest, key);
      InsertElements(x, rest, key);
      forall j | 0 <= j < |tail|
        ensures key(ys[0]) >= key(tail[j])
      {
        assert tail[j] in tail;
        if tail[j] != x {
          var k :| 0 <= k < |rest| && rest[k] == tail[j];
          assert ys[k + 1] == tail[j];
        }
      }
      assert Insert(x, ys, key) == [ys[0]] + tail;
    }
  }

  /** The result of `SortDesc` is in descending key order. */
  lemma {:induction false} SortDescSorted<T>(xs: seq<T>, key: T -> int)
    ensures SortedDesc(SortDesc(xs, key), key)
  {
    if xs != [] {
      SortDescSorted(xs[1..], key);
      InsertSorted(xs[0], SortDesc(xs[1..], key), key);
    }
  }

  /** Every element of the sorted sequence comes from the input, and conversely. */
  lemma SortDescSameElements<T>(xs: seq<T>, key: T -> int)
    ensures forall x :: x in SortDesc(xs, key) <==> x in xs
  {
    var r := SortDesc(xs, key);
    forall x
      ensures x in r <==> x in xs
    {
      assert x in r <==> x in multiset(r);
      assert x in xs <==> x in multiset(xs);
    }
  }

  /** An already sorted sequence is left as it is (stability on equal keys). */
  lemma {:induction false} SortDescOfSorted<T>(xs: seq<T>, key: T -> int)
    requires SortedDesc(xs, key)
    ensures SortDesc(xs, key) == xs
  {
    if xs != [] {
      assert SortedDesc(xs[1..], key);
      SortDescOfSorted(xs[1..], key);
    }
  }

  /** `xs.slice(0, n)`. */
  function Prefix<T>(xs: seq<T>, n: nat): (r: seq<T>)
    ensures |r| == if n <= |xs| then n else |xs|
    ensures forall i :: 0 <= i < |r| ==> r[i] == xs[i]
  {
    if n <= |xs| then xs[..n] else xs
  }

  lemma PrefixSorted<T>(xs: seq<T>, n: nat, key: T -> int)
    requires SortedDesc(xs, key)
    ensures SortedDesc(Prefix(xs, n), key)
  {
  }
}
