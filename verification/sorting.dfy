/**
 * Python's `list.sort(key=..., reverse=True)`: a stable sort into
 * non-increasing key order. Used for the key-frame ranking and for the
 * ranking of similar dishes; an ascending sort is the same sort on the
 * negated key.
 */
module Sorting {

  /** Keys never increase along `xs`. */
  ghost predicate Descending<T>(xs: seq<T>, key: T -> real)
  {
    forall i, j :: 0 <= i < j < |xs| ==> key(xs[i]) >= key(xs[j])
  }

  /**
   * Puts `x` after every element whose key is at least its own, so that
   * elements with equal keys stay in the order they arrived in.
   */
  function Insert<T>(x: T, xs: seq<T>, key: T -> real): (r: seq<T>)
    ensures |r| == |xs| + 1
  {
    if |xs| == 0 then [x]
    else if key(xs[0]) >= key(x) then [xs[0]] + Insert(x, xs[1..], key)
    else [x] + xs
  }

  lemma {:induction false} InsertPermutes<T>(x: T, xs: seq<T>, key: T -> real)
    ensures multiset(Insert(x, xs, key)) == multiset(xs) + multiset{x}
  {
    if |xs| > 0 && key(xs[0]) >= key(x) {
      InsertPermutes(x, xs[1..], key);
      assert xs == [xs[0]] + xs[1..];
    }
  }

  /** A bound on the keys of `x` and of `xs` bounds the keys after insertion. */
  lemma {:induction false} InsertBelow<T>(x: T, xs: seq<T>, key: T -> real, b: real)
    requires key(x) <= b && forall k :: 0 <= k < |xs| ==> key(xs[k]) <= b
    ensures forall k :: 0 <= k < |Insert(x, xs, key)| ==> key(Insert(x, xs, key)[k]) <= b
  {
    if |xs| > 0 && key(xs[0]) >= key(x) {
      InsertBelow(x, xs[1..], key, b);
    }
  }

  lemma {:induction false} InsertKeepsDescending<T>(x: T, xs: seq<T>, key: T -> real)
    requires Descending(xs, key)
    ensures Descending(Insert(x, xs, key), key)
  {
    if |xs| > 0 {
      if key(xs[0]) >= key(x) {
        var tail := Insert(x, xs[1..], key);
        InsertKeepsDescending(x, xs[1..], key);
        InsertBelow(x, xs[1..], key, key(xs[0]));
        assert Insert(x, xs, key) == [xs[0]] + tail;
      } else {
        assert Descending([x] + xs, key) by {
          forall i, j | 0 <= i < j < |[x] + xs|
            ensures key(([x] + xs)[i]) >= key(([x] + xs)[j])
          {
            if i > 0 {
              assert ([x] + xs)[i] == xs[i - 1];
            } else {
              assert key(xs[0]) >= key(xs[j - 1]) || j - 1 == 0;
            }
          }
        }
      }
    }
  }

  /** `xs.sort(key=key, reverse=True)`: each element goes into the sorted prefix in turn. */
  function SortDescending<T>(xs: seq<T>, key: T -> real): (r: seq<T>)
    ensures Descending(r, key)
    ensures multiset(r) == multiset(xs)
    ensures |r| == |xs|
  {
    if |xs| == 0 then []
    else
      var n := |xs| - 1;
      var sorted := SortDescending(xs[..n], key);
      InsertKeepsDescending(xs[n], sorted, key);
      InsertPermutes(xs[n], sorted, key);
      assert xs == xs[..n] + [xs[n]];
      Insert(xs[n], sorted, key)
  }

  /** The elements of `xs` whose key is `k`, in their order in `xs`. */
  function Tied<T>(xs: seq<T>, key: T -> real, k: real): seq<T>
  {
    if |xs| == 0 then []
    else (if key(xs[0]) == k then [xs[0]] else []) + Tied(xs[1..], key, k)
  }

  lemma {:induction false} TiedAppend<T>(xs: seq<T>, ys: seq<T>, key: T -> real, k: real)
    ensures Tied(xs + ys, key, k) == Tied(xs, key, k) + Tied(ys, key, k)
  {
    if |xs| > 0 {
      assert (xs + ys)[1..] == xs[1..] + ys;
      TiedAppend(xs[1..], ys, key, k);
    } else {
      assert xs + ys == ys;
    }
  }

  /** No key of `xs` reaches `k`, so none equals it. */
  lemma {:induction false} TiedNoneAbove<T>(xs: seq<T>, key: T -> real, k: real)
    requires forall i :: 0 <= i < |xs| ==> key(xs[i]) < k
    ensures Tied(xs, key, k) == []
  {
    if |xs| > 0 {
      TiedNoneAbove(xs[1..], key, k);
    }
  }

  lemma TiedCons<T>(y: T, ys: seq<T>, key: T -> real, k: real)
    ensures Tied([y] + ys, key, k) == (if key(y) == k then [y] else []) + Tied(ys, key, k)
  {
    assert ([y] + ys)[1..] == ys;
  }

  /** The rest of a descending sequence is descending, and its head has the largest key. */
  lemma DescendingTail<T>(xs: seq<T>, key: T -> real)
    requires |xs| > 0 && Descending(xs, key)
    ensures Descending(xs[1..], key)
    ensures forall i :: 0 <= i < |xs| ==> key(xs[i]) <= key(xs[0])
  {
  }

  /** Inserting into a descending sequence puts `x` after every element with its own key. */
  lemma {:induction false} InsertStable<T>(x: T, xs: seq<T>, key: T -> real, k: real)
    requires Descending(xs, key)
    ensures Tied(Insert(x, xs, key), key, k) == Tied(xs, key, k) + (if key(x) == k then [x] else [])
  {
    if |xs| == 0 {
      TiedCons(x, [], key, k);
    } else {
      DescendingTail(xs, key);
      TiedCons(xs[0], xs[1..], key, k);
      assert [xs[0]] + xs[1..] == xs;
      if key(xs[0]) >= key(x) {
        var tail := Insert(x, xs[1..], key);
        assert Insert(x, xs, key) == [xs[0]] + tail;
        InsertStable(x, xs[1..], key, k);
        TiedCons(xs[0], tail, key, k);
      } else {
        assert Insert(x, xs, key) == [x] + xs;
        if key(x) == k {
          TiedNoneAbove(xs, key, k);
        }
        TiedCons(x, xs, key, k);
      }
    }
  }

  /**
   * The sort is stable: for every key, the elements carrying it come out
   * in the order they went in.
   */
  lemma {:induction false} SortDescendingStable<T>(xs: seq<T>, key: T -> real, k: real)
    ensures Tied(SortDescending(xs, key), key, k) == Tied(xs, key, k)
  {
    if |xs| > 0 {
      var n := |xs| - 1;
      SortDescendingStable(xs[..n], key, k);
      InsertStable(xs[n], SortDescending(xs[..n], key), key, k);
      assert xs == xs[..n] + [xs[n]];
      TiedAppend(xs[..n], [xs[n]], key, k);
      assert [xs[n]][1..] == [];
    }
  }

  /** In a descending sequence, whatever stands in the first `n` places has a key at least that of anything after. */
  lemma PrefixBeatsRest<T>(xs: seq<T>, key: T -> real, n: nat, x: T, y: T)
    requires Descending(xs, key) && n <= |xs|
    requires x in xs[..n] && y in xs && y !in xs[..n]
    ensures key(x) >= key(y)
  {
    var a :| 0 <= a < n && xs[..n][a] == x;
    var b :| 0 <= b < |xs| && xs[b] == y;
    assert xs[a] == x;
  }

  /** `xs[:n]`, with Python's reading of a negative bound as counted from the end. */
  function Take<T>(xs: seq<T>, n: int): (r: seq<T>)
    ensures n >= 0 ==> |r| == if n < |xs| then n else |xs|
    ensures r <= xs
  {
    if n >= 0 then (if n < |xs| then xs[..n] else xs)
    else if |xs| + n > 0 then xs[..|xs| + n]
    else []
  }
}
