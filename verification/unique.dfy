/**
 * Keeping the first element of each key, in order: what PHP's `array_unique`
 * followed by `array_values` does, and what the picture generator's filter
 * over srcset items does with the image path as the key.
 */
module Unique {

  /** The keys of the elements of `xs`. */
  function Keys<T, K>(xs: seq<T>, key: T -> K): set<K> {
    set i | 0 <= i < |xs| :: key(xs[i])
  }

  /** The position of the first occurrence of `x` in `xs`. */
  function FirstIndex<T(==)>(xs: seq<T>, x: T): (i: nat)
    requires x in xs
    ensures i < |xs| && xs[i] == x
    ensures forall j :: 0 <= j < i ==> xs[j] != x
  {
    if xs[0] == x then 0
    else
      assert x in xs[1..];
      1 + FirstIndex(xs[1..], x)
  }

  /** An element with no equal element before it is at its own first occurrence. */
  lemma FirstIndexOfFirst<T>(xs: seq<T>, i: int)
    requires 0 <= i < |xs| && forall j :: 0 <= j < i ==> xs[j] != xs[i]
    ensures FirstIndex(xs, xs[i]) == i
  {
  }

  /** `xs[i]` is the first element of `xs` with its key. */
  predicate FirstOfKey<T, K(==)>(xs: seq<T>, key: T -> K, i: int) {
    0 <= i < |xs| && forall j :: 0 <= j < i ==> key(xs[j]) != key(xs[i])
  }

  /** The elements of `xs` whose key no earlier element has, in their order. */
  function KeepFirst<T, K(==)>(xs: seq<T>, key: T -> K): (r: seq<T>)
    ensures |r| <= |xs|
    ensures |xs| > 0 ==> |r| > 0
    decreases |xs|
  {
    if |xs| == 0 then []
    else
      var front := xs[..|xs| - 1];
      var kept := KeepFirst(front, key);
      if key(xs[|xs| - 1]) in Keys(front, key) then kept else kept + [xs[|xs| - 1]]
  }

  /** An element that is not the first of its key repeats the key of an earlier one. */
  lemma LastIsFirstOfKey<T, K>(xs: seq<T>, key: T -> K)
    requires |xs| > 0
    ensures FirstOfKey(xs, key, |xs| - 1) <==> key(xs[|xs| - 1]) !in Keys(xs[..|xs| - 1], key)
  {
    var front := xs[..|xs| - 1];
    if key(xs[|xs| - 1]) in Keys(front, key) {
      var j :| 0 <= j < |front| && key(front[j]) == key(xs[|xs| - 1]);
      assert xs[j] == front[j];
    }
  }

  /** The positions `KeepFirst` keeps: exactly the first element of every key, in increasing order. */
  function KeptIndices<T, K(==)>(xs: seq<T>, key: T -> K): (idx: seq<nat>)
    ensures forall k :: 0 <= k < |idx| ==> FirstOfKey(xs, key, idx[k])
    ensures forall a, b :: 0 <= a < b < |idx| ==> idx[a] < idx[b]
    ensures forall i :: FirstOfKey(xs, key, i) ==> i in idx
    decreases |xs|
  {
    if |xs| == 0 then []
    else
      var n := |xs| - 1;
      var front := xs[..n];
      var before := KeptIndices(front, key);
      assert forall i :: 0 <= i < n ==> (FirstOfKey(front, key, i) <==> FirstOfKey(xs, key, i)) by {
        forall i | 0 <= i < n
          ensures FirstOfKey(front, key, i) <==> FirstOfKey(xs, key, i)
        {
          assert forall j :: 0 <= j <= i ==> front[j] == xs[j];
        }
      }
      assert forall k :: 0 <= k < |before| ==> before[k] < n;
      LastIsFirstOfKey(xs, key);
      if key(xs[n]) in Keys(front, key) then before else before + [n]
  }

  /** `KeepFirst` picks the elements at `KeptIndices`, in that order. */
  lemma {:induction false} KeepFirstSelects<T, K>(xs: seq<T>, key: T -> K)
    ensures |KeepFirst(xs, key)| == |KeptIndices(xs, key)|
    ensures forall k :: 0 <= k < |KeptIndices(xs, key)| ==> KeepFirst(xs, key)[k] == xs[KeptIndices(xs, key)[k]]
    decreases |xs|
  {
    if |xs| > 0 {
      var n := |xs| - 1;
      var front := xs[..n];
      KeepFirstSelects(front, key);
      var kept := KeepFirst(front, key);
      var idx := KeptIndices(front, key);
      forall k | 0 <= k < |idx|
        ensures idx[k] < n && kept[k] == xs[idx[k]]
      {
        assert FirstOfKey(front, key, idx[k]);
        assert front[idx[k]] == xs[idx[k]];
      }
      if key(xs[n]) !in Keys(front, key) {
        assert KeepFirst(xs, key) == kept + [xs[n]];
        assert KeptIndices(xs, key) == idx + [n];
      }
    }
  }

  /** No two kept elements share a key. */
  lemma KeepFirstDistinct<T, K>(xs: seq<T>, key: T -> K)
    ensures var r := KeepFirst(xs, key);
      forall a, b :: 0 <= a < b < |r| ==> key(r[a]) != key(r[b])
  {
    KeepFirstSelects(xs, key);
    var r := KeepFirst(xs, key);
    var idx := KeptIndices(xs, key);
    forall a, b | 0 <= a < b < |r|
      ensures key(r[a]) != key(r[b])
    {
      assert FirstOfKey(xs, key, idx[b]);
      assert idx[a] < idx[b];
    }
  }

  /** Every key of the input is still present: nothing but repeats is dropped. */
  lemma {:induction false} KeepFirstKeys<T, K>(xs: seq<T>, key: T -> K)
    ensures Keys(KeepFirst(xs, key), key) == Keys(xs, key)
    decreases |xs|
  {
    if |xs| > 0 {
      var n := |xs| - 1;
      var front := xs[..n];
      var kept := KeepFirst(front, key);
      KeepFirstKeys(front, key);
      assert xs == front + [xs[n]];
      assert Keys(xs, key) == Keys(front, key) + {key(xs[n])} by {
        forall k | k in Keys(xs, key)
          ensures k in Keys(front, key) + {key(xs[n])}
        {
          var i :| 0 <= i < |xs| && key(xs[i]) == k;
          if i < n {
            assert front[i] == xs[i];
          }
        }
      }
      if key(xs[n]) !in Keys(front, key) {
        var r := kept + [xs[n]];
        assert Keys(r, key) == Keys(kept, key) + {key(xs[n])} by {
          forall k | k in Keys(r, key)
            ensures k in Keys(kept, key) + {key(xs[n])}
          {
            var i :| 0 <= i < |r| && key(r[i]) == k;
            if i < |kept| {
              assert r[i] == kept[i];
            }
          }
          assert r[|kept|] == xs[n];
          forall k | k in Keys(kept, key)
            ensures k in Keys(r, key)
          {
            var i :| 0 <= i < |kept| && key(kept[i]) == k;
            assert r[i] == kept[i];
          }
        }
      }
    }
  }

  /** The first element is always kept, and comes first. */
  lemma {:induction false} KeepFirstHead<T, K>(xs: seq<T>, key: T -> K)
    requires |xs| > 0
    ensures KeepFirst(xs, key)[0] == xs[0]
    decreases |xs|
  {
    if |xs| > 1 {
      var front := xs[..|xs| - 1];
      KeepFirstHead(front, key);
    } else {
      assert Keys(xs[..0], key) == {};
    }
  }

  /** A list without repeated keys is kept whole. */
  lemma {:induction false} KeepFirstOfDistinct<T, K>(xs: seq<T>, key: T -> K)
    requires forall a, b :: 0 <= a < b < |xs| ==> key(xs[a]) != key(xs[b])
    ensures KeepFirst(xs, key) == xs
    decreases |xs|
  {
    if |xs| > 0 {
      var n := |xs| - 1;
      var front := xs[..n];
      KeepFirstOfDistinct(front, key);
      assert key(xs[n]) !in Keys(front, key) by {
        forall j | 0 <= j < |front|
          ensures key(front[j]) != key(xs[n])
        {
          assert front[j] == xs[j];
        }
      }
      assert front + [xs[n]] == xs;
    }
  }

  /** Keeping the first of each key twice is keeping it once. */
  lemma KeepFirstIdempotent<T, K>(xs: seq<T>, key: T -> K)
    ensures KeepFirst(KeepFirst(xs, key), key) == KeepFirst(xs, key)
  {
    KeepFirstDistinct(xs, key);
    KeepFirstOfDistinct(KeepFirst(xs, key), key);
  }
}
