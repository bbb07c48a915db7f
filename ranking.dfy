/** `xs.sort((a, b) => key(b) - key(a)).slice(0, n)`: the "sort descending,
    keep the first n" step of the dashboard's rankings. `Array.prototype.sort`
    is stable, so entries with equal keys keep their input order; the model
    sorts by stable insertion. */
module Ranking {
  import opened Folds

  ghost predicate NonIncreasing<T>(s: seq<T>, key: T -> int)
  {
    forall i, j :: 0 <= i < j < |s| ==> key(s[i]) >= key(s[j])
  }

  /** The entries of `s` whose key is `k`, in their order in `s`. */
  function WithKey<T>(s: seq<T>, key: T -> int, k: int): seq<T>
  {
    if s == [] then []
    else WithKey(s[..|s| - 1], key, k) + (if key(s[|s| - 1]) == k then [s[|s| - 1]] else [])
  }

  lemma {:induction false} WithKeyAppend<T>(a: seq<T>, b: seq<T>, key: T -> int, k: int)
    ensures WithKey(a + b, key, k) == WithKey(a, key, k) + WithKey(b, key, k)
  {
    if b == [] {
      assert a + b == a;
    } else {
      var init, last := b[..|b| - 1], b[|b| - 1];
      assert (a + b)[..|a + b| - 1] == a + init;
      WithKeyAppend(a, init, key, k);
    }
  }

  lemma WithKeySingle<T>(x: T, key: T -> int, k: int)
    ensures WithKey([x], key, k) == if key(x) == k then [x] else []
  {
    assert [x][..0] == [];
  }

  lemma {:induction false} WithKeyNone<T>(s: seq<T>, key: T -> int, k: int)
    requires forall i :: 0 <= i < |s| ==> key(s[i]) < k
    ensures WithKey(s, key, k) == []
  {
    if s != [] {
      WithKeyNone(s[..|s| - 1], key, k);
    }
  }

  /** Places `x` after every entry whose key is at least `key(x)`. */
  function InsertDesc<T>(x: T, s: seq<T>, key: T -> int): seq<T>
  {
    if s == [] then [x]
    else if key(s[0]) >= key(x) then [s[0]] + InsertDesc(x, s[1..], key)
    else [x] + s
  }

  lemma {:induction false} InsertDescBounded<T>(x: T, s: seq<T>, key: T -> int, b: int)
    requires key(x) <= b && forall i :: 0 <= i < |s| ==> key(s[i]) <= b
    ensures forall j :: 0 <= j < |InsertDesc(x, s, key)| ==> key(InsertDesc(x, s, key)[j]) <= b
  {
    if s != [] && key(s[0]) >= key(x) {
      InsertDescBounded(x, s[1..], key, b);
    }
  }

  lemma {:induction false} InsertDescSorted<T>(x: T, s: seq<T>, key: T -> int)
    requires NonIncreasing(s, key)
    ensures NonIncreasing(InsertDesc(x, s, key), key)
  {
    if s != [] && key(s[0]) >= key(x) {
      var r' := InsertDesc(x, s[1..], key);
      InsertDescSorted(x, s[1..], key);
      InsertDescBounded(x, s[1..], key, key(s[0]));
      var r := [s[0]] + r';
      forall i, j | 0 <= i < j < |r| ensures key(r[i]) >= key(r[j]) {
        assert r[j] == r'[j - 1];
        if i > 0 {
          assert r[i] == r'[i - 1];
        }
      }
    }
  }

  lemma {:induction false} InsertDescPermutes<T>(x: T, s: seq<T>, key: T -> int)
    ensures multiset(InsertDesc(x, s, key)) == multiset(s) + multiset{x}
  {
    if s != [] && key(s[0]) >= key(x) {
      InsertDescPermutes(x, s[1..], key);
      assert s == [s[0]] + s[1..];
    }
  }

  lemma NonIncreasingTail<T>(s: seq<T>, key: T -> int)
    requires s != [] && NonIncreasing(s, key)
    ensures NonIncreasing(s[1..], key)
    ensures forall i :: 0 <= i < |s| ==> key(s[i]) <= key(s[0])
  {
    var t := s[1..];
    forall i, j | 0 <= i < j < |t| ensures key(t[i]) >= key(t[j]) {
      assert t[i] == s[i + 1] && t[j] == s[j + 1];
    }
    forall i | 0 < i < |s| ensures key(s[i]) <= key(s[0]) {
    }
  }

  /** `x` placed in front of entries all keyed below it. */
  lemma InsertDescStableFront<T>(x: T, s: seq<T>, key: T -> int, k: int)
    requires forall i :: 0 <= i < |s| ==> key(s[i]) < key(x)
    ensures WithKey([x] + s, key, k) == WithKey(s, key, k) + (if key(x) == k then [x] else [])
  {
    WithKeyAppend([x], s, key, k);
    WithKeySingle(x, key, k);
    if key(x) == k {
      WithKeyNone(s, key, k);
    }
  }

  /** An entry kept ahead of `x` keeps its place among those with its key. */
  lemma InsertDescStablePast<T>(y: T, t: seq<T>, r: seq<T>, key: T -> int, k: int, tail: seq<T>)
    requires WithKey(r, key, k) == WithKey(t, key, k) + tail
    ensures WithKey([y] + r, key, k) == WithKey([y] + t, key, k) + tail
  {
    WithKeyAppend([y], r, key, k);
    WithKeyAppend([y], t, key, k);
  }

  lemma {:induction false} InsertDescStable<T>(x: T, s: seq<T>, key: T -> int, k: int)
    requires NonIncreasing(s, key)
    ensures WithKey(InsertDesc(x, s, key), key, k) == WithKey(s, key, k) + (if key(x) == k then [x] else [])
  {
    if s == [] {
      WithKeySingle(x, key, k);
    } else {
      NonIncreasingTail(s, key);
      var t := s[1..];
      assert s == [s[0]] + t;
      if key(s[0]) >= key(x) {
        InsertDescStable(x, t, key, k);
        InsertDescStablePast(s[0], t, InsertDesc(x, t, key), key, k, if key(x) == k then [x] else []);
      } else {
        InsertDescStableFront(x, s, key, k);
      }
    }
  }

  /** The stable sort by descending key. */
  function SortDesc<T(==)>(s: seq<T>, key: T -> int): (r: seq<T>)
    ensures NonIncreasing(r, key)
    ensures multiset(r) == multiset(s)
    ensures forall k :: WithKey(r, key, k) == WithKey(s, key, k)
  {
    if s == [] then []
    else
      var init, last := s[..|s| - 1], s[|s| - 1];
      var sorted := SortDesc(init, key);
      InsertDescSorted(last, sorted, key);
      InsertDescPermutes(last, sorted, key);
      assert s == init + [last];
      assert forall k :: WithKey(InsertDesc(last, sorted, key), key, k) == WithKey(s, key, k) by {
        forall k ensures WithKey(InsertDesc(last, sorted, key), key, k) == WithKey(s, key, k) {
          InsertDescStable(last, sorted, key, k);
        }
      }
      InsertDesc(last, sorted, key)
  }

  function Min(a: int, b: int): int
  {
    if a <= b then a else b
  }

  lemma PrefixPermutation<T>(t: seq<T>, m: nat)
    requires m <= |t|
    ensures multiset(t[..m]) <= multiset(t)
    ensures multiset(t) - multiset(t[..m]) == multiset(t[m..])
  {
    assert t == t[..m] + t[m..];
  }

  lemma PrefixDominates<T>(t: seq<T>, m: nat, key: T -> int)
    requires m <= |t| && NonIncreasing(t, key)
    ensures forall x :: x in multiset(t[m..]) ==> forall i :: 0 <= i < m ==> key(x) <= key(t[i])
  {
    forall x | x in multiset(t[m..]) ensures forall i :: 0 <= i < m ==> key(x) <= key(t[i]) {
      var j :| 0 <= j < |t[m..]| && t[m..][j] == x;
      assert t[m + j] == x;
    }
  }

  lemma PrefixStable<T>(t: seq<T>, m: nat, key: T -> int)
    requires m <= |t|
    ensures forall k :: WithKey(t[..m], key, k) <= WithKey(t, key, k)
  {
    assert t == t[..m] + t[m..];
    forall k ensures WithKey(t[..m], key, k) <= WithKey(t, key, k) {
      WithKeyAppend(t[..m], t[m..], key, k);
    }
  }

  /** The first `n` entries of the stable descending sort: exactly `min(n, |s|)`
      entries, non-increasing, drawn from `s`, none of them below an entry left
      out, and among entries with equal keys the earliest ones in `s`. */
  function TopByKey<T(==)>(s: seq<T>, key: T -> int, n: nat): (r: seq<T>)
    ensures |r| == Min(n, |s|)
    ensures NonIncreasing(r, key)
    ensures multiset(r) <= multiset(s)
    ensures forall x :: x in multiset(s) - multiset(r) ==> forall i :: 0 <= i < |r| ==> key(x) <= key(r[i])
    ensures forall k :: WithKey(r, key, k) <= WithKey(s, key, k)
  {
    var sorted := SortDesc(s, key);
    assert |sorted| == |s| by {
      assert |multiset(sorted)| == |multiset(s)|;
    }
    var m := Min(n, |s|);
    PrefixPermutation(sorted, m);
    PrefixDominates(sorted, m, key);
    PrefixStable(sorted, m, key);
    sorted[..m]
  }

  /** Every entry kept comes from `s`, and an entry of `s` that is not kept
      ranks no higher than any entry kept. */
  lemma TopByKeyMembers<T>(s: seq<T>, key: T -> int, n: nat)
    ensures forall i :: 0 <= i < |TopByKey(s, key, n)| ==> TopByKey(s, key, n)[i] in s
    ensures forall x :: x in s && x !in TopByKey(s, key, n) ==>
      |TopByKey(s, key, n)| == n && forall i :: 0 <= i < |TopByKey(s, key, n)| ==> key(x) <= key(TopByKey(s, key, n)[i])
  {
    var r := TopByKey(s, key, n);
    forall i | 0 <= i < |r| ensures r[i] in s {
      assert r[i] in multiset(r);
    }
    forall x | x in s && x !in r ensures |r| == n && forall i :: 0 <= i < |r| ==> key(x) <= key(r[i]) {
      assert x in multiset(s) - multiset(r);
      if |r| != n {
        assert false;
      }
    }
  }

  /** A sub-multiset of the same size is the whole multiset. */
  lemma SubMultisetSameSize<T>(a: seq<T>, b: seq<T>)
    requires multiset(a) <= multiset(b) && |a| == |b|
    ensures multiset(a) == multiset(b)
  {
    var rest := multiset(b) - multiset(a);
    assert multiset(b) == multiset(a) + rest;
    assert |rest| == 0;
  }

  /** A copy of an entry left out, counting copies, means the list is full:
      `n` entries were kept. */
  lemma TopByKeyFull<T>(s: seq<T>, key: T -> int, n: nat)
    ensures forall x :: x in multiset(s) - multiset(TopByKey(s, key, n)) ==> |TopByKey(s, key, n)| == n
  {
    var r := TopByKey(s, key, n);
    if |r| != n {
      SubMultisetSameSize(r, s);
      assert multiset(s) - multiset(r) == multiset{};
    }
  }
}
