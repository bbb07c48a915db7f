/** The array pipeline steps the components use (`filter`, `reduce` into a
    sum, `find`), written once and generic in the element type. The folds
    recurse on the last element, the order in which `reduce` and `forEach`
    visit an array. */
module Folds {
  import opened Records

  /** `xs.filter(p)` */
  function Filter<T(==)>(xs: seq<T>, p: T -> bool): (r: seq<T>)
    ensures |r| <= |xs|
  {
    if xs == [] then []
    else
      var rest := Filter(xs[..|xs| - 1], p);
      if p(xs[|xs| - 1]) then rest + [xs[|xs| - 1]] else rest
  }

  /** The filter keeps exactly the elements that satisfy `p`. */
  lemma {:induction false} FilterMembers<T>(xs: seq<T>, p: T -> bool)
    ensures forall x :: x in Filter(xs, p) <==> x in xs && p(x)
  {
    if xs != [] {
      var init, last := xs[..|xs| - 1], xs[|xs| - 1];
      assert xs == init + [last];
      FilterMembers(init, p);
    }
  }

  /** No value occurs twice. */
  predicate NoDup<T(==)>(s: seq<T>)
  {
    forall i, j :: 0 <= i < j < |s| ==> s[i] != s[j]
  }

  lemma {:induction false} FilterNoDup<T>(xs: seq<T>, p: T -> bool)
    requires NoDup(xs)
    ensures NoDup(Filter(xs, p))
  {
    if xs != [] {
      var init, last := xs[..|xs| - 1], xs[|xs| - 1];
      assert xs == init + [last];
      FilterNoDup(init, p);
      FilterMembers(init, p);
      assert last !in init;
    }
  }

  lemma FilterSnoc<T>(xs: seq<T>, x: T, p: T -> bool)
    ensures Filter(xs + [x], p) == Filter(xs, p) + (if p(x) then [x] else [])
  {
    assert (xs + [x])[..|xs|] == xs;
  }

  /** The values of `s` in order of first occurrence: `[...new Set(s)]`. */
  function Distinct<T(==)>(s: seq<T>): (r: seq<T>)
    ensures NoDup(r)
    ensures forall i :: 0 <= i < |r| ==> r[i] in s
    ensures forall j :: 0 <= j < |s| ==> s[j] in r
  {
    if s == [] then []
    else
      var init, last := s[..|s| - 1], s[|s| - 1];
      assert s == init + [last];
      var d := Distinct(init);
      if last in d then d else d + [last]
  }

  /** `xs.reduce((sum, x) => sum + w(x), 0)` */
  function Sum<T>(xs: seq<T>, w: T -> int): int
  {
    if xs == [] then 0 else Sum(xs[..|xs| - 1], w) + w(xs[|xs| - 1])
  }

  lemma SumSnoc<T>(xs: seq<T>, x: T, w: T -> int)
    ensures Sum(xs + [x], w) == Sum(xs, w) + w(x)
  {
    assert (xs + [x])[..|xs|] == xs;
  }

  /** A sum whose weights are non-negative on the elements is non-negative. */
  lemma {:induction false} SumNonNegative<T>(xs: seq<T>, w: T -> int)
    ensures (forall i :: 0 <= i < |xs| ==> w(xs[i]) >= 0) ==> Sum(xs, w) >= 0
  {
    if xs != [] {
      SumNonNegative(xs[..|xs| - 1], w);
    }
  }

  /** Lowering some weights never raises the sum. */
  lemma {:induction false} SumMonotone<T>(xs: seq<T>, v: T -> int, w: T -> int)
    requires forall i :: 0 <= i < |xs| ==> v(xs[i]) <= w(xs[i])
    ensures Sum(xs, v) <= Sum(xs, w)
  {
    if xs != [] {
      SumMonotone(xs[..|xs| - 1], v, w);
    }
  }

  function One<T>(x: T): int
  {
    1
  }

  /** Adding 1 per element counts the elements: `filter(...).length` is a sum. */
  lemma {:induction false} SumOnes<T>(xs: seq<T>)
    ensures Sum(xs, One) == |xs|
  {
    if xs != [] {
      SumOnes(xs[..|xs| - 1]);
    }
  }

  /** Summing the elements that pass a filter is summing every element with
      the others weighted 0: what a `filter` followed by a `reduce` adds up. */
  lemma {:induction false} SumFilter<T>(xs: seq<T>, p: T -> bool, w: T -> int, v: T -> int)
    requires forall x :: v(x) == (if p(x) then w(x) else 0)
    ensures Sum(Filter(xs, p), w) == Sum(xs, v)
  {
    if xs != [] {
      var init, last := xs[..|xs| - 1], xs[|xs| - 1];
      assert xs == init + [last];
      SumFilter(init, p, w, v);
      FilterSnoc(init, last, p);
      if p(last) {
        SumSnoc(Filter(init, p), last, w);
      }
    }
  }

  /** `xs.find(p)`: the first element that satisfies `p`, if any (see FindSpec). */
  function Find<T>(xs: seq<T>, p: T -> bool): Option<T>
  {
    if xs == [] then None
    else if p(xs[0]) then Some(xs[0])
    else Find(xs[1..], p)
  }

  /** `find` gives nothing exactly when no element satisfies `p`, and
      otherwise the element at the first index that does. */
  lemma {:induction false} FindSpec<T>(xs: seq<T>, p: T -> bool)
    ensures Find(xs, p).None? <==> forall i :: 0 <= i < |xs| ==> !p(xs[i])
    ensures Find(xs, p).Some? ==> p(Find(xs, p).value)
    ensures Find(xs, p).Some? ==> exists i :: 0 <= i < |xs| && xs[i] == Find(xs, p).value && forall j :: 0 <= j < i ==> !p(xs[j])
  {
    if xs != [] && !p(xs[0]) {
      FindSpec(xs[1..], p);
      var r := Find(xs[1..], p);
      forall i | 1 <= i < |xs| ensures xs[i] == xs[1..][i - 1] { }
      if r.Some? {
        var i :| 0 <= i < |xs| - 1 && xs[1..][i] == r.value && forall j :: 0 <= j < i ==> !p(xs[1..][j]);
        assert xs[i + 1] == r.value;
      }
    }
  }

  /** How many elements of `xs` have the key `k`. */
  function CountKey<T, K(==)>(xs: seq<T>, key: T -> K, k: K): (n: nat)
    ensures n <= |xs|
  {
    if xs == [] then 0
    else CountKey(xs[..|xs| - 1], key, k) + (if key(xs[|xs| - 1]) == k then 1 else 0)
  }

  /** `xs.reduce((acc, x) => { acc[key(x)] = (acc[key(x)] || 0) + 1; return acc; }, {})`:
      a key for every key that occurs, holding the number of its occurrences. */
  function TallyBy<T, K(==,!new)>(xs: seq<T>, key: T -> K): (r: map<K, int>)
    ensures forall k :: k in r <==> exists i :: 0 <= i < |xs| && key(xs[i]) == k
    ensures forall k :: k in r ==> r[k] == CountKey(xs, key, k) && r[k] >= 1
  {
    if xs == [] then map[]
    else
      var init, last := xs[..|xs| - 1], xs[|xs| - 1];
      var acc := TallyBy(init, key);
      assert forall i :: 0 <= i < |init| ==> init[i] == xs[i];
      var r := acc[key(last) := (if key(last) in acc then acc[key(last)] else 0) + 1];
      assert forall k :: k in r ==> r[k] == CountKey(xs, key, k) by {
        forall k | k in r ensures r[k] == CountKey(xs, key, k) {
          assert CountKey(xs, key, k) == CountKey(init, key, k) + (if key(last) == k then 1 else 0);
          if k !in acc {
            assert CountKey(init, key, k) == 0 by {
              CountKeyAbsent(init, key, k);
            }
          }
        }
      }
      r
  }

  lemma {:induction false} CountKeyAbsent<T, K>(xs: seq<T>, key: T -> K, k: K)
    requires forall i :: 0 <= i < |xs| ==> key(xs[i]) != k
    ensures CountKey(xs, key, k) == 0
  {
    if xs != [] {
      CountKeyAbsent(xs[..|xs| - 1], key, k);
    }
  }

  /** The sum of a map's values (`Object.values(m)` added up); it does not
      depend on the order in which the keys are visited. */
  ghost function MapSum<K>(m: map<K, int>): int
    decreases |m|
  {
    if m == map[] then 0
    else
      var k :| k in m;
      assert |m - {k}| == |m| - 1 by {
        assert (m - {k}).Keys == m.Keys - {k};
      }
      m[k] + MapSum(m - {k})
  }

  lemma {:induction false} MapSumRemove<K>(m: map<K, int>, k: K)
    requires k in m
    ensures MapSum(m) == m[k] + MapSum(m - {k})
    decreases |m|
  {
    var j :| j in m && MapSum(m) == m[j] + MapSum(m - {j});
    if j != k {
      assert |m - {j}| == |m| - 1 && |m - {k}| == |m| - 1 by {
        assert (m - {j}).Keys == m.Keys - {j};
        assert (m - {k}).Keys == m.Keys - {k};
      }
      MapSumRemove(m - {j}, k);
      MapSumRemove(m - {k}, j);
      assert m - {j} - {k} == m - {k} - {j};
    }
  }

  /** Setting one key changes the sum by the difference at that key. */
  lemma MapSumUpdate<K>(m: map<K, int>, k: K, v: int)
    ensures MapSum(m[k := v]) == MapSum(m) - (if k in m then m[k] else 0) + v
  {
    MapSumRemove(m[k := v], k);
    assert m[k := v] - {k} == m - {k};
    if k in m {
      MapSumRemove(m, k);
    } else {
      assert m - {k} == m;
    }
  }

  /** The counts of a tally add up to the number of elements tallied. */
  lemma {:induction false} TallyTotal<T, K(!new)>(xs: seq<T>, key: T -> K)
    ensures MapSum(TallyBy(xs, key)) == |xs|
  {
    if xs == [] {
      assert TallyBy(xs, key) == map[];
    } else {
      var init, last := xs[..|xs| - 1], xs[|xs| - 1];
      var acc := TallyBy(init, key);
      var n := (if key(last) in acc then acc[key(last)] else 0) + 1;
      assert TallyBy(xs, key) == acc[key(last) := n];
      TallyTotal(init, key);
      MapSumUpdate(acc, key(last), n);
    }
  }
}
