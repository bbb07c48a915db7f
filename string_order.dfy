/** The default ordering of JavaScript's `Array.prototype.sort` on strings
    (lexicographic on character codes), and insertion sort under it. */
module StringOrder {
  import opened Folds

  /** `a` sorts no later than `b`. */
  predicate Below(a: string, b: string)
  {
    if a == [] then true
    else if b == [] then false
    else if a[0] != b[0] then a[0] < b[0]
    else Below(a[1..], b[1..])
  }

  lemma BelowTotal(a: string, b: string)
    ensures Below(a, b) || Below(b, a)
  {
  }

  lemma BelowTransitive(a: string, b: string, c: string)
    requires Below(a, b) && Below(b, c)
    ensures Below(a, c)
  {
  }

  ghost predicate Sorted(s: seq<string>)
  {
    forall i, j :: 0 <= i < j < |s| ==> Below(s[i], s[j])
  }

  /** Ascending with no value repeated. */
  ghost predicate StrictlySorted(s: seq<string>)
  {
    forall i, j :: 0 <= i < j < |s| ==> Below(s[i], s[j]) && s[i] != s[j]
  }

  function Insert(x: string, s: seq<string>): seq<string>
  {
    if s == [] then [x]
    else if Below(x, s[0]) then [x] + s
    else [s[0]] + Insert(x, s[1..])
  }

  lemma {:induction false} InsertPermutes(x: string, s: seq<string>)
    ensures multiset(Insert(x, s)) == multiset(s) + multiset{x}
  {
    if s == [] {
      assert Insert(x, s) == [x];
    } else if Below(x, s[0]) {
      assert Insert(x, s) == [x] + s;
    } else {
      InsertPermutes(x, s[1..]);
      assert s == [s[0]] + s[1..];
    }
  }

  lemma {:induction false} InsertSorted(x: string, s: seq<string>)
    requires Sorted(s)
    ensures Sorted(Insert(x, s))
  {
    if s == [] {
    } else if Below(x, s[0]) {
      var r := [x] + s;
      forall i, j | 0 <= i < j < |r| ensures Below(r[i], r[j]) {
        if i == 0 && j > 1 {
          BelowTransitive(x, s[0], s[j - 1]);
        }
      }
    } else {
      var r' := Insert(x, s[1..]);
      InsertSorted(x, s[1..]);
      InsertPermutes(x, s[1..]);
      BelowTotal(x, s[0]);
      var r := [s[0]] + r';
      forall i, j | 0 <= i < j < |r| ensures Below(r[i], r[j]) {
        assert r[j] == r'[j - 1];
        if i > 0 {
          assert r[i] == r'[i - 1];
        } else {
          assert r[j] in multiset(r');
          if r[j] != x {
            assert r[j] in multiset(s[1..]);
            var k :| 0 <= k < |s[1..]| && s[1..][k] == r[j];
            assert s[k + 1] == r[j];
          }
        }
      }
    }
  }

  lemma {:induction false} InsertNoDup(x: string, s: seq<string>)
    requires NoDup(s) && x !in s
    ensures NoDup(Insert(x, s))
  {
    if s != [] && !Below(x, s[0]) {
      var r' := Insert(x, s[1..]);
      InsertNoDup(x, s[1..]);
      InsertPermutes(x, s[1..]);
      forall k | 0 <= k < |s[1..]| ensures s[1..][k] != s[0] {
        assert s[1..][k] == s[k + 1];
      }
      assert s[0] !in multiset(r');
      var r := [s[0]] + r';
      forall i, j | 0 <= i < j < |r| ensures r[i] != r[j] {
        assert r[j] == r'[j - 1];
        if i > 0 {
          assert r[i] == r'[i - 1];
        } else {
          assert r[j] in multiset(r');
        }
      }
    }
  }

  /** `s.sort()` on strings. */
  function SortStrings(s: seq<string>): (r: seq<string>)
    ensures Sorted(r)
    ensures multiset(r) == multiset(s)
    ensures NoDup(s) ==> StrictlySorted(r)
  {
    if s == [] then []
    else
      var init, last := s[..|s| - 1], s[|s| - 1];
      assert s == init + [last];
      var sorted := SortStrings(init);
      InsertSorted(last, sorted);
      InsertPermutes(last, sorted);
      if NoDup(s) then
        assert NoDup(init) && last !in init;
        assert last !in multiset(sorted);
        InsertNoDup(last, sorted);
        Insert(last, sorted)
      else
        Insert(last, sorted)
  }
}
