/**
 * The two list operations the scripts build everything from: Python's
 * `sorted(items, key=...)`, which is stable and ascending, and the filtering
 * list comprehension `[x for x in items if keep(x)]`.
 */
module Lists {
  import opened StringOrder

  /** Non-decreasing under `key`, for every pair of positions. */
  ghost predicate SortedBy<T>(s: seq<T>, key: T -> string) {
    forall i, j :: 0 <= i < j < |s| ==> LessEq(key(s[i]), key(s[j]))
  }

  /** The elements of `s` whose key is `k`, in their order in `s`. */
  function WithKey<T>(s: seq<T>, key: T -> string, k: string): seq<T> {
    if s == [] then []
    else (if key(s[0]) == k then [s[0]] else []) + WithKey(s[1..], key, k)
  }

  /** `r` is obtained from `s` by deleting elements, keeping the order of the rest. */
  ghost predicate IsSubsequence<T>(r: seq<T>, s: seq<T>) {
    if r == [] then true
    else if s == [] then false
    else (r[0] == s[0] && IsSubsequence(r[1..], s[1..])) || IsSubsequence(r, s[1..])
  }

  /** Places `x` in front of the first element whose key is not below `x`'s. */
  function Insert<T>(x: T, s: seq<T>, key: T -> string): (r: seq<T>)
    ensures |r| == |s| + 1
    ensures multiset(r) == multiset(s) + multiset{x}
  {
    if s == [] then [x]
    else if LessEq(key(x), key(s[0])) then [x] + s
    else
      assert s == [s[0]] + s[1..];
      [s[0]] + Insert(x, s[1..], key)
  }

  /** `sorted(s, key=key)`: insertion from the back, so earlier elements stay first among equal keys. */
  function SortBy<T>(s: seq<T>, key: T -> string): (r: seq<T>)
    ensures |r| == |s|
    ensures multiset(r) == multiset(s)
  {
    if s == [] then []
    else
      assert s == [s[0]] + s[1..];
      Insert(s[0], SortBy(s[1..], key), key)
  }

  lemma {:induction false} InsertSorted<T>(x: T, s: seq<T>, key: T -> string)
    requires SortedBy(s, key)
    ensures SortedBy(Insert(x, s, key), key)
  {
    if s == [] {
    } else if LessEq(key(x), key(s[0])) {
      var r := [x] + s;
      forall i, j | 0 <= i < j < |r| ensures LessEq(key(r[i]), key(r[j])) {
        if i == 0 && j > 1 {
          LessEqTransitive(key(x), key(s[0]), key(s[j - 1]));
        }
      }
    } else {
      LessEqTotal(key(x), key(s[0]));
      var t := Insert(x, s[1..], key);
      InsertSorted(x, s[1..], key);
      forall j | 0 <= j < |t| ensures LessEq(key(s[0]), key(t[j])) {
        assert t[j] in multiset(t);
        if t[j] != x {
          assert t[j] in s[1..];
          var m :| 0 <= m < |s[1..]| && s[1..][m] == t[j];
          assert s[m + 1] == t[j];
        }
      }
      var r := [s[0]] + t;
      forall i, j | 0 <= i < j < |r| ensures LessEq(key(r[i]), key(r[j])) {
        if i > 0 {
          assert r[i] == t[i - 1] && r[j] == t[j - 1];
        }
      }
    }
  }

  /** The result of `sorted` is ordered by its key. */
  lemma {:induction false} SortBySorted<T>(s: seq<T>, key: T -> string)
    ensures SortedBy(SortBy(s, key), key)
  {
    if s != [] {
      SortBySorted(s[1..], key);
      InsertSorted(s[0], SortBy(s[1..], key), key);
    }
  }

  lemma {:induction false} WithKeyCons<T>(x: T, s: seq<T>, key: T -> string, k: string)
    ensures WithKey([x] + s, key, k) == (if key(x) == k then [x] else []) + WithKey(s, key, k)
  {
    assert ([x] + s)[0] == x && ([x] + s)[1..] == s;
  }

  /** Grouping by key distributes over concatenation. */
  lemma {:induction false} WithKeyConcat<T>(s: seq<T>, u: seq<T>, key: T -> string, k: string)
    ensures WithKey(s + u, key, k) == WithKey(s, key, k) + WithKey(u, key, k)
  {
    if s == [] {
      assert s + u == u;
    } else {
      assert s + u == [s[0]] + (s[1..] + u);
      assert s == [s[0]] + s[1..];
      WithKeyCons(s[0], s[1..] + u, key, k);
      WithKeyCons(s[0], s[1..], key, k);
      WithKeyConcat(s[1..], u, key, k);
    }
  }

  lemma {:induction false} WithKeyHead<T>(s: seq<T>, key: T -> string, k: string)
    requires s != []
    ensures WithKey(s, key, k) == (if key(s[0]) == k then [s[0]] else []) + WithKey(s[1..], key, k)
  {
  }

  lemma {:induction false} InsertWithKey<T>(x: T, s: seq<T>, key: T -> string, k: string)
    ensures WithKey(Insert(x, s, key), key, k) == (if key(x) == k then [x] else []) + WithKey(s, key, k)
  {
    if s == [] {
      WithKeyCons(x, [], key, k);
    } else if LessEq(key(x), key(s[0])) {
      WithKeyCons(x, s, key, k);
    } else {
      var t := Insert(x, s[1..], key);
      WithKeyCons(s[0], t, key, k);
      WithKeyCons(s[0], s[1..], key, k);
      InsertWithKey(x, s[1..], key, k);
      assert s == [s[0]] + s[1..];
      if key(s[0]) == k && key(x) == k {
        LessEqReflexive(k);
        assert false;
      }
    }
  }

  /** Stability: among elements with equal keys, `sorted` keeps the input order. */
  lemma {:induction false} SortByStable<T>(s: seq<T>, key: T -> string, k: string)
    ensures WithKey(SortBy(s, key), key, k) == WithKey(s, key, k)
  {
    if s != [] {
      SortByStable(s[1..], key, k);
      InsertWithKey(s[0], SortBy(s[1..], key), key, k);
    }
  }

  /** Sorting an input that is already ordered returns it unchanged. */
  lemma {:induction false} SortByOfSorted<T>(s: seq<T>, key: T -> string)
    requires SortedBy(s, key)
    ensures SortBy(s, key) == s
  {
    if s != [] {
      assert SortedBy(s[1..], key) by {
        forall i, j | 0 <= i < j < |s[1..]| ensures LessEq(key(s[1..][i]), key(s[1..][j])) {
          assert s[1..][i] == s[i + 1] && s[1..][j] == s[j + 1];
        }
      }
      SortByOfSorted(s[1..], key);
      if |s| == 1 {
        assert s == [s[0]];
      } else {
        assert s[1..][0] == s[1];
        assert s == [s[0]] + s[1..];
      }
    }
  }

  /** Sorting twice is sorting once. */
  lemma SortByIdempotent<T>(s: seq<T>, key: T -> string)
    ensures SortBy(SortBy(s, key), key) == SortBy(s, key)
  {
    SortBySorted(s, key);
    SortByOfSorted(SortBy(s, key), key);
  }

  lemma {:induction false} SortedTail<T>(s: seq<T>, key: T -> string)
    requires s != [] && SortedBy(s, key)
    ensures SortedBy(s[1..], key)
  {
    forall i, j | 0 <= i < j < |s[1..]| ensures LessEq(key(s[1..][i]), key(s[1..][j])) {
      assert s[1..][i] == s[i + 1] && s[1..][j] == s[j + 1];
    }
  }

  lemma {:induction false} WithKeyMembers<T>(s: seq<T>, key: T -> string, k: string, y: T)
    requires y in WithKey(s, key, k)
    ensures exists i :: 0 <= i < |s| && s[i] == y && key(y) == k
  {
    WithKeyCons(s[0], s[1..], key, k);
    assert s == [s[0]] + s[1..];
    if !(key(s[0]) == k && y == s[0]) {
      WithKeyMembers(s[1..], key, k, y);
      var i :| 0 <= i < |s[1..]| && s[1..][i] == y && key(y) == k;
      assert s[i + 1] == y;
    }
  }

  /** Two ordered lists that agree on the order within every key are equal. */
  lemma {:induction false} SortedSameGroupsEqual<T>(r: seq<T>, t: seq<T>, key: T -> string)
    requires SortedBy(r, key) && SortedBy(t, key)
    requires forall k :: WithKey(r, key, k) == WithKey(t, key, k)
    ensures r == t
    decreases |r| + |t|
  {
    if r == [] && t != [] {
      WithKeyHead(t, key, key(t[0]));
      assert false;
    } else if r != [] && t == [] {
      WithKeyHead(r, key, key(r[0]));
      assert false;
    } else if r != [] {
      assert r == [r[0]] + r[1..] && t == [t[0]] + t[1..];
      var k, k' := key(r[0]), key(t[0]);
      WithKeyCons(r[0], r[1..], key, k);
      WithKeyCons(t[0], t[1..], key, k');
      assert r[0] in WithKey(t, key, k);
      WithKeyMembers(t, key, k, r[0]);
      var i :| 0 <= i < |t| && t[i] == r[0] && key(r[0]) == k;
      if i == 0 { LessEqReflexive(k); }
      assert LessEq(k', k);
      assert t[0] in WithKey(r, key, k');
      WithKeyMembers(r, key, k', t[0]);
      var j :| 0 <= j < |r| && r[j] == t[0] && key(t[0]) == k';
      if j == 0 { LessEqReflexive(k'); }
      assert LessEq(k, k');
      LessEqAntisymmetric(k, k');
      assert WithKey(r, key, k)[0] == r[0];
      assert WithKey(t, key, k)[0] == t[0];
      assert r[0] == t[0];
      forall k2 ensures WithKey(r[1..], key, k2) == WithKey(t[1..], key, k2) {
        WithKeyCons(r[0], r[1..], key, k2);
        WithKeyCons(t[0], t[1..], key, k2);
        var h := if key(r[0]) == k2 then [r[0]] else [];
        assert WithKey(r, key, k2) == h + WithKey(r[1..], key, k2);
        assert WithKey(t, key, k2) == h + WithKey(t[1..], key, k2);
        assert WithKey(r[1..], key, k2) == (h + WithKey(r[1..], key, k2))[|h|..];
        assert WithKey(t[1..], key, k2) == (h + WithKey(t[1..], key, k2))[|h|..];
      }
      SortedTail(r, key);
      SortedTail(t, key);
      SortedSameGroupsEqual(r[1..], t[1..], key);
    }
  }

  /**
   * `sorted` is the ONLY ordered rearrangement that keeps every group of equal
   * keys in input order: an independent description of the result.
   */
  lemma SortByUnique<T>(s: seq<T>, r: seq<T>, key: T -> string)
    requires SortedBy(r, key)
    requires forall k :: WithKey(r, key, k) == WithKey(s, key, k)
    ensures r == SortBy(s, key)
  {
    SortBySorted(s, key);
    forall k ensures WithKey(r, key, k) == WithKey(SortBy(s, key), key, k) {
      SortByStable(s, key, k);
    }
    SortedSameGroupsEqual(r, SortBy(s, key), key);
  }

  /** `[x for x in s if keep(x)]` */
  function Filter<T(!new)>(s: seq<T>, keep: T -> bool): (r: seq<T>)
    ensures |r| <= |s|
    ensures forall i :: 0 <= i < |r| ==> keep(r[i])
  {
    if s == [] then []
    else (if keep(s[0]) then [s[0]] else []) + Filter(s[1..], keep)
  }

  /** The comprehension keeps every occurrence of a kept value and none of the others. */
  lemma {:induction false} FilterCounts<T(!new)>(s: seq<T>, keep: T -> bool)
    ensures forall x :: multiset(Filter(s, keep))[x] == if keep(x) then multiset(s)[x] else 0
  {
    if s != [] {
      FilterCounts(s[1..], keep);
      assert s == [s[0]] + s[1..];
    }
  }

  /** Filtering a list with one more element at its end. */
  lemma {:induction false} FilterSnoc<T(!new)>(s: seq<T>, x: T, keep: T -> bool)
    ensures Filter(s + [x], keep) == Filter(s, keep) + Filter([x], keep)
  {
    if s != [] {
      var t := s + [x];
      assert t[0] == s[0];
      assert t[1..] == s[1..] + [x];
      FilterSnoc(s[1..], x, keep);
    } else {
      assert s + [x] == [x];
    }
  }

  /** The comprehension keeps the surviving elements in their original order. */
  lemma {:induction false} FilterIsSubsequence<T(!new)>(s: seq<T>, keep: T -> bool)
    ensures IsSubsequence(Filter(s, keep), s)
  {
    if s != [] {
      FilterIsSubsequence(s[1..], keep);
      var r := Filter(s, keep);
      if keep(s[0]) {
        assert r[0] == s[0] && r[1..] == Filter(s[1..], keep);
      } else {
        assert r == Filter(s[1..], keep);
        if r != [] {
          assert IsSubsequence(r, s[1..]);
        }
      }
    }
  }

  /** When every element is kept, the comprehension is the identity. */
  lemma {:induction false} FilterKeepsAll<T(!new)>(s: seq<T>, keep: T -> bool)
    requires forall i :: 0 <= i < |s| ==> keep(s[i])
    ensures Filter(s, keep) == s
  {
    if s != [] {
      FilterKeepsAll(s[1..], keep);
      assert s == [s[0]] + s[1..];
    }
  }

  /** `after` is what a stable sort by `key` makes of `before`: ordered, a permutation, equal keys in input order. */
  ghost predicate IsStableSortOf<T>(after: seq<T>, before: seq<T>, key: T -> string) {
    && SortedBy(after, key)
    && multiset(after) == multiset(before)
    && forall k :: WithKey(after, key, k) == WithKey(before, key, k)
  }

  lemma SortByIsStableSort<T>(s: seq<T>, key: T -> string)
    ensures IsStableSortOf(SortBy(s, key), s, key)
  {
    SortBySorted(s, key);
    forall k ensures WithKey(SortBy(s, key), key, k) == WithKey(s, key, k) {
      SortByStable(s, key, k);
    }
  }

  /** Three elements whose keys are in order form a sorted list. */
  lemma SortedThree<T>(a: T, b: T, c: T, key: T -> string)
    requires LessEq(key(a), key(b)) && LessEq(key(b), key(c)) && LessEq(key(a), key(c))
    ensures SortedBy([a, b, c], key)
  {
  }

  /** `sorted` of two elements that are out of order swaps them. */
  lemma SortByTwoSwapped<T>(b: T, c: T, key: T -> string)
    requires !LessEq(key(b), key(c))
    ensures SortBy([b, c], key) == [c, b]
  {
    assert [b, c][1..] == [c];
    assert [c][1..] == [];
    assert SortBy([c], key) == Insert(c, [], key) == [c];
    assert Insert(b, [c], key) == [c] + Insert(b, [], key);
  }

  /** `sorted` of two elements already in order keeps them. */
  lemma SortByTwoInOrder<T>(b: T, c: T, key: T -> string)
    requires LessEq(key(b), key(c))
    ensures SortBy([b, c], key) == [b, c]
  {
    assert [b, c][1..] == [c];
    assert [c][1..] == [];
    assert SortBy([c], key) == Insert(c, [], key) == [c];
  }

  /** `sorted` of three elements whose last one belongs first. */
  lemma SortByLastFirst<T>(a: T, b: T, c: T, key: T -> string)
    requires !LessEq(key(b), key(c)) && !LessEq(key(a), key(c)) && LessEq(key(a), key(b))
    ensures SortBy([a, b, c], key) == [c, a, b]
  {
    assert [a, b, c][1..] == [b, c];
    calc {
      SortBy([a, b, c], key);
      Insert(a, SortBy([b, c], key), key);
      { SortByTwoSwapped(b, c, key); }
      Insert(a, [c, b], key);
      { assert [c, b][1..] == [b]; }
      [c] + Insert(a, [b], key);
      [c, a, b];
    }
  }

  /** `sorted` of three elements whose middle one belongs first. */
  lemma SortByMiddleFirst<T>(a: T, b: T, c: T, key: T -> string)
    requires !LessEq(key(a), key(b)) && LessEq(key(a), key(c)) && LessEq(key(b), key(c))
    ensures SortBy([a, b, c], key) == [b, a, c]
  {
    assert [a, b, c][1..] == [b, c];
    calc {
      SortBy([a, b, c], key);
      Insert(a, SortBy([b, c], key), key);
      { SortByTwoInOrder(b, c, key); }
      Insert(a, [b, c], key);
      { assert [b, c][1..] == [c]; }
      [b] + Insert(a, [c], key);
      [b, a, c];
    }
  }
}
