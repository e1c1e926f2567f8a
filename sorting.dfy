/**
 * `Array.prototype.sort` with a comparator of the form `key(x) - key(y)`: a stable sort by an
 * integer key, as the language has required of `sort` since ECMAScript 2019. It is modelled
 * as insertion sort, a function on sequences and the in-place loop that implements it.
 */
module Sorting {
  import opened Strings

  predicate SortedBy<T>(xs: seq<T>, key: T -> int) {
    forall i, j :: 0 <= i < j < |xs| ==> key(xs[i]) <= key(xs[j])
  }

  /** The elements of `xs` whose key is `k`, in their order in `xs`. */
  function WithKey<T>(xs: seq<T>, key: T -> int, k: int): seq<T>
    decreases |xs|
  {
    if xs == [] then [] else (if key(xs[0]) == k then [xs[0]] else []) + WithKey(xs[1..], key, k)
  }

  /** `x` placed in `ys` after the last element whose key is at most its own. */
  function InsertAfter<T>(x: T, ys: seq<T>, key: T -> int): (r: seq<T>)
    ensures |r| == |ys| + 1
    ensures multiset(r) == multiset(ys) + multiset{x}
    decreases |ys|
  {
    if ys == [] || key(Last(ys)) <= key(x) then ys + [x]
    else
      assert ys == ys[..|ys| - 1] + [Last(ys)];
      InsertAfter(x, ys[..|ys| - 1], key) + [Last(ys)]
  }

  /** Insertion sort: each element inserted into the sorted elements before it. */
  function SortBy<T>(xs: seq<T>, key: T -> int): (r: seq<T>)
    ensures |r| == |xs|
    ensures multiset(r) == multiset(xs)
    decreases |xs|
  {
    if xs == [] then []
    else
      assert xs == xs[..|xs| - 1] + [Last(xs)];
      InsertAfter(Last(xs), SortBy(xs[..|xs| - 1], key), key)
  }

  lemma {:induction false} WithKeyAppend<T>(a: seq<T>, b: seq<T>, key: T -> int, k: int)
    ensures WithKey(a + b, key, k) == WithKey(a, key, k) + WithKey(b, key, k)
    decreases |a|
  {
    if a == [] {
      assert a + b == b;
    } else {
      var head := if key(a[0]) == k then [a[0]] else [];
      assert (a + b)[0] == a[0] && (a + b)[1..] == a[1..] + b;
      assert WithKey(a + b, key, k) == head + WithKey(a[1..] + b, key, k);
      WithKeyAppend(a[1..], b, key, k);
    }
  }

  lemma {:induction false} InsertAfterSorted<T>(x: T, ys: seq<T>, key: T -> int)
    requires SortedBy(ys, key)
    ensures SortedBy(InsertAfter(x, ys, key), key)
    decreases |ys|
  {
    if !(ys == [] || key(Last(ys)) <= key(x)) {
      var init, last := ys[..|ys| - 1], Last(ys);
      var front := InsertAfter(x, init, key);
      InsertAfterSorted(x, init, key);
      forall i | 0 <= i < |front|
        ensures key(front[i]) <= key(last)
      {
        assert front[i] in multiset(front);
        if front[i] != x {
          assert front[i] in multiset(init);
          var m :| 0 <= m < |init| && init[m] == front[i];
          assert ys[m] == init[m];
        }
      }
    }
  }

  /** Inserting keeps the order of the elements of each key, `x` after those of its key. */
  lemma {:induction false} InsertAfterStable<T>(x: T, ys: seq<T>, key: T -> int, k: int)
    ensures WithKey(InsertAfter(x, ys, key), key, k) == WithKey(ys, key, k) + WithKey([x], key, k)
    decreases |ys|
  {
    if ys == [] || key(Last(ys)) <= key(x) {
      WithKeyAppend(ys, [x], key, k);
    } else {
      var init, last := ys[..|ys| - 1], Last(ys);
      InsertAfterStable(x, init, key, k);
      WithKeyAppend(InsertAfter(x, init, key), [last], key, k);
      assert ys == init + [last];
      WithKeyAppend(init, [last], key, k);
    }
  }

  lemma {:induction false} SortSorted<T>(xs: seq<T>, key: T -> int)
    ensures SortedBy(SortBy(xs, key), key)
    decreases |xs|
  {
    if xs != [] {
      SortSorted(xs[..|xs| - 1], key);
      InsertAfterSorted(Last(xs), SortBy(xs[..|xs| - 1], key), key);
    }
  }

  /** Stability: for every key, the elements with that key keep their relative order. */
  lemma {:induction false} SortStable<T>(xs: seq<T>, key: T -> int, k: int)
    ensures WithKey(SortBy(xs, key), key, k) == WithKey(xs, key, k)
    decreases |xs|
  {
    if xs != [] {
      var init := xs[..|xs| - 1];
      SortStable(init, key, k);
      InsertAfterStable(Last(xs), SortBy(init, key), key, k);
      assert xs == init + [Last(xs)];
      WithKeyAppend(init, [Last(xs)], key, k);
    }
  }

  lemma NonEmptyHasKey<T>(xs: seq<T>, key: T -> int)
    ensures xs != [] ==> WithKey(xs, key, key(xs[0])) != []
  {
  }

  lemma {:induction false} KeyOccurs<T>(xs: seq<T>, key: T -> int, k: int)
    requires WithKey(xs, key, k) != []
    ensures exists i :: 0 <= i < |xs| && key(xs[i]) == k
    decreases |xs|
  {
    if key(xs[0]) != k {
      KeyOccurs(xs[1..], key, k);
      var i :| 0 <= i < |xs[1..]| && key(xs[1..][i]) == k;
      assert key(xs[i + 1]) == k;
    }
  }

  /** The last element of a sorted sequence carries its largest key. */
  lemma LastKeyIsMax<T>(xs: seq<T>, key: T -> int, k: int)
    requires SortedBy(xs, key) && WithKey(xs, key, k) != []
    ensures k <= key(Last(xs))
  {
    KeyOccurs(xs, key, k);
  }

  /** Two sorted sequences with the same elements of every key end in the same element. */
  lemma SameLast<T>(a: seq<T>, b: seq<T>, key: T -> int)
    requires a != [] && b != []
    requires SortedBy(a, key) && SortedBy(b, key)
    requires forall k :: WithKey(a, key, k) == WithKey(b, key, k)
    ensures Last(a) == Last(b)
  {
    var la, lb := Last(a), Last(b);
    var ia, ib := a[..|a| - 1], b[..|b| - 1];
    SplitLast(a);
    SplitLast(b);
    WithKeyAppend(ia, [la], key, key(la));
    WithKeyAppend(ib, [lb], key, key(lb));
    LastKeyIsMax(b, key, key(la));
    LastKeyIsMax(a, key, key(lb));
    var ka := key(la);
    assert WithKey([la], key, ka) == [la];
    assert WithKey([lb], key, ka) == [lb];
    assert Last(WithKey(a, key, ka)) == la;
    assert Last(WithKey(b, key, ka)) == lb;
  }

  /** Removing the same last element keeps the elements of every key equal. */
  lemma SameInits<T>(a: seq<T>, b: seq<T>, key: T -> int, k: int)
    requires a != [] && b != [] && Last(a) == Last(b)
    requires WithKey(a, key, k) == WithKey(b, key, k)
    ensures WithKey(a[..|a| - 1], key, k) == WithKey(b[..|b| - 1], key, k)
  {
    var ia, ib := a[..|a| - 1], b[..|b| - 1];
    SplitLast(a);
    SplitLast(b);
    WithKeyAppend(ia, [Last(a)], key, k);
    WithKeyAppend(ib, [Last(a)], key, k);
    CancelSuffix(WithKey(ia, key, k), WithKey(ib, key, k), WithKey([Last(a)], key, k));
  }

  lemma CancelSuffix<T>(x: seq<T>, y: seq<T>, t: seq<T>)
    requires x + t == y + t
    ensures x == y
  {
    assert x == (x + t)[..|x|];
    assert y == (y + t)[..|y|];
  }

  lemma SortedInit<T>(xs: seq<T>, key: T -> int)
    requires xs != [] && SortedBy(xs, key)
    ensures SortedBy(xs[..|xs| - 1], key)
  {
  }

  /** Two sorted sequences with the same elements of every key, in the same order, are equal. */
  lemma {:induction false} SortedWithSameKeys<T>(a: seq<T>, b: seq<T>, key: T -> int)
    requires SortedBy(a, key) && SortedBy(b, key)
    requires forall k :: WithKey(a, key, k) == WithKey(b, key, k)
    ensures a == b
    decreases |a|
  {
    NonEmptyHasKey(a, key);
    NonEmptyHasKey(b, key);
    if a != [] && b != [] {
      SameLast(a, b, key);
      var ia, ib := a[..|a| - 1], b[..|b| - 1];
      forall k
        ensures WithKey(ia, key, k) == WithKey(ib, key, k)
      {
        SameInits(a, b, key, k);
      }
      SortedInit(a, key);
      SortedInit(b, key);
      SortedWithSameKeys(ia, ib, key);
      SplitLast(a);
      SplitLast(b);
    }
  }

  /**
   * The sort is the only result a stable sort may give: any sorted sequence that keeps the
   * order of the elements of every key is `SortBy(xs, key)`.
   */
  lemma StableSortUnique<T>(xs: seq<T>, ys: seq<T>, key: T -> int)
    requires SortedBy(ys, key)
    requires forall k :: WithKey(ys, key, k) == WithKey(xs, key, k)
    ensures ys == SortBy(xs, key)
  {
    SortSorted(xs, key);
    forall k
      ensures WithKey(SortBy(xs, key), key, k) == WithKey(ys, key, k)
    {
      SortStable(xs, key, k);
    }
    SortedWithSameKeys(SortBy(xs, key), ys, key);
  }

  lemma SplitLast<T>(xs: seq<T>)
    requires xs != []
    ensures xs == xs[..|xs| - 1] + [Last(xs)]
  {
  }

  lemma InsertShift<T>(a: seq<T>, x: T, y: T, j: nat)
    requires j <= |a|
    ensures (a[..j] + [x] + a[j..]) + [y] == (a + [y])[..j] + [x] + (a + [y])[j..]
  {
    assert (a + [y])[..j] == a[..j];
    assert (a + [y])[j..] == a[j..] + [y];
  }

  /** Inserting before a run of larger keys that ends the sequence. */
  lemma {:induction false} InsertAt<T>(x: T, s: seq<T>, j: nat, key: T -> int)
    requires j <= |s|
    requires j == 0 || key(s[j - 1]) <= key(x)
    requires forall m :: j <= m < |s| ==> key(s[m]) > key(x)
    ensures InsertAfter(x, s, key) == s[..j] + [x] + s[j..]
    decreases |s| - j
  {
    if j == |s| {
      assert s[..j] == s && s[j..] == [];
    } else {
      var init, last := s[..|s| - 1], Last(s);
      assert key(s[|s| - 1]) > key(x);
      SplitLast(s);
      InsertAt(x, init, j, key);
      InsertShift(init, x, last, j);
    }
  }

  /** `a[i]` shifted left past the larger keys in the sorted `a[..i]`. */
  method InsertInPlace<T>(a: array<T>, i: nat, key: T -> int)
    requires i < a.Length
    modifies a
    ensures a[..i + 1] == InsertAfter(old(a[i]), old(a[..i]), key)
    ensures a[i + 1..] == old(a[i + 1..])
  {
    var x := a[i];
    ghost var sorted, tail := a[..i], a[i + 1..];
    assert a[..] == sorted[..i] + [a[i]] + sorted[i..] + tail;
    var j := i;
    while j > 0 && key(a[j - 1]) > key(x)
      invariant 0 <= j <= i
      invariant a[..] == sorted[..j] + [a[j]] + sorted[j..] + tail
      invariant forall m :: j <= m < i ==> key(sorted[m]) > key(x)
    {
      ghost var before := a[..];
      Hole(sorted, tail, j, before);
      a[j] := a[j - 1];
      assert a[..] == before[j := before[j - 1]];
      ShiftStep(sorted, tail, j, before, a[..]);
      j := j - 1;
    }
    ghost var before := a[..];
    a[j] := x;
    assert a[..] == before[j := x];
    Filled(sorted, tail, j, x, before, a[..]);
    InsertAt(x, sorted, j, key);
  }

  lemma Hole<T>(s: seq<T>, tail: seq<T>, j: nat, now: seq<T>)
    requires 0 < j <= |s| && |now| > j
    requires now == s[..j] + [now[j]] + s[j..] + tail
    ensures now[j - 1] == s[j - 1]
  {
    assert now[j - 1] == (s[..j] + [now[j]] + s[j..] + tail)[j - 1];
  }

  /** Moving the element before the hole into it moves the hole one place left. */
  lemma ShiftStep<T>(s: seq<T>, tail: seq<T>, j: nat, before: seq<T>, after: seq<T>)
    requires 0 < j <= |s| && |before| > j
    requires before == s[..j] + [before[j]] + s[j..] + tail
    requires after == before[j := before[j - 1]]
    ensures after == s[..j - 1] + [after[j - 1]] + s[j - 1..] + tail
  {
    Hole(s, tail, j, before);
    assert s[..j] == s[..j - 1] + [s[j - 1]];
    assert s[j - 1..] == [s[j - 1]] + s[j..];
  }

  /** Filling the hole with `x` gives `x` inserted at `j`. */
  lemma Filled<T>(s: seq<T>, tail: seq<T>, j: nat, x: T, before: seq<T>, after: seq<T>)
    requires j <= |s| && |before| > j
    requires before == s[..j] + [before[j]] + s[j..] + tail
    requires after == before[j := x]
    ensures after[..|s| + 1] == s[..j] + [x] + s[j..]
    ensures after[|s| + 1..] == tail
  {
    assert after == (s[..j] + [x] + s[j..]) + tail;
  }

  lemma ConcatParts<T>(p: seq<T>, xs: seq<T>, i: nat)
    requires |p| == i < |xs|
    ensures (p + xs[i..])[..i] == p
    ensures (p + xs[i..])[i] == xs[i]
    ensures (p + xs[i..])[i + 1..] == xs[i + 1..]
  {
  }

  /** Inserting the next element into the sorted prefix extends the sorted prefix by one. */
  lemma SortedOneMore<T>(xs: seq<T>, i: nat, before: seq<T>, after: seq<T>, key: T -> int)
    requires i < |xs| && |after| == |before|
    requires before == SortBy(xs[..i], key) + xs[i..]
    requires after[..i + 1] == InsertAfter(before[i], before[..i], key)
    requires after[i + 1..] == before[i + 1..]
    ensures after == SortBy(xs[..i + 1], key) + xs[i + 1..]
  {
    var next := SortBy(xs[..i], key);
    ConcatParts(next, xs, i);
    SortOneMore(xs, i, key);
    var sorted := SortBy(xs[..i + 1], key);
    assert after[..i + 1] == sorted && after[i + 1..] == xs[i + 1..];
    SplitAt(after, i + 1);
  }

  /** The sort of one more element is that element inserted into the sort of the others. */
  lemma SortOneMore<T>(xs: seq<T>, i: nat, key: T -> int)
    requires i < |xs|
    ensures SortBy(xs[..i + 1], key) == InsertAfter(xs[i], SortBy(xs[..i], key), key)
  {
    var prefix := xs[..i + 1];
    assert prefix[..i] == xs[..i] && Last(prefix) == xs[i];
  }

  lemma SplitAt<T>(s: seq<T>, k: nat)
    requires k <= |s|
    ensures s == s[..k] + s[k..]
  {
  }

  /** The in-place sort: each element in turn inserted into the sorted elements before it. */
  method SortInPlace<T>(a: array<T>, key: T -> int)
    modifies a
    ensures a[..] == SortBy(old(a[..]), key)
  {
    ghost var start := a[..];
    for i := 0 to a.Length
      invariant a[..] == SortBy(start[..i], key) + start[i..]
    {
      ghost var before := a[..];
      InsertInPlace(a, i, key);
      SortedOneMore(start, i, before, a[..], key);
    }
    assert start[..a.Length] == start;
  }
}
