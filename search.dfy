/**
 * `binarySearch(value, array)` without the comparator argument: the classic `left`/`right`
 * loop that returns the index of an exact hit, or the insertion point minus one.
 */
module Search {

  predicate Ascending(a: seq<int>) {
    forall i, j :: 0 <= i < j < |a| ==> a[i] <= a[j]
  }

  /** What the loop returns once its window is `[left, right)`. */
  function SearchWindow(v: int, a: seq<int>, left: nat, right: nat): (r: int)
    requires left <= right <= |a|
    ensures left - 1 <= r < right
    decreases right - left
  {
    if right > left then
      var mid := (left + right) / 2;
      if a[mid] < v then SearchWindow(v, a, mid + 1, right)
      else if a[mid] > v then SearchWindow(v, a, left, mid)
      else mid
    else left - 1
  }

  /** `binarySearch(v, a)`. */
  function Search(v: int, a: seq<int>): int {
    SearchWindow(v, a, 0, |a|)
  }

  /** The `while` loop that narrows `left` and `right`. */
  method BinarySearch(v: int, a: seq<int>) returns (i: int)
    ensures -1 <= i < |a|
    ensures i == Search(v, a)
  {
    var left, right := 0, |a|;
    while right > left
      invariant 0 <= left <= right <= |a|
      invariant SearchWindow(v, a, left, right) == Search(v, a)
      decreases right - left
    {
      var mid := (left + right) / 2;
      var order := if a[mid] < v then -1 else if a[mid] > v then 1 else 0;
      if order == 0 {
        return mid;
      }
      if order < 0 {
        left := mid + 1;
      } else {
        right := mid;
      }
    }
    i := left - 1;
  }

  /**
   * `r` brackets `v` in `a`: `a[r] <= v <= a[r + 1]` where those exist, the right-hand side
   * strict unless `a[r]` is a hit.
   */
  predicate Brackets(v: int, a: seq<int>, r: int)
    requires -1 <= r < |a|
  {
    && (r >= 0 ==> a[r] <= v)
    && (r + 1 < |a| ==> v <= a[r + 1])
    && (r + 1 < |a| && (r < 0 || a[r] != v) ==> v < a[r + 1])
  }

  /** Inside a window whose outside is already classified, the answer brackets `v`. */
  lemma {:induction false} WindowBrackets(v: int, a: seq<int>, left: nat, right: nat)
    requires Ascending(a) && left <= right <= |a|
    requires forall k :: 0 <= k < left ==> a[k] < v
    requires forall k :: right <= k < |a| ==> v < a[k]
    ensures Brackets(v, a, SearchWindow(v, a, left, right))
    decreases right - left
  {
    var r := SearchWindow(v, a, left, right);
    if right > left {
      var mid := (left + right) / 2;
      if a[mid] < v {
        BelowThrough(v, a, mid);
        WindowBrackets(v, a, mid + 1, right);
        assert r == SearchWindow(v, a, mid + 1, right);
      } else if a[mid] > v {
        AboveFrom(v, a, mid);
        WindowBrackets(v, a, left, mid);
        assert r == SearchWindow(v, a, left, mid);
      } else {
        assert r == mid;
        HitBrackets(v, a, mid);
      }
    } else {
      assert r == left - 1;
      EmptyWindowBrackets(v, a, left, r);
    }
  }

  /** An exact hit brackets `v`. */
  lemma HitBrackets(v: int, a: seq<int>, mid: nat)
    requires Ascending(a) && mid < |a| && a[mid] == v
    ensures Brackets(v, a, mid)
  {
    if mid + 1 < |a| {
      assert a[mid] <= a[mid + 1];
    }
  }

  /** An empty window brackets `v` between the elements below it and those above it. */
  lemma EmptyWindowBrackets(v: int, a: seq<int>, left: nat, r: int)
    requires left <= |a| && r == left - 1
    requires forall k :: 0 <= k < left ==> a[k] < v
    requires forall k :: left <= k < |a| ==> v < a[k]
    ensures Brackets(v, a, r)
  {
  }

  /** Everything up to an element below `v` is below `v`. */
  lemma BelowThrough(v: int, a: seq<int>, mid: nat)
    requires Ascending(a) && mid < |a| && a[mid] < v
    ensures forall k :: 0 <= k < mid + 1 ==> a[k] < v
  {
    forall k | 0 <= k < mid + 1 ensures a[k] < v {
      assert a[k] <= a[mid];
    }
  }

  /** Everything from an element above `v` on is above `v`. */
  lemma AboveFrom(v: int, a: seq<int>, mid: nat)
    requires Ascending(a) && mid < |a| && v < a[mid]
    ensures forall k :: mid <= k < |a| ==> v < a[k]
  {
    forall k | mid <= k < |a| ensures v < a[k] {
      assert a[mid] <= a[k];
    }
  }

  /**
   * On an ascending array the result `i` lies in `[-1, |a|)`, `a[i] <= v <= a[i + 1]` with the
   * right-hand inequality strict unless `a[i]` is a hit; `-1` exactly when `v` is below every
   * element, and a hit exactly when `v` occurs.
   */
  lemma SearchBrackets(v: int, a: seq<int>)
    requires Ascending(a)
    ensures var i := Search(v, a);
      && -1 <= i < |a|
      && (i >= 0 ==> a[i] <= v)
      && (i + 1 < |a| ==> v <= a[i + 1])
      && (i + 1 < |a| && (i < 0 || a[i] != v) ==> v < a[i + 1])
      && (i == -1 <==> |a| == 0 || v < a[0])
      && ((exists k :: 0 <= k < |a| && a[k] == v) <==> i >= 0 && a[i] == v)
  {
    WindowBrackets(v, a, 0, |a|);
    var i := Search(v, a);
    if !(i >= 0 && a[i] == v) {
      forall k | 0 <= k < |a|
        ensures a[k] != v
      {
        if k <= i {
          assert a[k] <= a[i];
        } else {
          assert a[i + 1] <= a[k];
        }
      }
    }
  }

  /** With duplicates an exact hit need not be the rightmost one. */
  lemma HitNotRightmost()
    ensures Search(5, [5, 5, 5]) == 1
  {
  }
}
