/** The `Vec` and iterator operations the notification queue relies on. */
module Vec {
  import opened Wrappers

  /** `Iterator::position`: the index of the first element satisfying `p`. */
  function FirstIndex<T>(s: seq<T>, p: T -> bool): (r: Option<nat>)
    ensures r.Some? ==> r.value < |s| && p(s[r.value])
    ensures r.Some? ==> forall j :: 0 <= j < r.value ==> !p(s[j])
    ensures r.None? ==> forall j :: 0 <= j < |s| ==> !p(s[j])
  {
    if |s| == 0 then None
    else if p(s[0]) then Some(0)
    else match FirstIndex(s[1..], p)
      case None => None
      case Some(i) => Some(i + 1)
  }

  /** The loop behind `position`, which stops at the first match. */
  method Position<T>(s: seq<T>, p: T -> bool) returns (r: Option<nat>)
    ensures r == FirstIndex(s, p)
  {
    var i := 0;
    while i < |s|
      invariant 0 <= i <= |s|
      invariant forall j :: 0 <= j < i ==> !p(s[j])
    {
      if p(s[i]) {
        return Some(i);
      }
      i := i + 1;
    }
    return None;
  }

  /**
   * `swap_remove(i)`: the last element takes the place of element `i`.
   * Rust panics when `i` is out of bounds.
   */
  function SwapRemove<T>(s: seq<T>, i: nat): (r: seq<T>)
    requires i < |s|
    ensures |r| == |s| - 1
    ensures forall j :: 0 <= j < |r| && j != i ==> r[j] == s[j]
    ensures i < |r| ==> r[i] == s[|s| - 1]
  {
    if i == |s| - 1 then s[..i] else s[..i] + [s[|s| - 1]] + s[i + 1..|s| - 1]
  }

  /** `swap_remove` removes exactly one occurrence of the element at `i` and keeps the rest. */
  lemma {:induction false} SwapRemovePermutes<T>(s: seq<T>, i: nat)
    requires i < |s|
    ensures multiset(SwapRemove(s, i)) + multiset{s[i]} == multiset(s)
  {
    if i == |s| - 1 {
      assert s == s[..i] + [s[i]];
    } else {
      assert s == s[..i] + [s[i]] + s[i + 1..|s| - 1] + [s[|s| - 1]];
    }
  }

  /** Two predicates that agree on every element find the same first index. */
  lemma {:induction false} FirstIndexSamePredicate<T>(s: seq<T>, p: T -> bool, p2: T -> bool)
    requires forall x :: p(x) == p2(x)
    ensures FirstIndex(s, p) == FirstIndex(s, p2)
  {
    if |s| > 0 {
      FirstIndexSamePredicate(s[1..], p, p2);
    }
  }
}
