/**
 * The two ways the components delete one entry of a list: `Array.filter`
 * on the index (the work-experience form) and `Array.splice(index, 1)` on a
 * copy (the company profile's job list), and the proof that they agree.
 */
module Lists {

  /** `copy.splice(k, 1)` for an index `k >= 0`: an index past the end removes nothing. */
  function RemoveAt<T>(s: seq<T>, k: nat): (r: seq<T>)
    ensures k < |s| ==> |r| == |s| - 1
    ensures k < |s| ==> forall j :: 0 <= j < k ==> r[j] == s[j]
    ensures k < |s| ==> forall j :: k <= j < |r| ==> r[j] == s[j + 1]
    ensures |s| <= k ==> r == s
  {
    if k < |s| then s[..k] + s[k + 1..] else s
  }

  /**
   * `s.filter((_, i) => i !== k)` where the elements of `s` sit at indices
   * `base`, `base + 1`, ...: the element at index `k` is dropped.
   */
  function FilterOutIndex<T>(s: seq<T>, k: nat, base: nat): (r: seq<T>)
    decreases |s|
  {
    if s == [] then []
    else (if base == k then [] else [s[0]]) + FilterOutIndex(s[1..], k, base + 1)
  }

  /** Filtering out an index that no element carries keeps the whole list. */
  lemma {:induction false} FilterOutMissingIndex<T>(s: seq<T>, k: nat, base: nat)
    requires k < base
    ensures FilterOutIndex(s, k, base) == s
    decreases |s|
  {
    if s != [] {
      FilterOutMissingIndex(s[1..], k, base + 1);
      assert s == [s[0]] + s[1..];
    }
  }

  /** The filter on an index and `splice(index, 1)` remove the same element. */
  lemma {:induction false} FilterOutIndexIsRemoveAt<T>(s: seq<T>, k: nat, base: nat)
    requires base <= k
    ensures FilterOutIndex(s, k, base) == RemoveAt(s, k - base)
    decreases |s|
  {
    if s == [] {
    } else if base == k {
      FilterOutMissingIndex(s[1..], k, base + 1);
      assert RemoveAt(s, 0) == s[1..];
    } else {
      FilterOutIndexIsRemoveAt(s[1..], k, base + 1);
      var i := k - base;
      if i < |s| {
        assert s[..i] + s[i + 1..] == [s[0]] + (s[1..][..i - 1] + s[1..][i..]);
      } else {
        assert s == [s[0]] + s[1..];
      }
    }
  }

  /** Appending an element and then removing the last index gives back the list. */
  lemma AppendThenRemoveLast<T>(s: seq<T>, x: T)
    ensures RemoveAt(s + [x], |s|) == s
  {
    assert (s + [x])[..|s|] == s;
  }
}
