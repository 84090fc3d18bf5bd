/**
 * Python's `collections.deque(maxlen=N)`, as a value. Appending to a full deque drops the oldest
 * element. The activity log (N = 50), the prediction history (N = 20) and the two frame slots
 * (N = 1, the latest-value channels) are all deques of this kind.
 */
module Deques {

  /** The contents after `append(x)` on a deque that holds `s` and has capacity `maxLen`. */
  function Append<T>(s: seq<T>, x: T, maxLen: nat): (r: seq<T>)
    requires 0 < maxLen && |s| <= maxLen
    ensures |r| == if |s| < maxLen then |s| + 1 else maxLen
    ensures 0 < |r| <= maxLen
    ensures r == (s + [x])[|s| + 1 - |r|..]
  {
    if |s| < maxLen then s + [x] else s[1..] + [x]
  }

  /** The new element is always the newest; the ones kept are the newest of `s`, in their old order. */
  lemma AppendKeepsOrder<T>(s: seq<T>, x: T, maxLen: nat)
    requires 0 < maxLen && |s| <= maxLen
    ensures var r := Append(s, x, maxLen);
      && r[|r| - 1] == x
      && (|s| < maxLen ==> r[..|r| - 1] == s)
      && (|s| == maxLen ==> r[..|r| - 1] == s[1..])
  {
    var r := Append(s, x, maxLen);
    if |s| == maxLen {
      assert r == s[1..] + [x];
    }
  }

  /**
   * A deque of capacity 1 is a latest-value slot: after `append(a)` and then `append(b)` it holds
   * exactly `b`, so a following `popleft()` yields `b` and leaves it empty.
   */
  lemma SlotKeepsLatest<T>(s: seq<T>, a: T, b: T)
    requires |s| <= 1
    ensures Append(Append(s, a, 1), b, 1) == [b]
    ensures Append(Append(s, a, 1), b, 1)[1..] == []
  {
  }
}
