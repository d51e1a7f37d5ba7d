/** Sequence helpers shared by the model: the bounded-suffix operation that
    JavaScript's `arr.slice(-k)` performs on the hook's history, the
    analysis window and the architecture page's log buffer. */
module Seqs {

  /** The last `k` elements of `s` (all of `s` when it is shorter), in order.
      This is `slice(-k)` for every k >= 1, which is all the model passes
      (30, 10, 3 and 8); for k = 0 it is empty, whereas `slice(-0)` copies
      the whole array. */
  function Last<T>(s: seq<T>, k: nat): (r: seq<T>)
    ensures |r| == if |s| <= k then |s| else k
    ensures r == s[|s| - |r|..]
  {
    if |s| <= k then s else s[|s| - k..]
  }

  /** Appending one element and keeping the last `k` keeps the new element
      last, keeps the earlier ones in their order, and evicts only the oldest. */
  lemma AppendThenLast<T>(s: seq<T>, x: T, k: nat)
    requires k >= 1
    ensures |Last(s + [x], k)| <= k
    ensures Last(s + [x], k)[|Last(s + [x], k)| - 1] == x
    ensures Last(s + [x], k) == Last(s, k - 1) + [x]
  {
    var t := s + [x];
    if |t| <= k {
      assert Last(s, k - 1) == s;
    } else {
      assert t[|t| - k..] == s[|s| - (k - 1)..] + [x];
    }
  }
}
