/** JavaScript's `array.slice(-k)` for a positive `k`: the final `k` elements, or the
    whole array when it is shorter. */
module Slices {

  function Last<T>(s: seq<T>, k: nat): (r: seq<T>)
    requires k > 0
    ensures |r| == if |s| < k then |s| else k
    ensures s == s[..|s| - |r|] + r
  {
    if |s| <= k then s else s[|s| - k..]
  }

  /** A narrower window taken from a wider one is the narrower window of the whole list. */
  lemma LastOfLast<T>(s: seq<T>, j: nat, k: nat)
    requires 0 < j <= k
    ensures Last(Last(s, k), j) == Last(s, j)
  {
  }
}
