/** Python's `s[:k]` and `s[k:]` on lists and tuples: a negative bound counts
    from the end and every bound is clamped to the sequence. */
module PySlices {

  /** Where a Python slice bound `k` falls in a sequence of length `n`. */
  function Bound(n: nat, k: int): (b: nat)
    ensures b <= n
    ensures 0 <= k <= n ==> b == k
    ensures k < 0 && n + k >= 0 ==> b == n + k
    ensures k > n ==> b == n
    ensures n + k < 0 ==> b == 0
  {
    if k < 0 then (if n + k < 0 then 0 else n + k)
    else if k > n then n
    else k
  }

  /** `s[:k]` */
  function Take<T>(s: seq<T>, k: int): seq<T>
  {
    s[..Bound(|s|, k)]
  }

  /** `s[k:]` */
  function Drop<T>(s: seq<T>, k: int): seq<T>
  {
    s[Bound(|s|, k)..]
  }
}
