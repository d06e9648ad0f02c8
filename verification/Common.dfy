/** Datatypes shared by every component of the model. */
module Common {
  datatype Option<+T> = None | Some(value: T)

  /** The last (at most) `k` elements, as JavaScript's `slice(-k)` for `k > 0`. */
  function LastK<T>(k: nat, s: seq<T>): (r: seq<T>)
    ensures |r| <= k && |r| <= |s|
  {
    if |s| <= k then s else s[|s| - k..]
  }

  lemma LastKOfConcat<T>(k: nat, a: seq<T>, b: seq<T>)
    ensures LastK(k, LastK(k, a) + b) == LastK(k, a + b)
  {
  }

  lemma LastKOfSuffix<T>(k: nat, s: seq<T>, from: nat)
    requires from <= |s| && (from == 0 || |s| - from >= k)
    ensures LastK(k, s[from..]) == LastK(k, s)
  {
  }
}
