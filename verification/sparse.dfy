/** JavaScript's `array[n] = value` on a sparse array. A hole (or the `null`
    a hole becomes after a JSON round trip) is `None`. */
module SparseArray {

  import opened Wrappers

  function Max(a: int, b: int): int {
    if a < b then b else a
  }

  /** The value at position `i` after writing `v` at `n`: the new value at
      `n`, the old element below the old length, a hole beyond it. */
  function After<T>(s: seq<Option<T>>, n: nat, v: T, i: nat): Option<T> {
    if i == n then Some(v) else if i < |s| then s[i] else None
  }

  /** Assign `v` at index `n`, growing the array with holes when `n` lies
      beyond its end. */
  function Write<T>(s: seq<Option<T>>, n: nat, v: T): (r: seq<Option<T>>)
    ensures |r| == Max(|s|, n + 1)
    ensures r[n] == Some(v)
    ensures forall i :: 0 <= i < |r| ==> r[i] == After(s, n, v, i)
    decreases n + 1 - |s|
  {
    if n < |s| then s[n := Some(v)] else Write(s + [None], n, v)
  }

  /** The same write stated element-wise, as a reference definition. */
  function WriteReference<T>(s: seq<Option<T>>, n: nat, v: T): seq<Option<T>> {
    seq(Max(|s|, n + 1), (i: int) requires 0 <= i => After(s, n, v, i))
  }

  lemma WriteMatchesReference<T>(s: seq<Option<T>>, n: nat, v: T)
    ensures Write(s, n, v) == WriteReference(s, n, v)
  {
  }

  /** Writing twice at the same index keeps only the second value. */
  lemma WriteOverwrites<T>(s: seq<Option<T>>, n: nat, a: T, b: T)
    ensures Write(Write(s, n, a), n, b) == Write(s, n, b)
  {
  }

  /** Writes at distinct indices commute. */
  lemma WritesCommute<T>(s: seq<Option<T>>, n: nat, a: T, m: nat, b: T)
    requires n != m
    ensures Write(Write(s, n, a), m, b) == Write(Write(s, m, b), n, a)
  {
  }

}
