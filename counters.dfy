/**
 * Python's `collections.Counter` over string keys: a map that holds only
 * the keys counted at least once, read with a default of 0.
 */
module Counters {
  /** `counter[k]` of a `Counter`: 0 for a key never counted. */
  function Count0(m: map<string, nat>, k: string): nat {
    if k in m then m[k] else 0
  }

  /** `counter[k] += 1`. */
  function Bump(m: map<string, nat>, k: string): (r: map<string, nat>)
    ensures r.Keys == m.Keys + {k}
    ensures Count0(r, k) == Count0(m, k) + 1
    ensures forall j :: j != k ==> Count0(r, j) == Count0(m, j)
  {
    m[k := Count0(m, k) + 1]
  }
}
