/** Optional values and results of calls that may fail. */
module Wrappers {

  datatype Option<+T> = None | Some(value: T)

  datatype Result<+T, +E> = Ok(value: T) | Err(error: E)

  function Max(a: int, b: int): int {
    if a < b then b else a
  }

  function Min(a: int, b: int): int {
    if a < b then a else b
  }

  /** What a map holds at a key. */
  function Lookup<K, V>(m: map<K, V>, k: K): Option<V> {
    if k in m then Some(m[k]) else None
  }

  // ---- Positions ----

  predicate Increasing(at: seq<nat>) {
    forall i, j | 0 <= i < j < |at| :: at[i] < at[j]
  }

  /** `at` lists the positions in `kept`, each once and in order. */
  ghost predicate Positions(at: seq<nat>, kept: set<nat>) {
    Increasing(at) && forall p :: p in at <==> p in kept
  }

  lemma OneMorePosition(at: seq<nat>, kept: set<nat>, n: nat)
    requires Positions(at, kept) && forall p | p in kept :: p < n
    ensures Positions(at + [n], kept + {n})
  {
    var more := at + [n];
    forall i, j | 0 <= i < j < |more| ensures more[i] < more[j] {
      assert at[i] in at;
    }
  }
}
