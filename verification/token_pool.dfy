/**
 * The bounded pool of integer resource tokens.
 *
 * The pool is a bounded concurrent collection owned by the engine base class;
 * only its sequential behaviour is modelled: a multiset of tokens whose add
 * operation refuses once the pool holds `capacity` tokens.
 */
module TokenPool {
  import opened Wrappers

  /**
   * Adding a token to a bounded pool: refused when the pool is full, otherwise
   * exactly one more copy of `t` and nothing else changes. This is an explicit
   * assumption about the engine's pool, whose bound is the broker's
   * concurrency limit.
   */
  function TryAdd(pool: multiset<int>, capacity: int, t: int): (r: Option<multiset<int>>)
    ensures r.Some? <==> |pool| < capacity
    ensures r.Some? ==> |r.value| == |pool| + 1 <= capacity
    ensures r.Some? ==> r.value[t] == pool[t] + 1
    ensures r.Some? ==> forall u :: u != t ==> r.value[u] == pool[u]
  {
    if |pool| < capacity then Some(pool + multiset{t}) else None
  }

  /** The tokens 0 .. n-1, each once, as the broker's constructor adds them. */
  function InitialPool(n: int): (pool: multiset<int>)
    ensures |pool| == if n > 0 then n else 0
    ensures forall t :: pool[t] == if 0 <= t < n then 1 else 0
    decreases if n > 0 then n else 0
  {
    if n <= 0 then multiset{} else InitialPool(n - 1) + multiset{n - 1}
  }
}
