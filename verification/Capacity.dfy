/** Counting permits, as the gateway's semaphores hand them out. */
module Capacity {

  class Semaphore {
    var available: nat

    constructor (n: nat)
      ensures available == n
    {
      available := n;
    }

    /** Taking `n` permits fails unless that many are free. */
    method TryAcquireMany(n: nat) returns (ok: bool)
      modifies this
      ensures ok == (n <= old(available))
      ensures available == if ok then old(available) - n else old(available)
    {
      ok := n <= available;
      if ok { available := available - n; }
    }

    method Release(n: nat)
      modifies this
      ensures available == old(available) + n
    {
      available := available + n;
    }
  }
}
