/** Sums of growing delays, as the queue's deadline and the backoff ceiling add them up. */
module Triangular {
  /** 0 + 1 + ... + k. */
  function Triangle(k: nat): nat {
    if k == 0 then 0 else Triangle(k - 1) + k
  }

  lemma {:induction false} TriangleClosed(k: nat)
    ensures 2 * Triangle(k) == k * (k + 1)
  {
    if k > 0 {
      TriangleClosed(k - 1);
    }
  }

  lemma {:induction false} TriangleGrows(j: nat, k: nat)
    requires j < k
    ensures Triangle(j) < Triangle(k)
  {
    if j + 1 < k {
      TriangleGrows(j, k - 1);
    }
  }

  /** With a positive delay every permitted check k < n starts strictly before the deadline of n delays. */
  lemma ChecksPrecedeDeadline(delay: int, k: nat, n: nat)
    requires delay > 0 && k < n
    ensures delay * Triangle(k) < delay * Triangle(n)
  {
    TriangleGrows(k, n);
  }

  lemma NextDelay(delay: int, k: nat)
    ensures delay * Triangle(k + 1) == delay * Triangle(k) + delay * (k + 1)
  {
    Distribute(delay, Triangle(k), k + 1);
  }

  lemma Distribute(delay: int, a: int, b: int)
    ensures delay * (a + b) == delay * a + delay * b
  {
  }

  /** Array(n).fill(delay).reduce((acc, curr, idx) => acc + curr * (idx + 1), 0). */
  method SumOfDelays(delay: int, n: nat) returns (acc: int)
    ensures acc == delay * Triangle(n)
  {
    acc := 0;
    for idx := 0 to n
      invariant acc == delay * Triangle(idx)
    {
      NextDelay(delay, idx);
      acc := acc + delay * (idx + 1);
    }
  }
}
