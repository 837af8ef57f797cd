/** Backoff waits, their ceiling, and the retry loop around them. */
module Backoff {
  import opened Triangular

  datatype Mode = Linear | Exponential | Jitter | Constant | Immediate

  const MAX_DURATION: real := 3600000.0

  function Pow2(n: nat): nat {
    if n == 0 then 1 else 2 * Pow2(n - 1)
  }

  /** The wait before attempt `attempt` + 1; `roll` is Math.random(). */
  function Wait(mode: Mode, attempt: nat, delay: real, roll: real): real {
    match mode
    case Linear => delay + attempt as real * delay
    case Exponential => delay * Pow2(attempt) as real
    case Jitter => delay + roll * attempt as real * delay
    case Constant => delay
    case Immediate => 0.0
  }

  /** delay + 2 * delay + ... + maxAttempts * delay, but at most one hour. */
  function Ceiling(maxAttempts: nat, delay: real): real {
    var sum := delay * Triangle(maxAttempts) as real;
    if sum < MAX_DURATION then sum else MAX_DURATION
  }

  /** validate lets the wait pass. */
  predicate Accepted(mode: Mode, maxAttempts: nat, delay: real, wait: real) {
    (wait > 0.0 || mode == Immediate) && wait <= Ceiling(maxAttempts, delay)
  }

  method Validate(mode: Mode, maxAttempts: nat, interval: real, wait: real) returns (ok: bool)
    ensures ok == Accepted(mode, maxAttempts, interval, wait)
    ensures wait <= 0.0 && mode != Immediate ==> !ok
    ensures wait <= 0.0 <= interval && mode == Immediate ==> ok
  {
    assert interval >= 0.0 ==> interval * Triangle(maxAttempts) as real >= 0.0;
    var acc := 0.0;
    for idx := 0 to maxAttempts
      invariant acc == interval * Triangle(idx) as real
    {
      acc := acc + interval * (idx + 1) as real;
    }
    var max := if acc < MAX_DURATION then acc else MAX_DURATION;
    if wait <= 0.0 && mode != Immediate {
      return false;
    }
    return wait <= max;
  }

  // ---------------------------------------------------------------- which waits are accepted

  /** Every wait of a run of maxAttempts failures; there is none after the last one. */
  predicate AllAccepted(mode: Mode, maxAttempts: nat, delay: real, rolls: nat -> real) {
    forall a | 1 <= a < maxAttempts :: Accepted(mode, maxAttempts, delay, Wait(mode, a, delay, rolls(a)))
  }

  lemma TriangleAbove(n: nat)
    requires n > 0
    ensures Triangle(n) >= n
  {
  }

  lemma Scale(delay: real, a: real, b: real)
    requires delay > 0.0 && a <= b
    ensures delay * a <= delay * b
  {
  }

  lemma ScaleStrictly(delay: real, a: real, b: real)
    requires delay > 0.0 && a < b
    ensures delay * a < delay * b
  {
    assert delay * (b - a) > 0.0;
  }

  lemma LinearWait(a: nat, delay: real, roll: real)
    ensures Wait(Linear, a, delay, roll) == delay * (a + 1) as real
  {
  }

  lemma LinearWaitFits(a: nat, n: nat, delay: real, roll: real)
    requires delay > 0.0 && a < n
    ensures delay <= Wait(Linear, a, delay, roll) <= delay * n as real
  {
    LinearWait(a, delay, roll);
    var k := (a + 1) as real;
    Scale(delay, k, n as real);
    Scale(delay, 1.0, k);
  }

  /** Linear waits are all accepted exactly when the last one, delay times maxAttempts, is within the hour. */
  lemma LinearAcceptedIff(maxAttempts: nat, delay: real, rolls: nat -> real)
    requires delay > 0.0 && maxAttempts > 1
    ensures AllAccepted(Linear, maxAttempts, delay, rolls) <==> delay * maxAttempts as real <= 3600000.0
  {
    var last := Wait(Linear, maxAttempts - 1, delay, rolls(maxAttempts - 1));
    LinearWait(maxAttempts - 1, delay, rolls(maxAttempts - 1));
    TriangleAbove(maxAttempts);
    Scale(delay, maxAttempts as real, Triangle(maxAttempts) as real);
    if delay * maxAttempts as real <= MAX_DURATION {
      forall a | 1 <= a < maxAttempts ensures Accepted(Linear, maxAttempts, delay, Wait(Linear, a, delay, rolls(a))) {
        LinearWaitFits(a, maxAttempts, delay, rolls(a));
      }
    } else {
      assert !Accepted(Linear, maxAttempts, delay, last);
    }
  }

  lemma ConstantAcceptedIff(maxAttempts: nat, delay: real, rolls: nat -> real)
    requires delay > 0.0 && maxAttempts > 1
    ensures AllAccepted(Constant, maxAttempts, delay, rolls) <==> delay <= 3600000.0
  {
    TriangleAbove(maxAttempts);
    Scale(delay, 1.0, Triangle(maxAttempts) as real);
    assert Wait(Constant, 1, delay, rolls(1)) == delay;
  }

  /** Jitter stays below Linear, whatever the rolls. */
  lemma JitterAccepted(maxAttempts: nat, delay: real, rolls: nat -> real)
    requires delay > 0.0 && delay * maxAttempts as real <= 3600000.0
    requires forall a :: 0.0 <= rolls(a) < 1.0
    ensures AllAccepted(Jitter, maxAttempts, delay, rolls)
  {
    if maxAttempts > 1 {
      LinearAcceptedIff(maxAttempts, delay, rolls);
      forall a | 1 <= a < maxAttempts ensures Accepted(Jitter, maxAttempts, delay, Wait(Jitter, a, delay, rolls(a))) {
        assert Accepted(Linear, maxAttempts, delay, Wait(Linear, a, delay, rolls(a)));
        JitterBelowLinear(a, delay, rolls(a));
      }
    }
  }

  lemma JitterBelowLinear(a: nat, delay: real, roll: real)
    requires delay > 0.0 && 0.0 <= roll < 1.0
    ensures 0.0 < Wait(Jitter, a, delay, roll) <= Wait(Linear, a, delay, roll)
  {
    var n := a as real;
    Shrink(roll, n);
    Scale(delay, roll * n, n);
    Scale(delay, 0.0, roll * n);
  }

  lemma Shrink(roll: real, n: real)
    requires 0.0 <= roll < 1.0 && n >= 0.0
    ensures 0.0 <= roll * n <= n
  {
  }

  /** From five attempts on the last exponential wait outgrows the ceiling. */
  lemma {:induction false} PowerBeatsTriangle(n: nat)
    requires n >= 5
    ensures Pow2(n - 1) > Triangle(n) && Pow2(n - 1) > n + 1
  {
    if n == 5 {
      assert Pow2(4) == 2 * Pow2(3) && Pow2(3) == 2 * Pow2(2) && Pow2(2) == 4;
      assert Triangle(5) == Triangle(4) + 5 && Triangle(4) == Triangle(3) + 4 && Triangle(3) == 6;
    } else {
      PowerBeatsTriangle(n - 1);
    }
  }

  lemma {:induction false} PowersGrow(a: nat, b: nat)
    requires a <= b
    ensures 1 <= Pow2(a) <= Pow2(b)
  {
    if a < b {
      PowersGrow(a, b - 1);
    } else if a > 0 {
      PowersGrow(a - 1, a - 1);
    }
  }

  lemma SmallPowers(n: nat)
    requires 1 < n <= 4
    ensures Pow2(n - 1) <= Triangle(n)
  {
    assert Pow2(1) == 2 && Pow2(2) == 4 && Pow2(3) == 8;
    assert Triangle(2) == 3 && Triangle(3) == 6 && Triangle(4) == 10;
  }

  /** Exponential waits are all accepted exactly for at most four attempts with the last wait within the hour. */
  lemma ExponentialAcceptedIff(maxAttempts: nat, delay: real, rolls: nat -> real)
    requires delay > 0.0 && maxAttempts > 1
    ensures AllAccepted(Exponential, maxAttempts, delay, rolls)
       <==> maxAttempts <= 4 && delay * Pow2(maxAttempts - 1) as real <= 3600000.0
  {
    var n := maxAttempts;
    if n > 4 || delay * Pow2(n - 1) as real > MAX_DURATION {
      ExponentialLastFits(n, delay, rolls(n - 1), Pow2(n - 1));
    } else {
      SmallPowers(n);
      Scale(delay, Pow2(n - 1) as real, Triangle(n) as real);
      forall a | 1 <= a < n ensures Accepted(Exponential, n, delay, Wait(Exponential, a, delay, rolls(a))) {
        PowersGrow(a, n - 1);
        Scale(delay, Pow2(a) as real, Pow2(n - 1) as real);
        Scale(delay, 1.0, Pow2(a) as real);
      }
    }
  }

  /** More delays than the triangle, or over an hour: refused in every mode. */
  lemma OverCeiling(mode: Mode, n: nat, delay: real, count: nat, triangle: nat)
    requires delay > 0.0 && triangle == Triangle(n)
    requires count > triangle || delay * count as real > MAX_DURATION
    ensures !Accepted(mode, n, delay, delay * count as real)
  {
    if count > triangle {
      ScaleStrictly(delay, triangle as real, count as real);
    }
  }

  /** The last wait alone decides: from five attempts on it is over the ceiling, before that only over an hour. */
  lemma ExponentialLastFits(n: nat, delay: real, roll: real, power: nat)
    requires delay > 0.0 && n > 1 && power == Pow2(n - 1) && (n > 4 || delay * power as real > MAX_DURATION)
    ensures !Accepted(Exponential, n, delay, Wait(Exponential, n - 1, delay, roll))
  {
    if n > 4 {
      PowerBeatsTriangle(n);
    }
    assert Wait(Exponential, n - 1, delay, roll) == delay * power as real;
    OverCeiling(Exponential, n, delay, power, Triangle(n));
  }

  /** Immediate retries wait for nothing, and every such wait is accepted. */
  lemma ImmediateAccepted(maxAttempts: nat, delay: real, rolls: nat -> real)
    requires delay >= 0.0
    ensures AllAccepted(Immediate, maxAttempts, delay, rolls)
    ensures forall a: nat, roll :: Wait(Immediate, a, delay, roll) == 0.0
  {
    assert delay * Triangle(maxAttempts) as real >= 0.0;
  }

  /** In every other mode a wait of zero or less is refused, so a delay of zero or less fails at once. */
  lemma NonPositiveRefused(mode: Mode, maxAttempts: nat, delay: real, wait: real)
    requires mode != Immediate && wait <= 0.0
    ensures !Accepted(mode, maxAttempts, delay, wait)
  {
  }

  /** Jitter waits lie between Constant's and Linear's, as far along as the roll says. */
  lemma JitterInterpolates(a: nat, delay: real, roll: real)
    ensures Wait(Jitter, a, delay, roll) - Wait(Constant, a, delay, roll)
         == roll * (Wait(Linear, a, delay, roll) - Wait(Constant, a, delay, roll))
  {
    var n := a as real;
    assert roll * n * delay == roll * (n * delay);
  }

  /** Each exponential wait doubles the one before, starting from the delay. */
  lemma ExponentialDoubles(a: nat, delay: real, roll: real)
    ensures Wait(Exponential, 0, delay, roll) == delay
    ensures Wait(Exponential, a + 1, delay, roll) == 2.0 * Wait(Exponential, a, delay, roll)
  {
    var p := Pow2(a) as real;
    assert Pow2(a + 1) as real == 2.0 * p;
    assert delay * (2.0 * p) == 2.0 * (delay * p);
  }

  // ---------------------------------------------------------------- the loop

  /** The waits after failures 1..k. */
  function TotalWait(mode: Mode, delay: real, rolls: nat -> real, k: nat): real {
    if k == 0 then 0.0 else TotalWait(mode, delay, rolls, k - 1) + Wait(mode, k, delay, rolls(k))
  }

  lemma {:induction false} LinearTotal(delay: real, rolls: nat -> real, k: nat)
    ensures TotalWait(Linear, delay, rolls, k) == delay * (Triangle(k + 1) - 1) as real
  {
    if k > 0 {
      LinearTotal(delay, rolls, k - 1);
      assert Triangle(k + 1) == Triangle(k) + k + 1;
      assert delay * (Triangle(k + 1) - 1) as real == delay * (Triangle(k) - 1) as real + delay * (k + 1) as real;
    }
  }

  lemma {:induction false} ImmediateTotal(delay: real, rolls: nat -> real, k: nat)
    ensures TotalWait(Immediate, delay, rolls, k) == 0.0
  {
    if k > 0 {
      ImmediateTotal(delay, rolls, k - 1);
    }
  }

  datatype Result = Succeeded | BudgetExhausted | InvalidBackoff | MaxRetriesExceeded

  /**
   * on: `admitted` says whether attempt k is within the window budget (always, when there is none),
   * `succeeds` whether the function's k-th run returns.
   */
  method Retry(
    mode: Mode, maxAttempts: nat, delay: real, admitted: nat -> bool, succeeds: nat -> bool, rolls: nat -> real)
    returns (r: Result, attempts: nat, waited: real)
    ensures attempts <= maxAttempts && forall k | 0 <= k < attempts :: admitted(k) && !succeeds(k)
    ensures r == Succeeded ==> attempts < maxAttempts && admitted(attempts) && succeeds(attempts)
    ensures r == BudgetExhausted ==> attempts < maxAttempts && !admitted(attempts)
    ensures r == MaxRetriesExceeded ==> attempts == maxAttempts
    ensures r == InvalidBackoff ==>
      1 <= attempts < maxAttempts && !Accepted(mode, maxAttempts, delay, Wait(mode, attempts, delay, rolls(attempts)))
    ensures waited == TotalWait(mode, delay, rolls,
              if attempts > 0 && (r == InvalidBackoff || r == MaxRetriesExceeded) then attempts - 1 else attempts)
    ensures r == MaxRetriesExceeded ==> AllAccepted(mode, maxAttempts, delay, rolls)
    ensures AllAccepted(mode, maxAttempts, delay, rolls) ==> r != InvalidBackoff
    ensures mode == Immediate && delay >= 0.0 ==> r != InvalidBackoff && waited == 0.0
  {
    if mode == Immediate && delay >= 0.0 {
      ImmediateAccepted(maxAttempts, delay, rolls);
      forall k: nat ensures TotalWait(mode, delay, rolls, k) == 0.0 { ImmediateTotal(delay, rolls, k); }
    }
    attempts, waited := 0, 0.0;
    while attempts < maxAttempts
      invariant attempts <= maxAttempts && (attempts > 0 ==> attempts < maxAttempts)
      invariant forall k | 0 <= k < attempts :: admitted(k) && !succeeds(k)
      invariant forall a | 1 <= a <= attempts :: Accepted(mode, maxAttempts, delay, Wait(mode, a, delay, rolls(a)))
      invariant waited == TotalWait(mode, delay, rolls, attempts)
    {
      if !admitted(attempts) {
        return BudgetExhausted, attempts, waited;
      }
      if succeeds(attempts) {
        return Succeeded, attempts, waited;
      }
      attempts := attempts + 1;
      if attempts >= maxAttempts {
        return MaxRetriesExceeded, attempts, waited;
      }
      var backoff := Wait(mode, attempts, delay, rolls(attempts));
      var ok := Validate(mode, maxAttempts, delay, backoff);
      if !ok {
        return InvalidBackoff, attempts, waited;
      }
      waited := waited + backoff;
    }
    return MaxRetriesExceeded, attempts, waited;
  }
}
