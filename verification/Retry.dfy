/** Bounded retries with exponential backoff. */
module Retry {
  import opened Wrappers

  datatype RetryPolicy = RetryPolicy(maxAttempts: int, baseDelay: real, maxDelay: real, backoffFactor: real)

  /** One call of the retried function: a value, a transport error, or any other exception. */
  datatype Attempt<T, E> = Done(value: T) | Failed(error: E) | Raised(error: E)

  /** `DeliveryFailed` carries the last transport error; there is none when no call was allowed. */
  datatype Outcome<T, E> = Returned(value: T) | DeliveryFailed(cause: Option<E>) | Propagated(error: E)

  function Pow(x: real, n: nat): real {
    if n == 0 then 1.0 else x * Pow(x, n - 1)
  }

  function Term(base: real, f: real, n: nat): real {
    base * Pow(f, n)
  }

  /** The pause after attempt number `attempt`. */
  function DelayFor(p: RetryPolicy, attempt: nat): real
    requires attempt >= 1
  {
    Min(Term(p.baseDelay, p.backoffFactor, attempt - 1), p.maxDelay)
  }

  /** The attempt, counted from `k`, at which calling stops. */
  function LastCall<T, E>(f: nat -> Attempt<T, E>, k: nat, maxAttempts: int): nat
    decreases maxAttempts - k
  {
    if k >= maxAttempts || !f(k).Failed? then k else LastCall(f, k + 1, maxAttempts)
  }

  /** How many calls are made in all. */
  function Calls<T, E>(f: nat -> Attempt<T, E>, maxAttempts: int): nat {
    if maxAttempts <= 0 then 0 else LastCall(f, 1, maxAttempts)
  }

  function OutcomeOf<T, E>(f: nat -> Attempt<T, E>, calls: nat): Outcome<T, E> {
    if calls == 0 then DeliveryFailed(None)
    else
      match f(calls)
      case Done(v) => Returned(v)
      case Failed(e) => DeliveryFailed(Some(e))
      case Raised(e) => Propagated(e)
  }

  function Retried<T, E>(f: nat -> Attempt<T, E>, maxAttempts: int): Outcome<T, E> {
    OutcomeOf(f, Calls(f, maxAttempts))
  }

  function Schedule(p: RetryPolicy, n: nat): (delays: seq<real>) {
    seq(n, i requires 0 <= i => DelayFor(p, i + 1))
  }

  /** `f(k)` is what the k-th call does; `sleeps` are the pauses, in order. */
  method RetryCall<T, E>(f: nat -> Attempt<T, E>, p: RetryPolicy)
      returns (outcome: Outcome<T, E>, calls: nat, sleeps: seq<real>)
    ensures calls == Calls(f, p.maxAttempts)
    ensures outcome == OutcomeOf(f, calls)
    ensures sleeps == Schedule(p, if calls == 0 then 0 else calls - 1)
  {
    var lastError: Option<E> := None;
    calls, sleeps := 0, [];
    var attempt := 1;
    while attempt <= p.maxAttempts
      invariant calls == attempt - 1 && sleeps == Schedule(p, calls)
      invariant p.maxAttempts <= 0 ==> attempt == 1
      invariant calls == 0 ==> lastError == None
      invariant p.maxAttempts >= 1 ==>
                  attempt <= p.maxAttempts && Calls(f, p.maxAttempts) == LastCall(f, attempt, p.maxAttempts)
    {
      calls := attempt;
      match f(attempt) {
        case Done(v) => return Returned(v), calls, sleeps;
        case Raised(e) => return Propagated(e), calls, sleeps;
        case Failed(e) =>
          lastError := Some(e);
          if attempt >= p.maxAttempts { break; }
          sleeps := sleeps + [DelayFor(p, attempt)];
      }
      attempt := attempt + 1;
    }
    outcome := DeliveryFailed(lastError);
  }

  /** What the pauses would be without the cap: the base, then every time the factor times the one before. */
  function Uncapped(p: RetryPolicy, attempt: nat): real
    requires attempt >= 1
  {
    if attempt == 1 then p.baseDelay else p.backoffFactor * Uncapped(p, attempt - 1)
  }

  /** Every pause is exactly the uncapped one, or the cap where that is less. */
  lemma {:induction false} PausesExactly(p: RetryPolicy, attempt: nat)
    requires attempt >= 1
    ensures DelayFor(p, attempt) == if Uncapped(p, attempt) <= p.maxDelay then Uncapped(p, attempt) else p.maxDelay
    ensures Term(p.baseDelay, p.backoffFactor, attempt - 1) == Uncapped(p, attempt)
    decreases attempt
  {
    if attempt > 1 {
      PausesExactly(p, attempt - 1);
      NextTerm(p.baseDelay, p.backoffFactor, attempt - 2);
    }
  }

  lemma NextTerm(base: real, f: real, n: nat)
    ensures Term(base, f, n + 1) == f * Term(base, f, n)
  {
    Reorder(base, f, Pow(f, n));
  }

  lemma Reorder(base: real, f: real, power: real)
    ensures base * (f * power) == f * (base * power)
  {
  }

  /** The pause after call `i + 1` of a schedule is the one due after attempt `i + 1`. */
  lemma ScheduleExactly(p: RetryPolicy, n: nat, i: nat)
    requires i < n
    ensures |Schedule(p, n)| == n
    ensures Schedule(p, n)[i] == if Uncapped(p, i + 1) <= p.maxDelay then Uncapped(p, i + 1) else p.maxDelay
  {
    PausesExactly(p, i + 1);
  }

  // ---- how many calls --------------------------------------------------------------

  lemma {:induction false} LastCallIsFirst<T, E>(f: nat -> Attempt<T, E>, k: nat, maxAttempts: int)
    requires k <= maxAttempts
    ensures var n := LastCall(f, k, maxAttempts);
            && k <= n <= maxAttempts
            && (forall i :: k <= i < n ==> f(i).Failed?)
            && (f(n).Failed? ==> n == maxAttempts)
    decreases maxAttempts - k
  {
    if k < maxAttempts && f(k).Failed? { LastCallIsFirst(f, k + 1, maxAttempts); }
  }

  /** Calling stops at the first call that is no transport error, or at the limit, whichever comes first. */
  lemma CallsExactly<T, E>(f: nat -> Attempt<T, E>, maxAttempts: int, n: nat)
    requires maxAttempts >= 1
    ensures n == Calls(f, maxAttempts)
       <==> 1 <= n <= maxAttempts && (n < maxAttempts ==> !f(n).Failed?) && forall i :: 1 <= i < n ==> f(i).Failed?
  {
    LastCallIsFirst(f, 1, maxAttempts);
    var c := Calls(f, maxAttempts);
    assert n < c ==> f(n).Failed? || n == 0;
  }

  lemma CallsBounded<T, E>(f: nat -> Attempt<T, E>, maxAttempts: int)
    ensures Calls(f, maxAttempts) == 0 || Calls(f, maxAttempts) <= maxAttempts
  {
    if maxAttempts >= 1 { LastCallIsFirst(f, 1, maxAttempts); }
  }

  /** A delivery error surfaces exactly when every allowed call is a transport error; it carries the last one. */
  lemma DeliveryErrorExactly<T, E>(f: nat -> Attempt<T, E>, maxAttempts: int)
    ensures Retried(f, maxAttempts).DeliveryFailed? <==> forall i :: 1 <= i <= maxAttempts ==> f(i).Failed?
    ensures Retried(f, maxAttempts).DeliveryFailed? && maxAttempts >= 1 ==>
              Retried(f, maxAttempts).cause == Some(f(maxAttempts).error)
  {
    if maxAttempts >= 1 {
      LastCallIsFirst(f, 1, maxAttempts);
      assert Calls(f, maxAttempts) >= 1;
    }
  }

  // ---- how long the pauses take ----------------------------------------------------

  function Sum(xs: seq<real>): real {
    if xs == [] then 0.0 else Sum(xs[..|xs| - 1]) + xs[|xs| - 1]
  }

  lemma ScheduleGrows(p: RetryPolicy, n: nat)
    ensures Sum(Schedule(p, n + 1)) == Sum(Schedule(p, n)) + DelayFor(p, n + 1)
  {
    assert Schedule(p, n + 1)[..n] == Schedule(p, n);
  }

  lemma {:induction false} CappedTotal(p: RetryPolicy, n: nat)
    ensures Sum(Schedule(p, n)) <= n as real * p.maxDelay
    decreases n
  {
    if n > 0 {
      CappedTotal(p, n - 1);
      ScheduleGrows(p, n - 1);
      assert n as real * p.maxDelay == (n - 1) as real * p.maxDelay + p.maxDelay;
    }
  }

  /** `base + base * f + ... + base * f^(n-1)`, the pauses without the cap. */
  function Geometric(base: real, f: real, n: nat): real {
    if n == 0 then 0.0 else Geometric(base, f, n - 1) + Term(base, f, n - 1)
  }

  lemma OneDelay(p: RetryPolicy, sum: real, bound: real, n: nat)
    requires n >= 1 && sum <= bound
    ensures sum + DelayFor(p, n) <= bound + Term(p.baseDelay, p.backoffFactor, n - 1)
  {
  }

  lemma {:induction false} UncappedTotal(p: RetryPolicy, n: nat)
    ensures Sum(Schedule(p, n)) <= Geometric(p.baseDelay, p.backoffFactor, n)
    decreases n
  {
    if n > 0 {
      UncappedTotal(p, n - 1);
      ScheduleGrows(p, n - 1);
      OneDelay(p, Sum(Schedule(p, n - 1)), Geometric(p.baseDelay, p.backoffFactor, n - 1), n);
    }
  }

  lemma OneMoreTerm(sum: real, f: real, base: real, power: real)
    requires sum * (f - 1.0) == base * (power - 1.0)
    ensures (sum + base * power) * (f - 1.0) == base * (f * power - 1.0)
  {
    var g, term := f - 1.0, base * power;
    assert (sum + term) * g == sum * g + term * g;
    assert base * (f * power - 1.0) == term * f - base;
  }

  lemma {:induction false} GeometricProduct(base: real, f: real, n: nat)
    ensures Geometric(base, f, n) * (f - 1.0) == base * (Pow(f, n) - 1.0)
    decreases n
  {
    if n > 0 {
      GeometricProduct(base, f, n - 1);
      OneMoreTerm(Geometric(base, f, n - 1), f, base, Pow(f, n - 1));
    }
  }

  lemma Quotient(x: real, d: real, y: real)
    requires d != 0.0 && x * d == y
    ensures x == y / d
  {
  }

  lemma GeometricClosed(base: real, f: real, n: nat)
    requires f != 1.0
    ensures Geometric(base, f, n) == base * (Pow(f, n) - 1.0) / (f - 1.0)
  {
    GeometricProduct(base, f, n);
    Quotient(Geometric(base, f, n), f - 1.0, base * (Pow(f, n) - 1.0));
  }

  /** The pause of a whole `retry_call` is within both bounds. */
  lemma TotalPause<T, E>(f: nat -> Attempt<T, E>, p: RetryPolicy, n: nat)
    requires n + 1 == Calls(f, p.maxAttempts)
    ensures n < p.maxAttempts
    ensures Sum(Schedule(p, n)) <= n as real * p.maxDelay
    ensures Sum(Schedule(p, n)) <= Geometric(p.baseDelay, p.backoffFactor, n)
  {
    if p.maxAttempts >= 1 { LastCallIsFirst(f, 1, p.maxAttempts); }
    CappedTotal(p, n);
    UncappedTotal(p, n);
  }

  /** With a non-negative base and a factor of at least one, no pause is shorter than the one before. */
  lemma PausesGrow(p: RetryPolicy, k: nat)
    requires k >= 1 && p.baseDelay >= 0.0 && p.backoffFactor >= 1.0
    ensures DelayFor(p, k) <= DelayFor(p, k + 1)
  {
    PowPositive(p.backoffFactor, k - 1);
    Scaled(p.baseDelay, Pow(p.backoffFactor, k - 1), p.backoffFactor);
  }

  lemma {:induction false} PowPositive(x: real, n: nat)
    requires x >= 1.0
    ensures Pow(x, n) >= 1.0
    decreases n
  {
    if n > 0 { PowPositive(x, n - 1); }
  }

  lemma Scaled(base: real, power: real, f: real)
    requires base >= 0.0 && power >= 1.0 && f >= 1.0
    ensures base * power <= base * (f * power)
  {
    assert power <= f * power;
  }
}
