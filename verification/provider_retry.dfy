/** Provider errors and the bounded retry loop around one provider operation. */
module ProviderRetry {
  import opened Prelude

  datatype Category = Timeout | RateLimit | Authentication | InvalidRequest | Unavailable | ProviderFault

  datatype Error =
    | ProviderError(category: Category, retryable: bool, statusCode: Option<int>)
    | OtherError

  const RetryAborted := ProviderError(Timeout, false, None)
  const CircuitOpenError := ProviderError(Unavailable, true, Some(503))

  predicate ShouldRetry(e: Error) {
    && e.ProviderError? && e.retryable
    && !e.category.Authentication? && !e.category.InvalidRequest?
    && (|| e.category.Timeout? || e.category.RateLimit? || e.statusCode == Some(429) || e.category.Unavailable?
        || (e.category.ProviderFault? && e.statusCode.Some? && e.statusCode.value in {500, 502, 503, 504}))
  }

  /** The errors that are worth another attempt, by category and status code. */
  predicate Transient(e: Error) {
    e.ProviderError? && e.retryable
    && match e.category
       case Authentication => false
       case InvalidRequest => false
       case ProviderFault => e.statusCode in {Some(429), Some(500), Some(502), Some(503), Some(504)}
       case _ => true
  }

  lemma ShouldRetryIsTransient(e: Error)
    ensures ShouldRetry(e) <==> Transient(e)
  {
  }

  datatype RetryPolicy = RetryPolicy(maxAttempts: int, baseDelayMs: int, maxDelayMs: int, maxJitterMs: int)
  {
    predicate Valid() { maxAttempts >= 1 && 0 <= baseDelayMs <= maxDelayMs && 0 <= maxJitterMs }

    /** How many operations the loop may begin: an invalid policy is refused before the first. */
    function MaxOps(): nat { if Valid() then maxAttempts else 0 }

    /** The longest one wait can be. */
    function MaxWait(): nat { if Valid() then maxDelayMs + maxJitterMs else 0 }
  }

  /** A jitter source may return anything, including values that are not finite. */
  datatype Jitter = Finite(value: real) | NotFinite

  function Pow2(n: nat): nat { if n == 0 then 1 else 2 * Pow2(n - 1) }

  function Min(a: int, b: int): int { if a <= b then a else b }

  function ClampJitter(j: Jitter, max: int): int {
    if j.NotFinite? then 0
    else if Min(j.value.Floor, max) < 0 then 0 else Min(j.value.Floor, max)
  }

  /** Capped exponential backoff plus clamped jitter. */
  function RetryDelay(failedAttempt: int, p: RetryPolicy, j: Jitter): (d: int)
    requires p.Valid() && failedAttempt >= 1
    ensures p.baseDelayMs <= d <= p.maxDelayMs + p.maxJitterMs
  {
    PowAtLeastOne(failedAttempt - 1);
    ScaleUp(p.baseDelayMs, Pow2(failedAttempt - 1));
    Min(p.baseDelayMs * Pow2(failedAttempt - 1), p.maxDelayMs) + ClampJitter(j, p.maxJitterMs)
  }

  lemma {:induction false} PowAtLeastOne(n: nat)
    ensures Pow2(n) >= 1
  {
    if n > 0 { PowAtLeastOne(n - 1); }
  }

  lemma ScaleUp(x: int, k: int)
    requires x >= 0 && k >= 1
    ensures x * k >= x
  {
  }

  lemma {:induction false} DelaysDoNotShrink(p: RetryPolicy, a: int, b: int, j: Jitter)
    requires p.Valid() && 1 <= a <= b
    ensures RetryDelay(a, p, j) <= RetryDelay(b, p, j)
    decreases b - a
  {
    if a < b {
      DelaysDoNotShrink(p, a, b - 1, j);
      assert p.baseDelayMs * Pow2(b - 1) == 2 * (p.baseDelayMs * Pow2(b - 2));
      PowAtLeastOne(b - 2);
      ScaleUp(p.baseDelayMs, Pow2(b - 2));
    }
  }

  function JitterPart(j: Jitter, max: int): int
    requires max >= 0
  {
    if j.NotFinite? || j.value < 0.0 then 0 else if j.value >= max as real then max else j.value.Floor
  }

  /** Without jitter the first wait is the base delay, and each further one is twice the one before, up to the cap;
      finite jitter adds its whole part, kept between nothing and its own cap. */
  lemma DelayRule(n: nat, p: RetryPolicy, j: Jitter)
    requires p.Valid() && n >= 1
    ensures RetryDelay(1, p, NotFinite) == p.baseDelayMs
    ensures RetryDelay(n + 1, p, NotFinite) == Min(2 * RetryDelay(n, p, NotFinite), p.maxDelayMs)
    ensures RetryDelay(n, p, j) == RetryDelay(n, p, NotFinite) + JitterPart(j, p.maxJitterMs)
  {
    assert p.baseDelayMs * Pow2(n) == 2 * (p.baseDelayMs * Pow2(n - 1));
    assert p.baseDelayMs * Pow2(0) == p.baseDelayMs;
  }

  datatype Outcome<+T> = Returns(value: T) | Throws(error: Error) | CircuitOpen

  function ErrorOf<T>(o: Outcome<T>): Error
    requires !o.Returns?
  {
    if o.CircuitOpen? then CircuitOpenError else o.error
  }

  /** What the surroundings do: attempt outcomes, jitter, sleeps that reject, and the tick from which on the
      abort signal reads as aborted.  Each look at the signal takes one tick. */
  datatype RetryEnv<!T> = RetryEnv(attempts: nat -> Outcome<T>, jitter: nat -> Jitter, sleepRejects: nat -> bool,
      abortFrom: nat)

  datatype Result<+T> = Success(value: T) | Failure(error: Error)

  /** Every attempt before `n` failed in a way worth retrying. */
  ghost predicate RetriedUpTo<T>(env: RetryEnv<T>, n: nat) {
    forall k :: 1 <= k < n ==> !env.attempts(k).Returns? && Transient(ErrorOf(env.attempts(k)))
  }

  /** The n-th operation begins: there are attempts left, all before it failed in a way worth retrying, every wait
      between them was slept through, and the signal did not read as aborted up to here. */
  ghost predicate Begins<T>(p: RetryPolicy, env: RetryEnv<T>, start: nat, n: nat) {
    && 1 <= n <= p.maxAttempts && RetriedUpTo(env, n)
    && (forall k :: 1 <= k < n ==> !env.sleepRejects(k))
    && start + 3 * (n - 1) < env.abortFrom
  }

  /** Just these operations begin. */
  ghost predicate BeginsExactly<T>(p: RetryPolicy, env: RetryEnv<T>, start: nat, ops: nat) {
    if p.Valid() then forall n: nat :: n >= 1 ==> (Begins(p, env, start, n) <==> n <= ops) else ops == 0
  }

  /** The last operation's outcome is final. */
  predicate Settles<T>(p: RetryPolicy, env: RetryEnv<T>, ops: nat) {
    ops >= 1 && (env.attempts(ops).Returns? || ops == p.maxAttempts || !Transient(ErrorOf(env.attempts(ops))))
  }

  /** What the operations that began lead to. */
  function Verdict<T>(p: RetryPolicy, env: RetryEnv<T>, ops: nat): Result<T> {
    if !p.Valid() then Failure(OtherError)
    else if !Settles(p, env, ops) then Failure(RetryAborted)
    else match env.attempts(ops)
         case Returns(value) => Success(value)
         case Throws(error) => Failure(error)
         case CircuitOpen => Failure(CircuitOpenError)
  }

  /** The n-th operation is followed by a wait. */
  ghost predicate Waits<T>(p: RetryPolicy, env: RetryEnv<T>, start: nat, n: nat) {
    && Begins(p, env, start, n) && !Settles(p, env, n) && start + 3 * (n - 1) + 1 < env.abortFrom
  }

  function Waited<T>(p: RetryPolicy, env: RetryEnv<T>, waits: nat): int
    requires p.Valid()
  {
    if waits == 0 then 0 else Waited(p, env, waits - 1) + RetryDelay(waits, p, env.jitter(waits))
  }

  lemma {:induction false} WaitedBounds<T>(p: RetryPolicy, env: RetryEnv<T>, waits: nat)
    requires p.Valid()
    ensures 0 <= Waited(p, env, waits) <= Times(waits, p.MaxWait())
  {
    if waits > 0 { WaitedBounds(p, env, waits - 1); }
  }

  /** Runs the operation until it succeeds, fails for good, runs out of attempts, or is aborted.
      `ops` counts operations begun and `waits` the waits between them. */
  method RetryProviderOperation<T>(p: RetryPolicy, env: RetryEnv<T>, startTick: nat)
    returns (r: Result<T>, ops: nat, totalDelay: int, tick: nat, ghost waits: nat)
    ensures BeginsExactly(p, env, startTick, ops)
    ensures r == Verdict(p, env, ops)
    ensures p.Valid() ==> forall n: nat :: n >= 1 ==> (Waits(p, env, startTick, n) <==> n <= waits)
    ensures totalDelay == if p.Valid() then Waited(p, env, waits) else 0
    ensures ops == 0 <==>
              || p.maxAttempts < 1 || p.baseDelayMs < 0 || p.maxDelayMs < p.baseDelayMs || p.maxJitterMs < 0
              || startTick >= env.abortFrom
    ensures ops <= p.MaxOps() && waits <= ops && (p.Valid() ==> waits < p.maxAttempts)
    ensures 0 <= totalDelay <= Times(waits, p.MaxWait())
    ensures startTick <= tick <= startTick + 3 * ops + 1
    ensures p.Valid() && !Settles(p, env, ops) ==> tick > env.abortFrom || (ops >= 1 && env.sleepRejects(ops))
  {
    ops, totalDelay, tick, waits := 0, 0, startTick, 0;
    if !p.Valid() { return Failure(OtherError), ops, totalDelay, tick, waits; }
    while true
      invariant 0 <= ops < p.maxAttempts && tick == startTick + 3 * ops && waits == ops
      invariant RetriedUpTo(env, ops + 1) && !Settles(p, env, ops)
      invariant forall k :: 1 <= k <= ops ==> !env.sleepRejects(k)
      invariant ops >= 1 ==> tick - 1 < env.abortFrom
      invariant totalDelay == Waited(p, env, waits)
      decreases p.maxAttempts - ops
    {
      WaitedBounds(p, env, waits);
      if tick >= env.abortFrom { return Failure(RetryAborted), ops, totalDelay, tick + 1, waits; }
      tick := tick + 1;
      ops := ops + 1;
      var outcome := env.attempts(ops);
      if outcome.Returns? { return Success(outcome.value), ops, totalDelay, tick, waits; }
      var error := ErrorOf(outcome);
      ShouldRetryIsTransient(error);
      if !ShouldRetry(error) { return Failure(error), ops, totalDelay, tick, waits; }
      if ops >= p.maxAttempts { return Failure(error), ops, totalDelay, tick, waits; }
      var delay := RetryDelay(ops, p, env.jitter(ops));
      if tick >= env.abortFrom { return Failure(RetryAborted), ops, totalDelay, tick + 1, waits; }
      tick := tick + 1;
      totalDelay := totalDelay + delay;
      waits := waits + 1;
      WaitedBounds(p, env, waits);
      if env.sleepRejects(ops) { return Failure(RetryAborted), ops, totalDelay, tick, waits; }
      if tick >= env.abortFrom { return Failure(RetryAborted), ops, totalDelay, tick + 1, waits; }
      tick := tick + 1;
    }
  }

  /** `n * k`, by repeated addition. */
  function Times(n: nat, k: int): int { if n == 0 then 0 else Times(n - 1, k) + k }

  lemma {:induction false} TimesGrows(a: nat, b: nat, k: int)
    requires a <= b && k >= 0
    ensures 0 <= Times(a, k) <= Times(b, k)
  {
    if b > 0 {
      if a < b { TimesGrows(a, b - 1, k); } else { TimesGrows(a - 1, b - 1, k); }
    }
  }

  lemma {:induction false} TimesIsProduct(n: nat, k: int)
    ensures Times(n, k) == n * k
  {
    if n > 0 {
      TimesIsProduct(n - 1, k);
      assert (n - 1) * k + k == n * k;
    }
  }
}
