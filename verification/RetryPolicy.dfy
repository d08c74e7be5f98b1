/** What the worker does with an entry whose attempt failed: back off or give up. */
module RetryPolicy {
  import opened Messages

  function Pow(base: real, exponent: nat): real {
    if exponent == 0 then 1.0 else base * Pow(base, exponent - 1)
  }

  function Exponent(attempts: u32): nat {
    var e := if attempts == 0 then 0 else attempts - 1;
    if e < 32 then e else 32
  }

  /** `delay.min(max).max(1.0) as u64` */
  function Clamp(delay: real, maxDelay: u64): (r: u64)
    ensures 1 <= r
  {
    var capped := if delay < maxDelay as real then delay else maxDelay as real;
    (if capped > 1.0 then capped else 1.0).Floor
  }

  function RawDelay(initial: u64, multiplier: real, exponent: nat): real {
    initial as real * Pow(multiplier, exponent)
  }

  /** Exponential backoff, clamped to `max_backoff_seconds`. */
  function BackoffSeconds(retry: RetryConfig, attempts: u32): u64 {
    Clamp(RawDelay(retry.initialBackoffSeconds, retry.backoffMultiplier, Exponent(attempts)), retry.maxBackoffSeconds)
  }

  lemma {:induction false} PowGrows(base: real, a: nat, b: nat)
    requires base >= 1.0 && a <= b
    ensures 1.0 <= Pow(base, a) <= Pow(base, b)
    decreases a + b
  {
    if b == 0 {
    } else {
      if a == b {
        PowGrows(base, a - 1, b - 1);
        Scale(base, 1.0, Pow(base, a - 1));
      } else {
        PowGrows(base, a, b - 1);
        Scale(Pow(base, b - 1), 1.0, base);
      }
    }
  }

  lemma Scale(factor: real, a: real, b: real)
    requires factor >= 0.0 && a <= b
    ensures factor * a <= factor * b
  {
  }

  lemma RawDelayGrows(initial: u64, multiplier: real, i: nat, j: nat)
    requires multiplier >= 1.0 && i <= j
    ensures RawDelay(initial, multiplier, i) <= RawDelay(initial, multiplier, j)
  {
    PowGrows(multiplier, i, j);
    Scale(initial as real, Pow(multiplier, i), Pow(multiplier, j));
  }

  lemma ClampGrows(a: real, b: real, maxDelay: u64)
    requires a <= b
    ensures Clamp(a, maxDelay) <= Clamp(b, maxDelay)
  {
  }

  /** The delay never shrinks as attempts go on, stays within its bounds, and stops growing at the 33rd. */
  lemma BackoffIsMonotone(retry: RetryConfig, a: u32, b: u32)
    requires retry.backoffMultiplier >= 1.0 && a <= b
    ensures 1 <= BackoffSeconds(retry, a) <= BackoffSeconds(retry, b)
    ensures BackoffSeconds(retry, b) <= if retry.maxBackoffSeconds > 1 then retry.maxBackoffSeconds else 1
    ensures a >= 33 ==> BackoffSeconds(retry, a) == BackoffSeconds(retry, b)
  {
    RawDelayGrows(retry.initialBackoffSeconds, retry.backoffMultiplier, Exponent(a), Exponent(b));
    ClampGrows(RawDelay(retry.initialBackoffSeconds, retry.backoffMultiplier, Exponent(a)),
               RawDelay(retry.initialBackoffSeconds, retry.backoffMultiplier, Exponent(b)), retry.maxBackoffSeconds);
  }

  // ----- the delay, said outright -----

  /** `base` to the power `n`. */
  function Power(base: real, n: nat): real {
    if n == 0 then 1.0 else Power(base, n - 1) * base
  }

  lemma {:induction false} PowIsPower(base: real, n: nat)
    ensures Pow(base, n) == Power(base, n)
  {
    if n == 0 {
    } else if n == 1 {
      assert Pow(base, 0) == 1.0 == Power(base, 0);
    } else {
      PowIsPower(base, n - 1);
      PowIsPower(base, n - 2);
      Reassociate(base, Power(base, n - 2));
    }
  }

  lemma Reassociate(a: real, p: real)
    ensures a * (p * a) == (a * p) * a
  {
  }

  /**
    The delay before attempt `a + 1`: the initial one times the multiplier to the power
    of the failures before this one, at most 32, in whole seconds, never under one and
    never over the ceiling, be it zero.
  */
  lemma BackoffValue(retry: RetryConfig, a: u32)
    ensures var power := if a == 0 then 0 else if a <= 33 then a - 1 else 32;
            Capped(retry.initialBackoffSeconds as real * Power(retry.backoffMultiplier, power),
                   retry.maxBackoffSeconds, BackoffSeconds(retry, a))
  {
    var power := if a == 0 then 0 else if a <= 33 then a - 1 else 32;
    assert Exponent(a) == power;
    DelayIs(retry.initialBackoffSeconds, retry.backoffMultiplier, power);
    ClampCaps(RawDelay(retry.initialBackoffSeconds, retry.backoffMultiplier, power), retry.maxBackoffSeconds);
  }

  lemma DelayIs(initial: u64, multiplier: real, power: nat)
    ensures RawDelay(initial, multiplier, power) == initial as real * Power(multiplier, power)
  {
    PowIsPower(multiplier, power);
  }

  /** `r` is `exact` in whole seconds, brought between one and `ceiling`. */
  predicate Capped(exact: real, ceiling: u64, r: u64) {
    && (exact < 1.0 || ceiling == 0 ==> r == 1)
    && (1.0 <= exact <= ceiling as real ==> r as real <= exact < r as real + 1.0)
    && (exact >= ceiling as real && ceiling >= 1 ==> r == ceiling)
  }

  lemma ClampCaps(exact: real, ceiling: u64)
    ensures Capped(exact, ceiling, Clamp(exact, ceiling))
  {
  }

  function WholePower(m: nat, n: nat): nat {
    if n == 0 then 1 else WholePower(m, n - 1) * m
  }

  lemma {:induction false} PowerOfWhole(m: nat, n: nat)
    ensures Power(m as real, n) == WholePower(m, n) as real
  {
    if n == 0 {
    } else {
      PowerOfWhole(m, n - 1);
      WholeProduct(WholePower(m, n - 1), m);
    }
  }

  lemma WholeProduct(a: nat, b: nat)
    ensures a as real * b as real == (a * b) as real
  {
  }

  /** With a whole multiplier the delays are whole: each is the one before times it, up to the ceiling. */
  lemma BackoffMultiplies(retry: RetryConfig, m: nat, a: u32)
    requires retry.backoffMultiplier == m as real && m >= 1
    requires retry.initialBackoffSeconds >= 1 && retry.maxBackoffSeconds >= 1 && 1 <= a <= 32
    ensures BackoffSeconds(retry, 1)
         == if retry.initialBackoffSeconds < retry.maxBackoffSeconds then retry.initialBackoffSeconds
            else retry.maxBackoffSeconds
    ensures var next := m * BackoffSeconds(retry, a);
            BackoffSeconds(retry, a + 1) == if next <= retry.maxBackoffSeconds then next else retry.maxBackoffSeconds
  {
    WholeBackoff(retry, m, 1);
    WholeBackoff(retry, m, a);
    WholeBackoff(retry, m, a + 1);
    var d := retry.initialBackoffSeconds * WholePower(m, a - 1);
    MultiplyOut(retry.initialBackoffSeconds, WholePower(m, a - 1), m);
    Stretch(m, d, retry.maxBackoffSeconds);
  }

  lemma MultiplyOut(a: nat, p: nat, m: nat)
    ensures a * (p * m) == m * (a * p)
  {
  }

  lemma Stretch(m: nat, d: nat, ceiling: nat)
    requires m >= 1
    ensures d >= ceiling ==> m * d >= ceiling && m * ceiling >= ceiling
  {
  }

  lemma {:induction false} WholePowerPositive(m: nat, n: nat)
    requires m >= 1
    ensures WholePower(m, n) >= 1
  {
    if n == 0 {
    } else {
      WholePowerPositive(m, n - 1);
    }
  }

  lemma WholeBackoff(retry: RetryConfig, m: nat, a: u32)
    requires retry.backoffMultiplier == m as real && m >= 1
    requires retry.initialBackoffSeconds >= 1 && retry.maxBackoffSeconds >= 1 && 1 <= a <= 33
    ensures var d := retry.initialBackoffSeconds * WholePower(m, a - 1);
            BackoffSeconds(retry, a) == if d < retry.maxBackoffSeconds then d else retry.maxBackoffSeconds
  {
    var p := WholePower(m, a - 1);
    BackoffValue(retry, a);
    PowerOfWhole(m, a - 1);
    WholeProduct(retry.initialBackoffSeconds, p);
    WholePowerPositive(m, a - 1);
    AtLeastOne(retry.initialBackoffSeconds, p);
  }

  lemma AtLeastOne(a: nat, b: nat)
    requires a >= 1 && b >= 1
    ensures a * b >= 1
  {
  }

  datatype Verdict = GiveUp(dead: QueueEntry) | Retry(entry: QueueEntry, delay: u64)

  function FailedOnce(e: QueueEntry, error: SendError): QueueEntry {
    e.(attempts := NextAttempts(e.attempts), lastError := Some(FromTelegram(error)))
  }

  /** The decision of `handle_failure`, at clock reading `now`. */
  function Decide(retry: RetryConfig, e: QueueEntry, error: SendError, now: u64): Verdict {
    var failed := FailedOnce(e, error);
    var exhausted := retry.maxAttempts > 0 && failed.attempts >= retry.maxAttempts;
    if !error.IsRetryable() || exhausted then GiveUp(failed)
    else
      var asked := error.RetryAfter();
      var delay := if asked.Some? then asked.value else BackoffSeconds(retry, failed.attempts);
      Retry(failed.(nextAttemptAt := WrappingAdd(now, delay)), delay)
  }

  /** This was the last attempt the limit allows; the counter wraps around at 2^32. */
  predicate LimitReached(retry: RetryConfig, e: QueueEntry) {
    retry.maxAttempts > 0 && (e.attempts + 1) % 0x1_0000_0000 >= retry.maxAttempts
  }

  /** `next` is `e` with one more failure counted, due when Telegram asked, or else after the backoff. */
  predicate PutOff(retry: RetryConfig, e: QueueEntry, error: SendError, now: u64, next: QueueEntry) {
    && next.attempts == (e.attempts + 1) % 0x1_0000_0000 && next.lastError == Some(FromTelegram(error))
    && next.id == e.id && next.createdAt == e.createdAt && next.priority == e.priority && next.message == e.message
    && next.nextAttemptAt == (now + match error
                                    case RateLimited(seconds, _) => seconds
                                    case _ => BackoffSeconds(retry, next.attempts)) % 0x1_0000_0000_0000_0000
  }

  /** What becomes of a failed entry, error by error. */
  lemma DecideByError(retry: RetryConfig, e: QueueEntry, error: SendError, now: u64)
    ensures var verdict := Decide(retry, e, error, now);
            var count := (e.attempts + 1) % 0x1_0000_0000;
            && (verdict.GiveUp? <==> error.Permanent? || LimitReached(retry, e))
            && (verdict.GiveUp? ==>
                  verdict.dead == e.(attempts := count, lastError := Some(FromTelegram(error))))
            && (verdict.Retry? ==>
                  && PutOff(retry, e, error, now, verdict.entry)
                  && verdict.entry.nextAttemptAt == (now + verdict.delay) % 0x1_0000_0000_0000_0000)
  {
  }

  /** Attempts an entry may still cost: its share of the drain's termination measure. */
  function Budget(retry: RetryConfig, e: QueueEntry): nat {
    if e.attempts < retry.maxAttempts then retry.maxAttempts - e.attempts else 1
  }

  /**
    With a limit set, a failed attempt always spends one unit of the budget or ends
    the entry; the one exception is an attempt counter about to wrap around.
  */
  lemma FailureSpendsBudget(retry: RetryConfig, e: QueueEntry, error: SendError, now: u64)
    requires retry.maxAttempts > 0 && error.IsRetryable()
    ensures (match Decide(retry, e, error, now)
             case GiveUp(dead) => Budget(retry, e) == 1 && dead.SameMessage(e)
             case Retry(next, _) => Budget(retry, next) == Budget(retry, e) - 1 && next.SameMessage(e))
            <==> e.attempts < U32_LIMIT - 1
  {
  }

  // ----- failures in a row -----

  datatype Failure = Failure(error: SendError, now: u64)

  /** What is left of an entry whose next attempts fail like this, or `None` once it is given up. */
  function AfterFailures(retry: RetryConfig, e: QueueEntry, failures: seq<Failure>): Option<QueueEntry>
    decreases |failures|
  {
    if failures == [] then Some(e)
    else
      match Decide(retry, e, failures[0].error, failures[0].now)
      case GiveUp(_) => None
      case Retry(next, _) => AfterFailures(retry, next, failures[1..])
  }

  ghost predicate NonePermanent(failures: seq<Failure>) {
    forall i :: 0 <= i < |failures| ==> !failures[i].error.Permanent?
  }

  /**
    How long an entry lives: it outlasts a row of failures exactly when none of them is
    permanent and its attempts stay under the limit, or none is set.
  */
  lemma {:induction false} OutlastsExactly(retry: RetryConfig, e: QueueEntry, failures: seq<Failure>)
    requires e.attempts + |failures| < U32_LIMIT
    ensures AfterFailures(retry, e, failures).Some? <==>
              failures == [] || (NonePermanent(failures)
                                 && (retry.maxAttempts == 0 || e.attempts + |failures| < retry.maxAttempts))
    ensures var left := AfterFailures(retry, e, failures);
            left.Some? ==> left.value.SameMessage(e) && left.value.attempts == e.attempts + |failures|
    decreases |failures|
  {
    if failures == [] {
    } else {
      var rest := failures[1..];
      assert NonePermanent(failures) <==> !failures[0].error.Permanent? && NonePermanent(rest) by {
        assert forall i :: 0 < i < |failures| ==> failures[i] == rest[i - 1];
      }
      DecideByError(retry, e, failures[0].error, failures[0].now);
      var decision := Decide(retry, e, failures[0].error, failures[0].now);
      if decision.Retry? {
        OutlastsExactly(retry, decision.entry, rest);
      }
    }
  }
}
