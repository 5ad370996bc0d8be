/** Exponential backoff with jitter, and what to do after a failed send. */
module RetryPolicy {
  import opened Prelude
  import opened Jobs

  datatype Decision =
    | RetryAfter(delayMs: int)
    | RateLimit(delayMs: int)
    | PauseAuth(delayMs: int)
    | Fail

  function Pow2(n: nat): nat {
    if n == 0 then 1 else 2 * Pow2(n - 1)
  }

  // Rounds halves up, as Math.round does.
  function Round(x: real): int {
    (x + 0.5).Floor
  }

  function Exponential(attempt: int, baseMs: nat, maxMs: nat): int {
    Min(maxMs, baseMs * Pow2(Max(0, attempt - 1)))
  }

  function Jitter(ms: real, random: real): real {
    ms * (0.8 + random * 0.4)
  }

  function Jittered(ms: int, random: real): int {
    Round(Jitter(ms as real, random))
  }

  function RetryDelayMs(attempt: int, baseMs: nat, maxMs: nat, random: real): int {
    Max(100, Jittered(Exponential(attempt, baseMs, maxMs), random))
  }

  predicate Transient(errorClass: ErrorClass) {
    errorClass.TemporaryNetwork? || errorClass.ConnectionClosed? || errorClass.SessionError?
    || errorClass.UnknownTransient?
  }

  function DecideRetry(
    errorClass: ErrorClass, attempt: nat, maxAttempts: nat, baseMs: nat, maxMs: nat,
    retryAfterMs: Option<nat>, random: real): Decision
  {
    if errorClass.AuthRequired? || errorClass.LoggedOut? then
      PauseAuth(RetryDelayMs(attempt, baseMs, maxMs, random))
    else if attempt >= maxAttempts then
      Fail
    else if errorClass.RateLimited? then
      RateLimit(if retryAfterMs.Some? then retryAfterMs.value
                else RetryDelayMs(attempt, baseMs, maxMs, random))
    else if Transient(errorClass) then
      RetryAfter(RetryDelayMs(attempt, baseMs, maxMs, random))
    else
      Fail
  }

  lemma {:induction false} Pow2Grows(a: nat, b: nat)
    requires a <= b
    ensures 1 <= Pow2(a) <= Pow2(b)
  {
    if a < b {
      Pow2Grows(a, b - 1);
    } else if 0 < a {
      Pow2Grows(a - 1, a - 1);
    }
  }

  lemma RoundMonotone(x: real, y: real)
    requires x <= y
    ensures Round(x) <= Round(y)
  {
  }

  lemma JitterRange(e: real, random: real)
    requires 0.0 <= e && 0.0 <= random < 1.0
    ensures 0.8 * e <= Jitter(e, random) <= 1.2 * e
  {
    var extra := e * random;
    assert 0.0 <= extra <= e by {
      assert e * random <= e * 1.0;
    }
    assert e * (0.8 + random * 0.4) == e * 0.8 + extra * 0.4;
  }

  lemma RoundBetween(low: real, x: real, high: real)
    requires low <= x <= high
    ensures Round(low) <= Round(x) <= Round(high)
  {
  }

  lemma JitteredRange(ms: nat, random: real)
    requires 0.0 <= random < 1.0
    ensures Round(0.8 * ms as real) <= Jittered(ms, random) <= Round(1.2 * ms as real)
  {
    hide Round, Jitter;
    JitterRange(ms as real, random);
    RoundBetween(0.8 * ms as real, Jitter(ms as real, random), 1.2 * ms as real);
  }

  // Every delay lies between 100 ms and the jittered cap.
  lemma DelayWithinBounds(attempt: int, baseMs: nat, maxMs: nat, random: real)
    requires 0.0 <= random < 1.0
    ensures 100 <= RetryDelayMs(attempt, baseMs, maxMs, random)
    ensures RetryDelayMs(attempt, baseMs, maxMs, random) <= Max(100, Round(1.2 * maxMs as real))
  {
    var e := Exponential(attempt, baseMs, maxMs);
    assert 0 <= e <= maxMs;
    JitteredRange(e, random);
    RoundMonotone(1.2 * e as real, 1.2 * maxMs as real);
  }

  // While the doubled delay stays under the cap, the next delay exceeds the current
  // one whatever the two jitter draws are.
  lemma DelayStrictlyGrows(attempt: nat, baseMs: nat, maxMs: nat, now: real, later: real)
    requires 1 <= attempt && 100 <= baseMs
    requires baseMs * Pow2(attempt) <= maxMs
    requires 0.0 <= now < 1.0 && 0.0 <= later < 1.0
    ensures RetryDelayMs(attempt, baseMs, maxMs, now) < RetryDelayMs(attempt + 1, baseMs, maxMs, later)
  {
    var e := Exponential(attempt, baseMs, maxMs);
    DoublingBelowCap(attempt, baseMs, maxMs);
    JitteredRange(e, now);
    JitteredRange(2 * e, later);
    assert 1.2 * e as real + 40.0 <= 0.8 * (2 * e) as real;
    assert Round(1.2 * e as real) < Round(0.8 * (2 * e) as real);
  }

  lemma DoublingBelowCap(attempt: nat, baseMs: nat, maxMs: nat)
    requires 1 <= attempt && 100 <= baseMs
    requires baseMs * Pow2(attempt) <= maxMs
    ensures 100 <= Exponential(attempt, baseMs, maxMs)
    ensures Exponential(attempt + 1, baseMs, maxMs) == 2 * Exponential(attempt, baseMs, maxMs)
  {
    var p := Pow2(attempt - 1);
    Pow2Grows(0, attempt - 1);
    assert Pow2(attempt) == 2 * p;
    assert baseMs * Pow2(attempt) == 2 * (baseMs * p);
    assert baseMs * 1 <= baseMs * p;
  }

  // Once the doubling has passed the cap, the delay no longer depends on the attempt.
  lemma DelaySaturates(attempt: nat, later: nat, baseMs: nat, maxMs: nat, random: real)
    requires 1 <= attempt <= later
    requires maxMs <= baseMs * Pow2(attempt - 1)
    ensures RetryDelayMs(later, baseMs, maxMs, random) == RetryDelayMs(attempt, baseMs, maxMs, random)
  {
    Pow2Grows(attempt - 1, later - 1);
    assert baseMs * Pow2(attempt - 1) <= baseMs * Pow2(later - 1);
  }

  // The doubling has passed any cap once there were more attempts than the cap has milliseconds.
  lemma SaturationIsReached(baseMs: nat, maxMs: nat, later: nat, random: real)
    requires 1 <= baseMs && maxMs + 1 <= later
    ensures RetryDelayMs(later, baseMs, maxMs, random) == Max(100, Jittered(maxMs, random))
  {
    Pow2Exceeds(maxMs);
    Pow2Grows(maxMs, later - 1);
    assert 1 * Pow2(later - 1) <= baseMs * Pow2(later - 1);
  }

  lemma {:induction false} Pow2Exceeds(n: nat)
    ensures n < Pow2(n)
  {
    if 0 < n {
      Pow2Exceeds(n - 1);
    }
  }

  // The waiting before attempts 2..n when attempt k drew randoms[k - 1].
  function TotalDelay(randoms: seq<real>, baseMs: nat, maxMs: nat): int {
    if randoms == [] then 0
    else TotalDelay(randoms[..|randoms| - 1], baseMs, maxMs)
         + RetryDelayMs(|randoms|, baseMs, maxMs, randoms[|randoms| - 1])
  }

  lemma {:induction false} TotalDelayBounded(randoms: seq<real>, baseMs: nat, maxMs: nat)
    requires forall i :: 0 <= i < |randoms| ==> 0.0 <= randoms[i] < 1.0
    ensures 100 * |randoms| <= TotalDelay(randoms, baseMs, maxMs)
    ensures TotalDelay(randoms, baseMs, maxMs) <= |randoms| * Max(100, Round(1.2 * maxMs as real))
  {
    hide Round;
    if randoms != [] {
      var n := |randoms| - 1;
      var cap := Max(100, Round(1.2 * maxMs as real));
      TotalDelayBounded(randoms[..n], baseMs, maxMs);
      DelayWithinBounds(n + 1, baseMs, maxMs, randoms[n]);
      assert |randoms[..n]| == n;
      assert (n + 1) * cap == n * cap + cap;
    }
  }

  // The delay before the second attempt; the attempt numbers 0 and below count as the first.
  lemma FirstDelay(attempt: int, baseMs: nat, maxMs: nat, random: real)
    requires attempt <= 1
    ensures var ms := if baseMs <= maxMs then baseMs else maxMs;
      var jittered := (ms as real * (0.8 + random * 0.4) + 0.5).Floor;
      RetryDelayMs(attempt, baseMs, maxMs, random) == if jittered < 100 then 100 else jittered
  {
    assert Pow2(0) == 1;
    assert baseMs * 1 == baseMs;
  }

  // One attempt more waits as long as a doubled base would; with FirstDelay this fixes every delay.
  lemma NextDelayDoubles(attempt: nat, baseMs: nat, maxMs: nat, random: real)
    requires 1 <= attempt
    ensures RetryDelayMs(attempt + 1, baseMs, maxMs, random) == RetryDelayMs(attempt, 2 * baseMs, maxMs, random)
  {
    assert Pow2(attempt) == 2 * Pow2(attempt - 1);
    assert baseMs * (2 * Pow2(attempt - 1)) == (2 * baseMs) * Pow2(attempt - 1);
  }

  // Which failures are tried again, and after how long: authentication failures always, the others
  // only within the budget, and then exactly the rate limit and the four transient classes.
  lemma RetryOnlyWithinBudget(
    errorClass: ErrorClass, attempt: nat, maxAttempts: nat, baseMs: nat, maxMs: nat,
    retryAfterMs: Option<nat>, random: real)
    requires 0.0 <= random < 1.0
    ensures var d := DecideRetry(errorClass, attempt, maxAttempts, baseMs, maxMs, retryAfterMs, random);
      var delayMs := RetryDelayMs(attempt, baseMs, maxMs, random);
      && 100 <= delayMs <= Max(100, Round(1.2 * maxMs as real))
      && (d == PauseAuth(delayMs) <==> errorClass in {AuthRequired, LoggedOut})
      && (d == RateLimit(if retryAfterMs.Some? then retryAfterMs.value else delayMs)
          <==> errorClass.RateLimited? && attempt < maxAttempts)
      && (d == RetryAfter(delayMs) <==>
            && errorClass in {TemporaryNetwork, ConnectionClosed, SessionError, UnknownTransient}
            && attempt < maxAttempts)
      && (d.Fail? <==>
            || errorClass in {PermissionError, DestinationError, InvalidPayload, MediaError, UnknownPermanent}
            || (maxAttempts <= attempt && errorClass !in {AuthRequired, LoggedOut}))
  {
    DelayWithinBounds(attempt, baseMs, maxMs, random);
    hide RetryDelayMs, Round;
  }
}
