/** operations/price_sync.py: the adaptive rate limiter shared by the price-update
    workers, the bounded retry of one product's bulk price update, and the per-product
    step that picks the variants to update. Clocks are parameters; the limiter's sleeps
    and the retry pauses are returned as durations, without their random jitter. */
module PriceSync {
  import opened Wrappers
  import opened Strs

  // ---------------------------------------------------------------- the limiter's arithmetic

  const DefaultMaxRate: real := 2.5
  const DefaultBurstCapacity: real := 15.0
  /** The floor `handle_throttle_error` puts under the rate. */
  const RateFloor: real := 0.8
  /** The ceiling `handle_success` puts over the rate. */
  const RateCeiling: real := 2.5
  const MaxThrottleBackoff: real := 30.0

  /** `1.5 ** k` */
  function Pow15(k: nat): (r: real)
    ensures r >= 1.0
  {
    if k == 0 then 1.0 else 1.5 * Pow15(k - 1)
  }

  /** `min(30, 5 * (1.5 ** min(count, 5)))` */
  function ThrottleBackoff(count: nat): real {
    MinR(MaxThrottleBackoff, 5.0 * Pow15(Min(count, 5)))
  }

  lemma {:induction false} Pow15Monotone(j: nat, k: nat)
    requires j <= k
    ensures Pow15(j) <= Pow15(k)
    decreases k
  {
    if j < k {
      Pow15Monotone(j, k - 1);
    }
  }

  /** The backoff grows with the throttle count, lies between 5 and 30 seconds, and
      is the full 30 seconds from the fifth throttle on. */
  lemma ThrottleBackoffSpec(count: nat, later: nat)
    requires count <= later
    ensures 5.0 <= ThrottleBackoff(count) <= MaxThrottleBackoff
    ensures ThrottleBackoff(count) <= ThrottleBackoff(later)
    ensures count >= 5 ==> ThrottleBackoff(count) == MaxThrottleBackoff
    ensures count < 5 ==> ThrottleBackoff(count) < MaxThrottleBackoff
  {
    Pow15Monotone(Min(count, 5), Min(later, 5));
    assert Pow15(4) == 5.0625 by {
      assert Pow15(1) == 1.5;
      assert Pow15(2) == 2.25;
      assert Pow15(3) == 3.375;
    }
    assert Pow15(5) == 7.59375;
    if count < 5 {
      Pow15Monotone(count, 4);
    }
  }

  /** The limiter's fields: `max_rate`, `burst_capacity`, `tokens`, `last_refill`,
      `backoff_until` and `throttle_count`. */
  datatype Limiter = Limiter(
    maxRate: real,
    burstCapacity: real,
    tokens: real,
    lastRefill: real,
    backoffUntil: real,
    throttleCount: nat)

  /** What one `wait` call does: the limiter after it, the sleep honouring the backoff
      and the sleep taken for want of a token (0 when none). */
  datatype WaitStep = WaitStep(after: Limiter, backoffSleep: real, tokenSleep: real)

  /** The tokens after refilling from `last_refill` up to time `t`, capped at the burst
      capacity. */
  function Refill(l: Limiter, t: real): real {
    MinR(l.burstCapacity, l.tokens + (t - l.lastRefill) * l.maxRate)
  }

  /** `wait` called at `now`; `resumed` is the clock read after the backoff sleep,
      used only when `now` falls before `backoff_until`. */
  function WaitFor(l: Limiter, now: real, resumed: real): (s: WaitStep)
    requires l.maxRate > 0.0
    ensures s.after.maxRate == l.maxRate && s.after.burstCapacity == l.burstCapacity
    ensures s.after.backoffUntil == l.backoffUntil && s.after.throttleCount == l.throttleCount
  {
    var backedOff := now < l.backoffUntil;
    var t := if backedOff then resumed else now;
    var backoffSleep := if backedOff then l.backoffUntil - now else 0.0;
    var tokens := Refill(l, t);
    if tokens >= 1.0 then
      WaitStep(l.(tokens := tokens - 1.0, lastRefill := t), backoffSleep, 0.0)
    else
      WaitStep(l.(tokens := tokens, lastRefill := t), backoffSleep, 1.0 / l.maxRate)
  }

  lemma MulNonNegative(a: real, b: real)
    requires a >= 0.0 && b >= 0.0
    ensures a * b >= 0.0
  {
  }

  /** With a clock that does not run backwards, `wait` keeps the tokens within
      [0, burst_capacity]; it takes exactly one token when the refill gives at least one
      and none otherwise, sleeps 1/max_rate only in the second case, and never refills
      before `backoff_until` has passed. */
  lemma WaitSpec(l: Limiter, now: real, resumed: real)
    requires l.maxRate > 0.0 && 0.0 <= l.tokens <= l.burstCapacity
    requires l.lastRefill <= now && (now < l.backoffUntil ==> l.backoffUntil <= resumed)
    ensures var s := WaitFor(l, now, resumed);
            var refilled := Refill(l, s.after.lastRefill);
            && 0.0 <= s.after.tokens <= l.burstCapacity
            && (refilled >= 1.0 ==> s.after.tokens == refilled - 1.0 && s.tokenSleep == 0.0)
            && (refilled < 1.0 ==> s.after.tokens == refilled && s.tokenSleep == 1.0 / l.maxRate)
            && s.after.lastRefill >= now
            && (now < l.backoffUntil ==> s.after.lastRefill >= l.backoffUntil && s.backoffSleep == l.backoffUntil - now)
            && (now >= l.backoffUntil ==> s.after.lastRefill == now && s.backoffSleep == 0.0)
  {
    var t := if now < l.backoffUntil then resumed else now;
    assert t >= l.lastRefill;
    MulNonNegative(t - l.lastRefill, l.maxRate);
    assert Refill(l, t) >= 0.0;
    assert WaitFor(l, now, resumed).after.lastRefill == t;
  }

  /** `handle_throttle_error` at time `now`. */
  function ThrottleStep(l: Limiter, now: real): (r: Limiter)
    ensures r.maxRate >= RateFloor
  {
    var count := l.throttleCount + 1;
    l.(throttleCount := count,
       backoffUntil := now + ThrottleBackoff(count),
       maxRate := MaxR(RateFloor, l.maxRate * 0.85))
  }

  /** `handle_success` */
  function SuccessStep(l: Limiter): (r: Limiter)
    ensures l.maxRate > 0.0 ==> r.maxRate > 0.0
  {
    if l.throttleCount > 0 then
      var count := l.throttleCount - 1;
      if count == 0 then l.(throttleCount := 0, maxRate := MinR(RateCeiling, l.maxRate * 1.05))
      else l.(throttleCount := count)
    else l
  }

  /** A throttle counts one more throttle, backs off between 5 and 30 seconds from
      `now`, and lowers the rate by 15% down to the 0.8 floor, touching nothing else. */
  lemma ThrottleStepSpec(l: Limiter, now: real)
    ensures var r := ThrottleStep(l, now);
            && r.throttleCount == l.throttleCount + 1
            && now + 5.0 <= r.backoffUntil <= now + MaxThrottleBackoff
            && r.maxRate == (if l.maxRate * 0.85 >= RateFloor then l.maxRate * 0.85 else RateFloor)
            && (l.maxRate >= RateFloor ==> r.maxRate <= l.maxRate)
            && r.tokens == l.tokens && r.lastRefill == l.lastRefill && r.burstCapacity == l.burstCapacity
  {
    ThrottleBackoffSpec(l.throttleCount + 1, l.throttleCount + 1);
  }

  /** A success does nothing at count 0; otherwise it takes one off the count and raises
      the rate by 5%, up to 2.5, only when the count reaches 0. */
  lemma SuccessStepSpec(l: Limiter)
    ensures var r := SuccessStep(l);
            && (l.throttleCount == 0 ==> r == l)
            && (l.throttleCount > 0 ==> r.throttleCount == l.throttleCount - 1)
            && (r.maxRate != l.maxRate ==> l.throttleCount == 1 && r.maxRate == MinR(RateCeiling, l.maxRate * 1.05))
            && r.tokens == l.tokens && r.lastRefill == l.lastRefill && r.backoffUntil == l.backoffUntil
  {
  }

  /** The rate band [0.8, 2.5] the default limiter starts in. */
  predicate RateInBand(l: Limiter) {
    RateFloor <= l.maxRate <= RateCeiling
  }

  /** Throttles, successes and waits keep the rate within [0.8, 2.5]. */
  lemma RateStaysInBand(l: Limiter, now: real, resumed: real)
    requires RateInBand(l)
    ensures RateInBand(ThrottleStep(l, now))
    ensures RateInBand(SuccessStep(l))
    ensures RateInBand(WaitFor(l, now, resumed).after)
  {
  }

  // ---------------------------------------------------------------- the limiter object

  /** `SmartRateLimiter`: the lock is left out, so the calls are taken one at a time. */
  class SmartRateLimiter {
    var maxRate: real
    var burstCapacity: real
    var tokens: real
    var lastRefill: real
    var backoffUntil: real
    var throttleCount: nat

    function State(): Limiter
      reads this
    {
      Limiter(maxRate, burstCapacity, tokens, lastRefill, backoffUntil, throttleCount)
    }

    /** `1.0 / max_rate` is taken when tokens run out, so the rate stays positive. */
    ghost predicate Valid()
      reads this
    {
      maxRate > 0.0
    }

    /** `SmartRateLimiter(max_requests_per_second, burst_capacity)` created at `now`. */
    constructor(maxRequestsPerSecond: real, burst: real, now: real)
      requires maxRequestsPerSecond > 0.0
      ensures Valid()
      ensures State() == Limiter(maxRequestsPerSecond, burst, burst, now, 0.0, 0)
    {
      maxRate := maxRequestsPerSecond;
      burstCapacity := burst;
      tokens := burst;
      lastRefill := now;
      backoffUntil := 0.0;
      throttleCount := 0;
    }

    /** `wait` at `now`; returns the two sleeps it takes. */
    method Wait(now: real, resumed: real) returns (backoffSleep: real, tokenSleep: real)
      requires Valid()
      modifies this
      ensures Valid()
      ensures WaitStep(State(), backoffSleep, tokenSleep) == WaitFor(old(State()), now, resumed)
    {
      var t := now;
      backoffSleep := 0.0;
      if now < backoffUntil {
        backoffSleep := backoffUntil - now;
        t := resumed;
      }
      tokens := Refill(State(), t);
      lastRefill := t;
      if tokens >= 1.0 {
        tokens := tokens - 1.0;
        return backoffSleep, 0.0;
      }
      tokenSleep := 1.0 / maxRate;
    }

    /** `handle_throttle_error` at `now`. */
    method HandleThrottleError(now: real)
      modifies this
      ensures Valid()
      ensures State() == ThrottleStep(old(State()), now)
    {
      throttleCount := throttleCount + 1;
      var backoff := ThrottleBackoff(throttleCount);
      backoffUntil := now + backoff;
      maxRate := MaxR(RateFloor, maxRate * 0.85);
    }

    /** `handle_success` */
    method HandleSuccess()
      requires Valid()
      modifies this
      ensures Valid()
      ensures State() == SuccessStep(old(State()))
    {
      if throttleCount > 0 {
        throttleCount := throttleCount - 1;
        if throttleCount == 0 {
          maxRate := MinR(RateCeiling, maxRate * 1.05);
        }
      }
    }
  }

  // ---------------------------------------------------------------- the bulk price update

  const MaxPriceAttempts: nat := 5
  const NoVariantsReason := "Güncellenecek varyant yok."

  /** One `productVariantsBulkUpdate` user error. */
  datatype UserError = UserError(field: Option<string>, message: Option<string>, code: Option<string>)

  /** What one attempt's `execute_graphql` gives: the number of variants the reply lists
      and its userErrors, or the text of the exception raised. */
  datatype BulkReply = BulkReplied(updatedCount: nat, errors: seq<UserError>) | BulkRaised(message: string)

  /** The times one attempt reads: the clock at `wait`, the clock after its backoff
      sleep, and the clock at `handle_throttle_error`. */
  datatype AttemptClock = AttemptClock(now: real, resumed: real, throttledAt: real)

  /** One variant of the bulk input: `id`, `price` and `compareAtPrice` when the payload
      has that key. */
  datatype PricePayload = PricePayload(id: string, price: string, compareAtPrice: Option<string>)

  /** Why a product's price update failed: the first three userErrors, the exception of the
      last attempt, the fall-through after the loop, or the text of another exception. */
  datatype FailReason =
    | BulkUpdateErrors(firstErrors: seq<UserError>)
    | MaxRetriesExceeded(message: string)
    | AllRetriesFailed
    | FailedWith(text: string)

  /** The returned status record. */
  datatype PriceOutcome =
    | PriceSkipped(reason: string)
    | PriceFailed(failure: FailReason)
    | PriceSuccess(updatedCount: nat)

  /** What one attempt decides: retry after a throttle, loop on without throttling, or
      return. */
  datatype AttemptStep = ThrottledRetry | PlainRetry | Finish(outcome: PriceOutcome)

  predicate ThrottledErrors(errors: seq<UserError>) {
    exists i :: 0 <= i < |errors| && errors[i].code == Some("THROTTLED")
  }

  /** One iteration of the retry loop, given what `execute_graphql` gave. */
  function PriceAttempt(reply: BulkReply, attempt: nat): (s: AttemptStep)
    requires attempt < MaxPriceAttempts
    ensures !s.Finish? ==> attempt < MaxPriceAttempts - 1
  {
    match reply
    case BulkReplied(n, errors) =>
      if |errors| > 0 then
        if ThrottledErrors(errors) && attempt < MaxPriceAttempts - 1 then ThrottledRetry
        else Finish(PriceFailed(BulkUpdateErrors(errors[..Min(3, |errors|)])))
      else Finish(PriceSuccess(n))
    case BulkRaised(msg) =>
      if (Contains(msg, "THROTTLED") || Contains(msg, "429")) && attempt < MaxPriceAttempts - 1 then ThrottledRetry
      else if attempt == MaxPriceAttempts - 1 then Finish(PriceFailed(MaxRetriesExceeded(msg)))
      else PlainRetry
  }

  /** A reply with userErrors fails unless they hold a THROTTLED code and attempts are
      left; an error-free reply succeeds with its variant count; an exception is retried
      after a throttle when it mentions THROTTLED or 429 and attempts are left, fails on
      the last attempt and otherwise just loops. The last attempt always returns. */
  lemma PriceAttemptSpec(reply: BulkReply, attempt: nat)
    requires attempt < MaxPriceAttempts
    ensures var s := PriceAttempt(reply, attempt);
            && (attempt == MaxPriceAttempts - 1 ==> s.Finish?)
            && (s == ThrottledRetry <==>
                  attempt < MaxPriceAttempts - 1 &&
                  ((reply.BulkReplied? && |reply.errors| > 0 && ThrottledErrors(reply.errors))
                   || (reply.BulkRaised? && (Contains(reply.message, "THROTTLED") || Contains(reply.message, "429")))))
            && (s.Finish? && s.outcome.PriceSuccess? <==> reply.BulkReplied? && |reply.errors| == 0)
            && (s.Finish? && s.outcome.PriceFailed? && s.outcome.failure.BulkUpdateErrors? ==>
                  |s.outcome.failure.firstErrors| <= 3 && s.outcome.failure.firstErrors <= reply.errors)
  {
  }

  /** The retry loop from attempt `k` on: the limiter after it and the status returned.
      `k == 5`, the fall-through after the loop, is never reached from attempt 0. */
  function PriceRun(l: Limiter, replies: seq<BulkReply>, clocks: seq<AttemptClock>, k: nat): (Limiter, PriceOutcome)
    requires |replies| == MaxPriceAttempts && |clocks| == MaxPriceAttempts && k <= MaxPriceAttempts
    requires l.maxRate > 0.0
    decreases MaxPriceAttempts - k
  {
    if k == MaxPriceAttempts then (l, PriceFailed(AllRetriesFailed))
    else
      var w := WaitFor(l, clocks[k].now, clocks[k].resumed).after;
      match PriceAttempt(replies[k], k)
      case ThrottledRetry => PriceRun(ThrottleStep(w, clocks[k].throttledAt), replies, clocks, k + 1)
      case PlainRetry => PriceRun(w, replies, clocks, k + 1)
      case Finish(o) => (if o.PriceSuccess? then SuccessStep(w) else w, o)
  }

  /** Every run returns the decision of some attempt: a failure other than "All retries
      failed", or a success; never a skip. */
  lemma {:induction false} PriceRunDecides(l: Limiter, replies: seq<BulkReply>, clocks: seq<AttemptClock>, k: nat)
    requires |replies| == MaxPriceAttempts && |clocks| == MaxPriceAttempts && k < MaxPriceAttempts
    requires l.maxRate > 0.0
    decreases MaxPriceAttempts - k
    ensures var o := PriceRun(l, replies, clocks, k).1;
            (o.PriceFailed? && o.failure != AllRetriesFailed) || o.PriceSuccess?
  {
    var w := WaitFor(l, clocks[k].now, clocks[k].resumed).after;
    match PriceAttempt(replies[k], k)
    case ThrottledRetry => PriceRunDecides(ThrottleStep(w, clocks[k].throttledAt), replies, clocks, k + 1);
    case PlainRetry => PriceRunDecides(w, replies, clocks, k + 1);
    case Finish(o) =>
  }

  /** A throttled attempt followed by a success leaves the limiter's count where a
      throttle and a success leave it: the success undoes the throttle's count. */
  lemma ThrottleThenSuccess(l: Limiter, replies: seq<BulkReply>, clocks: seq<AttemptClock>)
    requires |replies| == MaxPriceAttempts && |clocks| == MaxPriceAttempts
    requires l.maxRate > 0.0
    requires replies[0] == BulkReplied(0, [UserError(None, None, Some("THROTTLED"))])
    requires replies[1].BulkReplied? && replies[1].errors == []
    ensures PriceRun(l, replies, clocks, 0).1 == PriceSuccess(replies[1].updatedCount)
    ensures PriceRun(l, replies, clocks, 0).0.throttleCount == l.throttleCount
  {
    assert ThrottledErrors(replies[0].errors) by {
      assert replies[0].errors[0].code == Some("THROTTLED");
    }
  }

  /** `2 ** k` */
  function Pow2(k: nat): (r: real)
    ensures r >= 1.0
  {
    if k == 0 then 1.0 else 2.0 * Pow2(k - 1)
  }

  /** The sleeps one `wait` takes, in order: the backoff, then the one for want of a
      token; a sleep that is not taken is not listed. */
  function WaitSleeps(s: WaitStep): seq<real> {
    (if s.backoffSleep > 0.0 then [s.backoffSleep] else []) + (if s.tokenSleep > 0.0 then [s.tokenSleep] else [])
  }

  /** The fixed part of the sleep before a throttled retry: `1.5 ** attempt` after
      throttled userErrors, `2 ** attempt` after an exception; the random jitter added to
      it is not modelled. */
  function RetryPause(reply: BulkReply, attempt: nat): (r: real)
    ensures r >= 1.0
  {
    if reply.BulkReplied? then Pow15(attempt) else Pow2(attempt)
  }

  /** The sleeps of the retry loop from attempt `k` on, in the order they are taken:
      each attempt's `wait`, then the pause of a throttled retry. */
  function PriceRunSleeps(l: Limiter, replies: seq<BulkReply>, clocks: seq<AttemptClock>, k: nat): seq<real>
    requires |replies| == MaxPriceAttempts && |clocks| == MaxPriceAttempts && k <= MaxPriceAttempts
    requires l.maxRate > 0.0
    decreases MaxPriceAttempts - k
  {
    if k == MaxPriceAttempts then []
    else
      var s := WaitFor(l, clocks[k].now, clocks[k].resumed);
      match PriceAttempt(replies[k], k)
      case ThrottledRetry =>
        WaitSleeps(s) + [RetryPause(replies[k], k)] + PriceRunSleeps(ThrottleStep(s.after, clocks[k].throttledAt), replies, clocks, k + 1)
      case PlainRetry => WaitSleeps(s) + PriceRunSleeps(s.after, replies, clocks, k + 1)
      case Finish(_) => WaitSleeps(s)
  }

  /** Every sleep of the retry loop is a positive duration, and each attempt sleeps at
      most three times: the backoff, the token wait and the retry pause. */
  lemma {:induction false} PriceRunSleepsSpec(l: Limiter, replies: seq<BulkReply>, clocks: seq<AttemptClock>, k: nat)
    requires |replies| == MaxPriceAttempts && |clocks| == MaxPriceAttempts && k <= MaxPriceAttempts
    requires l.maxRate > 0.0
    decreases MaxPriceAttempts - k
    ensures var r := PriceRunSleeps(l, replies, clocks, k);
            && |r| <= 3 * (MaxPriceAttempts - k)
            && forall i :: 0 <= i < |r| ==> r[i] > 0.0
  {
    if k < MaxPriceAttempts {
      var s := WaitFor(l, clocks[k].now, clocks[k].resumed);
      match PriceAttempt(replies[k], k)
      case ThrottledRetry =>
        PriceRunSleepsSpec(ThrottleStep(s.after, clocks[k].throttledAt), replies, clocks, k + 1);
      case PlainRetry =>
        PriceRunSleepsSpec(s.after, replies, clocks, k + 1);
      case Finish(_) =>
    }
  }

  /** A throttled first attempt on a limiter with a token to spend and no backoff
      pending sleeps only its retry pause, `1.5 ** 0` seconds, before the second attempt;
      after a throttle exception that attempt's pause would be `2 ** 0`. */
  lemma ThrottledFirstAttemptPause(l: Limiter, replies: seq<BulkReply>, clocks: seq<AttemptClock>)
    requires |replies| == MaxPriceAttempts && |clocks| == MaxPriceAttempts
    requires l.maxRate > 0.0 && 1.0 <= l.tokens <= l.burstCapacity
    requires l.lastRefill <= clocks[0].now && l.backoffUntil <= clocks[0].now
    requires replies[0] == BulkReplied(0, [UserError(None, None, Some("THROTTLED"))])
    ensures |PriceRunSleeps(l, replies, clocks, 0)| > 0 && PriceRunSleeps(l, replies, clocks, 0)[0] == 1.0
    ensures RetryPause(BulkRaised("429"), 1) == 2.0 && RetryPause(replies[0], 1) == 1.5
  {
    assert ThrottledErrors(replies[0].errors) by {
      assert replies[0].errors[0].code == Some("THROTTLED");
    }
    MulNonNegative(clocks[0].now - l.lastRefill, l.maxRate);
    assert Refill(l, clocks[0].now) >= 1.0;
    var w := WaitFor(l, clocks[0].now, clocks[0].resumed);
    assert w.backoffSleep == 0.0 && w.tokenSleep == 0.0;
    assert WaitSleeps(w) == [];
  }

  /** One attempt of the retry loop: how the run and its sleeps from attempt `k` follow
      from those from attempt `k + 1`. */
  lemma PriceRunStep(l: Limiter, replies: seq<BulkReply>, clocks: seq<AttemptClock>, k: nat)
    requires |replies| == MaxPriceAttempts && |clocks| == MaxPriceAttempts && k < MaxPriceAttempts
    requires l.maxRate > 0.0
    ensures var s := WaitFor(l, clocks[k].now, clocks[k].resumed);
            var step := PriceAttempt(replies[k], k);
            && (step == ThrottledRetry ==>
                  var t := ThrottleStep(s.after, clocks[k].throttledAt);
                  && PriceRun(l, replies, clocks, k) == PriceRun(t, replies, clocks, k + 1)
                  && PriceRunSleeps(l, replies, clocks, k) ==
                       WaitSleeps(s) + [RetryPause(replies[k], k)] + PriceRunSleeps(t, replies, clocks, k + 1))
            && (step == PlainRetry ==>
                  && PriceRun(l, replies, clocks, k) == PriceRun(s.after, replies, clocks, k + 1)
                  && PriceRunSleeps(l, replies, clocks, k) == WaitSleeps(s) + PriceRunSleeps(s.after, replies, clocks, k + 1))
            && (step.Finish? ==>
                  && PriceRun(l, replies, clocks, k) ==
                       (if step.outcome.PriceSuccess? then SuccessStep(s.after) else s.after, step.outcome)
                  && PriceRunSleeps(l, replies, clocks, k) == WaitSleeps(s))
  {
  }

  /** `update_prices_for_single_product`: `replies[i]` is what the i-th attempt's call
      would give and `clocks[i]` the times it would read. */
  method UpdatePricesForSingleProduct(limiter: SmartRateLimiter, payloads: seq<PricePayload>,
                                      replies: seq<BulkReply>, clocks: seq<AttemptClock>)
    returns (outcome: PriceOutcome, sleeps: seq<real>)
    requires |replies| == MaxPriceAttempts && |clocks| == MaxPriceAttempts
    requires limiter.Valid()
    modifies limiter
    ensures limiter.Valid()
    ensures |payloads| == 0 ==>
              outcome == PriceSkipped(NoVariantsReason) && sleeps == [] && limiter.State() == old(limiter.State())
    ensures |payloads| > 0 ==> (limiter.State(), outcome) == PriceRun(old(limiter.State()), replies, clocks, 0)
    ensures |payloads| > 0 ==> sleeps == PriceRunSleeps(old(limiter.State()), replies, clocks, 0)
  {
    sleeps := [];
    if |payloads| == 0 {
      return PriceSkipped(NoVariantsReason), sleeps;
    }
    ghost var start := limiter.State();
    var attempt: nat := 0;
    while attempt < MaxPriceAttempts
      invariant attempt <= MaxPriceAttempts
      invariant limiter.Valid()
      invariant PriceRun(limiter.State(), replies, clocks, attempt) == PriceRun(start, replies, clocks, 0)
      invariant sleeps + PriceRunSleeps(limiter.State(), replies, clocks, attempt) == PriceRunSleeps(start, replies, clocks, 0)
      decreases MaxPriceAttempts - attempt
    {
      PriceRunStep(limiter.State(), replies, clocks, attempt);
      var backoffSleep, tokenSleep := limiter.Wait(clocks[attempt].now, clocks[attempt].resumed);
      var waited := WaitSleeps(WaitStep(limiter.State(), backoffSleep, tokenSleep));
      var step := PriceAttempt(replies[attempt], attempt);
      match step {
        case ThrottledRetry =>
          limiter.HandleThrottleError(clocks[attempt].throttledAt);
          sleeps := sleeps + waited + [RetryPause(replies[attempt], attempt)];
        case PlainRetry =>
          sleeps := sleeps + waited;
        case Finish(o) =>
          if o.PriceSuccess? {
            limiter.HandleSuccess();
          }
          return o, sleeps + waited;
      }
      attempt := attempt + 1;
    }
    outcome := PriceFailed(AllRetriesFailed);
  }

  // ---------------------------------------------------------------- one product of the price sync

  const NoMatchingVariantReason := "Eşleşen varyant bulunamadı"
  /** The text of the AttributeError `None.startswith` raises. */
  const NullSkuError := "'NoneType' object has no attribute 'startswith'"

  function NoPriceReason(baseSku: string): string { "Fiyat bulunamadı: " + baseSku }
  function NoProductReason(baseSku: string): string { "Shopify'da ürün bulunamadı: " + baseSku }

  /** A row of the price table: 'MODEL KODU', the price already formatted with two
      decimals, and the compare-at price, None when null or NaN. */
  datatype PriceRow = PriceRow(modelCode: string, price: string, compareAtPrice: Option<string>)

  /** A variant's `sku` entry: absent (read as ""), null, or text. */
  datatype SkuField = SkuAbsent | SkuNull | SkuText(text: string)

  datatype ShopVariant = ShopVariant(id: string, sku: SkuField)
  datatype ShopProduct = ShopProduct(id: string, variants: seq<ShopVariant>)

  /** The product query: the products it lists, or the exception's text. */
  datatype ProductQuery = QueryRaised(message: string) | QueryAnswered(products: seq<ShopProduct>)

  /** The first row whose model code is `baseSku`. */
  function PriceRowFor(rows: seq<PriceRow>, baseSku: string): (r: Option<PriceRow>)
    ensures r.Some? ==> r.value in rows && r.value.modelCode == baseSku
    ensures r.None? <==> forall i :: 0 <= i < |rows| ==> rows[i].modelCode != baseSku
  {
    if |rows| == 0 then None
    else if rows[0].modelCode == baseSku then Some(rows[0])
    else PriceRowFor(rows[1..], baseSku)
  }

  function SkuText(f: SkuField): string
    requires !f.SkuNull?
  {
    if f.SkuText? then f.text else ""
  }

  /** The payload of one variant, when its SKU starts with the base SKU. */
  function PayloadFor(v: ShopVariant, row: PriceRow): PricePayload {
    PricePayload(v.id, row.price, row.compareAtPrice)
  }

  /** The payloads of the first `n` variants: those whose SKU starts with the base SKU,
      in order; None when one of them has a null SKU, on which the loop raises. */
  function PriceUpdates(vs: seq<ShopVariant>, n: nat, baseSku: string, row: PriceRow): Option<seq<PricePayload>>
    requires n <= |vs|
  {
    if n == 0 then Some([])
    else
      var prev := PriceUpdates(vs, n - 1, baseSku, row);
      if prev.None? || vs[n - 1].sku.SkuNull? then None
      else if StartsWith(SkuText(vs[n - 1].sku), baseSku) then Some(prev.value + [PayloadFor(vs[n - 1], row)])
      else prev
  }

  /** The loop raises exactly when some variant has a null SKU; otherwise every payload
      belongs to a variant whose SKU starts with the base SKU and carries the row's price
      and compare-at price, and every such variant has a payload. */
  lemma {:induction false} PriceUpdatesSpec(vs: seq<ShopVariant>, n: nat, baseSku: string, row: PriceRow)
    requires n <= |vs|
    ensures PriceUpdates(vs, n, baseSku, row).None? <==> exists i :: 0 <= i < n && vs[i].sku.SkuNull?
    ensures PriceUpdates(vs, n, baseSku, row).Some? ==>
              forall p :: p in PriceUpdates(vs, n, baseSku, row).value ==>
                p.price == row.price && p.compareAtPrice == row.compareAtPrice
                && exists i :: 0 <= i < n && vs[i].id == p.id && StartsWith(SkuText(vs[i].sku), baseSku)
    ensures PriceUpdates(vs, n, baseSku, row).Some? ==>
              forall i :: 0 <= i < n && StartsWith(SkuText(vs[i].sku), baseSku) ==>
                PayloadFor(vs[i], row) in PriceUpdates(vs, n, baseSku, row).value
  {
    if n > 0 {
      PriceUpdatesSpec(vs, n - 1, baseSku, row);
      var prev := PriceUpdates(vs, n - 1, baseSku, row);
      var r := PriceUpdates(vs, n, baseSku, row);
      if prev.None? {
        var i :| 0 <= i < n - 1 && vs[i].sku.SkuNull?;
        assert 0 <= i < n && vs[i].sku.SkuNull?;
      } else if vs[n - 1].sku.SkuNull? {
      } else {
        if r.Some? {
          forall p | p in r.value
            ensures p.price == row.price && p.compareAtPrice == row.compareAtPrice
                    && exists i :: 0 <= i < n && vs[i].id == p.id && StartsWith(SkuText(vs[i].sku), baseSku)
          {
            if p in prev.value {
              var i :| 0 <= i < n - 1 && vs[i].id == p.id && StartsWith(SkuText(vs[i].sku), baseSku);
              assert 0 <= i < n;
            } else {
              assert p == PayloadFor(vs[n - 1], row);
            }
          }
          forall i | 0 <= i < n && StartsWith(SkuText(vs[i].sku), baseSku)
            ensures PayloadFor(vs[i], row) in r.value
          {
            if i < n - 1 {
              assert PayloadFor(vs[i], row) in prev.value;
            }
          }
        }
      }
    }
  }

  /** The payload loop of `_process_one_product_for_price_sync`. */
  method CollectPriceUpdates(vs: seq<ShopVariant>, baseSku: string, row: PriceRow) returns (r: Option<seq<PricePayload>>)
    ensures r == PriceUpdates(vs, |vs|, baseSku, row)
  {
    var updates: seq<PricePayload> := [];
    var i := 0;
    while i < |vs|
      invariant 0 <= i <= |vs|
      invariant PriceUpdates(vs, i, baseSku, row) == Some(updates)
    {
      if vs[i].sku.SkuNull? {
        NullSkuStops(vs, i + 1, |vs|, baseSku, row);
        return None;
      }
      if StartsWith(SkuText(vs[i].sku), baseSku) {
        updates := updates + [PayloadFor(vs[i], row)];
      }
      i := i + 1;
    }
    return Some(updates);
  }

  /** Once a null SKU has been met, the later variants change nothing. */
  lemma {:induction false} NullSkuStops(vs: seq<ShopVariant>, m: nat, n: nat, baseSku: string, row: PriceRow)
    requires m <= n <= |vs|
    requires PriceUpdates(vs, m, baseSku, row).None?
    ensures PriceUpdates(vs, n, baseSku, row).None?
    decreases n - m
  {
    if m < n {
      NullSkuStops(vs, m + 1, n, baseSku, row);
    }
  }

  /** `_process_one_product_for_price_sync` as a function of its inputs: the limiter after
      it and the status it returns. `lookupClock` is the time of the `wait` before the
      product query. */
  function ProcessOnePrice(l: Limiter, baseSku: string, rows: seq<PriceRow>, lookupClock: AttemptClock,
                           query: ProductQuery, replies: seq<BulkReply>, clocks: seq<AttemptClock>): (Limiter, PriceOutcome)
    requires |replies| == MaxPriceAttempts && |clocks| == MaxPriceAttempts
    requires l.maxRate > 0.0
  {
    var row := PriceRowFor(rows, baseSku);
    if row.None? then (l, PriceSkipped(NoPriceReason(baseSku)))
    else
      var w := WaitFor(l, lookupClock.now, lookupClock.resumed).after;
      if query.QueryRaised? then (w, PriceFailed(FailedWith(query.message)))
      else if |query.products| == 0 then (w, PriceFailed(FailedWith(NoProductReason(baseSku))))
      else
        var product := query.products[0];
        var updates := PriceUpdates(product.variants, |product.variants|, baseSku, row.value);
        if updates.None? then (w, PriceFailed(FailedWith(NullSkuError)))
        else if |updates.value| == 0 then (w, PriceSkipped(NoMatchingVariantReason))
        else
          var run := PriceRun(w, replies, clocks, 0);
          (if run.1.PriceSuccess? then SuccessStep(run.0) else run.0, run.1)
  }

  /** The sleeps of `_process_one_product_for_price_sync`, in order: the `wait` before the
      product query, then those of the retry loop when it runs. */
  function ProcessOneSleeps(l: Limiter, baseSku: string, rows: seq<PriceRow>, lookupClock: AttemptClock,
                            query: ProductQuery, replies: seq<BulkReply>, clocks: seq<AttemptClock>): seq<real>
    requires |replies| == MaxPriceAttempts && |clocks| == MaxPriceAttempts
    requires l.maxRate > 0.0
  {
    var row := PriceRowFor(rows, baseSku);
    if row.None? then []
    else
      var s := WaitFor(l, lookupClock.now, lookupClock.resumed);
      if query.QueryRaised? || |query.products| == 0 then WaitSleeps(s)
      else
        var updates := PriceUpdates(query.products[0].variants, |query.products[0].variants|, baseSku, row.value);
        if updates.None? || |updates.value| == 0 then WaitSleeps(s)
        else WaitSleeps(s) + PriceRunSleeps(s.after, replies, clocks, 0)
  }

  /** A product sleeps only after it has a price row, each sleep is a positive duration,
      and the retry loop's sleeps come only with an update the loop decided. */
  lemma ProcessOneSleepsSpec(l: Limiter, baseSku: string, rows: seq<PriceRow>, lookupClock: AttemptClock,
                             query: ProductQuery, replies: seq<BulkReply>, clocks: seq<AttemptClock>)
    requires |replies| == MaxPriceAttempts && |clocks| == MaxPriceAttempts
    requires l.maxRate > 0.0
    ensures var r := ProcessOneSleeps(l, baseSku, rows, lookupClock, query, replies, clocks);
            && (PriceRowFor(rows, baseSku).None? ==> r == [])
            && (forall i :: 0 <= i < |r| ==> r[i] > 0.0)
            && |r| <= 2 + 3 * MaxPriceAttempts
  {
    var s := WaitFor(l, lookupClock.now, lookupClock.resumed);
    PriceRunSleepsSpec(s.after, replies, clocks, 0);
  }

  /** No price row: skipped before any call, and only then is that the answer. */
  lemma NoPriceRowSkips(l: Limiter, baseSku: string, rows: seq<PriceRow>, lookupClock: AttemptClock,
                        query: ProductQuery, replies: seq<BulkReply>, clocks: seq<AttemptClock>)
    requires |replies| == MaxPriceAttempts && |clocks| == MaxPriceAttempts
    requires l.maxRate > 0.0
    ensures var r := ProcessOnePrice(l, baseSku, rows, lookupClock, query, replies, clocks);
            && ((forall i :: 0 <= i < |rows| ==> rows[i].modelCode != baseSku) ==> r == (l, PriceSkipped(NoPriceReason(baseSku))))
            && (r.1 == PriceSkipped(NoPriceReason(baseSku)) ==> forall i :: 0 <= i < |rows| ==> rows[i].modelCode != baseSku)
  {
    var row := PriceRowFor(rows, baseSku);
    if row.Some? {
      var w := WaitFor(l, lookupClock.now, lookupClock.resumed).after;
      PriceRunDecides(w, replies, clocks, 0);
      assert NoPriceReason(baseSku)[0] == 'F';
      assert NoMatchingVariantReason[0] == 'E';
    }
  }

  /** A success is the retry loop's success on the first product found, and passes
      through `handle_success` twice, once in the loop and once here. */
  lemma ProcessOneSuccess(l: Limiter, baseSku: string, rows: seq<PriceRow>, lookupClock: AttemptClock,
                          query: ProductQuery, replies: seq<BulkReply>, clocks: seq<AttemptClock>)
    requires |replies| == MaxPriceAttempts && |clocks| == MaxPriceAttempts
    requires l.maxRate > 0.0
    requires ProcessOnePrice(l, baseSku, rows, lookupClock, query, replies, clocks).1.PriceSuccess?
    ensures query.QueryAnswered? && |query.products| > 0 && PriceRowFor(rows, baseSku).Some?
    ensures var w := WaitFor(l, lookupClock.now, lookupClock.resumed).after;
            var run := PriceRun(w, replies, clocks, 0);
            && run.1 == ProcessOnePrice(l, baseSku, rows, lookupClock, query, replies, clocks).1
            && ProcessOnePrice(l, baseSku, rows, lookupClock, query, replies, clocks).0 == SuccessStep(run.0)
  {
  }

  /** On a success the run's `handle_success` has already taken one off the count, and
      the second call here takes off one more when any is left. */
  lemma SuccessCountsTwice(l: Limiter)
    ensures SuccessStep(SuccessStep(l)).throttleCount == (if l.throttleCount >= 2 then l.throttleCount - 2 else 0)
  {
  }

  /** `_process_one_product_for_price_sync` */
  method ProcessOneProductForPriceSync(limiter: SmartRateLimiter, baseSku: string, rows: seq<PriceRow>,
                                       lookupClock: AttemptClock, query: ProductQuery,
                                       replies: seq<BulkReply>, clocks: seq<AttemptClock>)
    returns (outcome: PriceOutcome, sleeps: seq<real>)
    requires |replies| == MaxPriceAttempts && |clocks| == MaxPriceAttempts
    requires limiter.Valid()
    modifies limiter
    ensures limiter.Valid()
    ensures (limiter.State(), outcome) == ProcessOnePrice(old(limiter.State()), baseSku, rows, lookupClock, query, replies, clocks)
    ensures sleeps == ProcessOneSleeps(old(limiter.State()), baseSku, rows, lookupClock, query, replies, clocks)
  {
    var row := PriceRowFor(rows, baseSku);
    if row.None? {
      return PriceSkipped(NoPriceReason(baseSku)), [];
    }
    var backoffSleep, tokenSleep := limiter.Wait(lookupClock.now, lookupClock.resumed);
    sleeps := WaitSleeps(WaitStep(limiter.State(), backoffSleep, tokenSleep));
    if query.QueryRaised? {
      return PriceFailed(FailedWith(query.message)), sleeps;
    }
    if |query.products| == 0 {
      return PriceFailed(FailedWith(NoProductReason(baseSku))), sleeps;
    }
    var product := query.products[0];
    var updates := CollectPriceUpdates(product.variants, baseSku, row.value);
    if updates.None? {
      return PriceFailed(FailedWith(NullSkuError)), sleeps;
    }
    if |updates.value| == 0 {
      return PriceSkipped(NoMatchingVariantReason), sleeps;
    }
    var runSleeps;
    outcome, runSleeps := UpdatePricesForSingleProduct(limiter, updates.value, replies, clocks);
    sleeps := sleeps + runSleeps;
    if outcome.PriceSuccess? {
      limiter.HandleSuccess();
    }
  }
}
