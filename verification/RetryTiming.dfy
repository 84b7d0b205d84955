/** How long one callback delivery can take, against the bound the configuration is checked with. */
module RetryTiming {
  import opened Optional

  datatype Retry = Retry(attempts: nat, requestTimeout: nat, initialBackoff: nat, maximumBackoff: nat)

  function Min(a: nat, b: nat): nat {
    if a <= b then a else b
  }

  function Pow2(n: nat): nat {
    if n == 0 then 1 else 2 * Pow2(n - 1)
  }

  /** The pause after the `completed`-th attempt. */
  function Backoff(r: Retry, completed: nat): nat
    requires completed > 0
  {
    Min(r.maximumBackoff, r.initialBackoff * Pow2(completed - 1))
  }

  /** The first `count` pauses, added up. */
  function Pauses(r: Retry, count: nat): nat {
    if count == 0 then 0 else Pauses(r, count - 1) + Backoff(r, count)
  }

  // ---------------------------------------------------------------- one delivery

  /** What one request meets, and how long it took; the request timeout bounds `elapsed`. */
  datatype Response = Response(reply: Option<nat>, elapsed: nat)

  predicate Retryable(status: nat) {
    status == 408 || status == 425 || status == 429 || status >= 500
  }

  predicate Success(status: nat) {
    200 <= status < 300
  }

  datatype Outcome = DeliveredAfter(attempts: nat) | RejectedAfter(attempts: nat) | ExhaustedAll

  /** The first attempt that ends the delivery, if any of the first `count` does. */
  ghost predicate Ends(responses: seq<Response>, k: nat)
    requires k < |responses|
  {
    responses[k].reply.Some? && (Success(responses[k].reply.value) || !Retryable(responses[k].reply.value))
  }

  /** The time of `count` requests and of the pauses between them. */
  function Time(r: Retry, responses: seq<Response>, count: nat): nat
    requires count <= |responses|
  {
    if count == 0 then 0
    else Time(r, responses, count - 1) + (if count > 1 then Backoff(r, count - 1) else 0) + responses[count - 1].elapsed
  }

  function WorstTime(r: Retry, count: nat): nat {
    count * r.requestTimeout + Pauses(r, if count == 0 then 0 else count - 1)
  }

  /** #deliver: `responses` are what successive requests meet. It stops at the first that ends it. */
  method Deliver(r: Retry, responses: seq<Response>) returns (outcome: Outcome, requests: nat, elapsed: nat)
    requires |responses| == r.attempts
    ensures requests <= r.attempts && elapsed == Time(r, responses, requests)
    ensures forall k | 0 <= k < requests - 1 :: !Ends(responses, k)
    ensures outcome == ExhaustedAll <==> forall k | 0 <= k < r.attempts :: !Ends(responses, k)
    ensures outcome == ExhaustedAll ==> requests == r.attempts
    ensures outcome != ExhaustedAll ==>
              && requests > 0 && outcome.attempts == requests && Ends(responses, requests - 1)
              && (outcome.DeliveredAfter? <==> Success(responses[requests - 1].reply.value))
  {
    requests, elapsed := 0, 0;
    var attempt := 1;
    while attempt <= r.attempts
      invariant 1 <= attempt <= r.attempts + 1
      invariant requests == attempt - 1
      invariant elapsed == Time(r, responses, requests)
                           + (if 0 < requests < r.attempts then Backoff(r, requests) else 0)
      invariant forall k | 0 <= k < requests :: !Ends(responses, k)
    {
      var response := responses[attempt - 1];
      requests, elapsed := requests + 1, elapsed + response.elapsed;
      if response.reply.Some? {
        if Success(response.reply.value) {
          assert Ends(responses, requests - 1);
          return DeliveredAfter(requests), requests, elapsed;
        }
        if !Retryable(response.reply.value) {
          assert Ends(responses, requests - 1);
          return RejectedAfter(requests), requests, elapsed;
        }
      }
      if attempt < r.attempts {
        elapsed := elapsed + Backoff(r, attempt);
      }
      attempt := attempt + 1;
    }
    outcome := ExhaustedAll;
  }

  /** With requests bounded by their timeout, time is at most the worst case, which is reached. */
  lemma {:induction false} TimeBounded(r: Retry, responses: seq<Response>, count: nat)
    requires count <= |responses| && forall x <- responses :: x.elapsed <= r.requestTimeout
    ensures Time(r, responses, count) <= WorstTime(r, count)
    ensures (forall x <- responses :: x.elapsed == r.requestTimeout) ==>
            Time(r, responses, count) == WorstTime(r, count)
  {
    if count > 0 {
      TimeBounded(r, responses, count - 1);
      assert count * r.requestTimeout == (count - 1) * r.requestTimeout + r.requestTimeout;
    }
  }

  lemma {:induction false} WorstTimeMonotone(r: Retry, a: nat, b: nat)
    requires a <= b
    ensures WorstTime(r, a) <= WorstTime(r, b)
  {
    if a < b {
      WorstTimeMonotone(r, a, b - 1);
      assert b * r.requestTimeout == (b - 1) * r.requestTimeout + r.requestTimeout;
    }
  }

  // ---------------------------------------------------------------- the closed form

  /** The retry from which the doubled pause is capped; `limit` pauses are considered. */
  function Uncapped(r: Retry, limit: nat): (u: nat)
    ensures u <= limit
  {
    if limit == 0 then 0
    else
      var u := Uncapped(r, limit - 1);
      if u == limit - 1 && r.initialBackoff * Pow2(limit - 1) <= r.maximumBackoff then limit else u
  }

  lemma {:induction false} Pow2Grows(m: nat, n: nat)
    requires m <= n
    ensures Pow2(m) <= Pow2(n)
  {
    if m < n {
      Pow2Grows(m, n - 1);
    }
  }

  lemma ScaledGrows(a: nat, x: nat, y: nat)
    requires x <= y
    ensures a * x <= a * y
  {}

  /** The closed form: u doubled pauses sum to a geometric series, the others are the maximum. */
  function ClosedForm(r: Retry, u: nat, count: nat): int {
    r.initialBackoff * (Pow2(u) - 1) + (count - u) * r.maximumBackoff
  }

  lemma DoubledStep(r: Retry, u: nat)
    ensures ClosedForm(r, u + 1, u + 1) == ClosedForm(r, u, u) + r.initialBackoff * Pow2(u)
  {
    assert r.initialBackoff * (2 * Pow2(u) - 1) == r.initialBackoff * (Pow2(u) - 1) + r.initialBackoff * Pow2(u);
  }

  lemma CappedStep(r: Retry, u: nat, count: nat)
    ensures ClosedForm(r, u, count + 1) == ClosedForm(r, u, count) + r.maximumBackoff
  {
    assert (count + 1 - u) * r.maximumBackoff == (count - u) * r.maximumBackoff + r.maximumBackoff;
  }

  /** Doubling first, then the cap, for any number of pauses. */
  lemma {:induction false} PausesClosedForm(r: Retry, count: nat)
    ensures Pauses(r, count) == ClosedForm(r, Uncapped(r, count), count)
    ensures Uncapped(r, count) < count ==> r.maximumBackoff < r.initialBackoff * Pow2(Uncapped(r, count))
  {
    if count > 0 {
      PausesClosedForm(r, count - 1);
      var u := Uncapped(r, count - 1);
      if u < count - 1 {
        Pow2Grows(u, count - 1);
        ScaledGrows(r.initialBackoff, Pow2(u), Pow2(count - 1));
        CappedStep(r, u, count - 1);
      } else {
        DoubledStep(r, u);
        CappedStep(r, u, count - 1);
      }
    }
  }

  // ---------------------------------------------------------------- the configuration check

  datatype Configuration = Configuration(callback: Retry, identity: Retry, shutdownTimeout: nat)

  /** worstCaseDeliveryMilliseconds: a map over retry indices, then a sum. */
  method WorstCase(r: Retry) returns (total: nat)
    requires r.attempts > 0
    ensures total == WorstTime(r, r.attempts)
  {
    var backoffs := seq(r.attempts - 1, index requires 0 <= index => Backoff(r, index + 1));
    var sum := 0;
    for i := 0 to |backoffs|
      invariant sum == Pauses(r, i)
    {
      sum := sum + backoffs[i];
    }
    total := r.attempts * r.requestTimeout + sum;
  }

  /** The part of the configuration schema that bounds deliveries. */
  method Accepts(c: Configuration) returns (accepted: bool)
    requires c.callback.attempts > 0 && c.identity.attempts > 0
    ensures accepted <==> WithinShutdown(c.callback, c.shutdownTimeout) && WithinShutdown(c.identity, c.shutdownTimeout)
  {
    if c.callback.maximumBackoff < c.callback.initialBackoff || c.identity.maximumBackoff < c.identity.initialBackoff {
      return false;
    }
    var callback := WorstCase(c.callback);
    var identity := WorstCase(c.identity);
    accepted := callback <= c.shutdownTimeout && identity <= c.shutdownTimeout;
  }

  ghost predicate WithinShutdown(r: Retry, shutdownTimeout: nat)
    requires r.attempts > 0
  {
    r.initialBackoff <= r.maximumBackoff && WorstTime(r, r.attempts) <= shutdownTimeout
  }

  /** However slow the responses within the request timeout are, no delivery takes longer than `limit`. */
  ghost predicate DeliveriesFit(r: Retry, limit: nat) {
    forall responses: seq<Response>, n: nat |
      |responses| == r.attempts && n <= r.attempts && (forall x <- responses :: x.elapsed <= r.requestTimeout) ::
      Time(r, responses, n) <= limit
  }

  /** The worst-case time is within a limit if and only if every possible delivery is. */
  lemma DeliveriesFitExactly(r: Retry, limit: nat)
    ensures WorstTime(r, r.attempts) <= limit <==> DeliveriesFit(r, limit)
  {
    if WorstTime(r, r.attempts) <= limit {
      forall responses: seq<Response>, n: nat |
        |responses| == r.attempts && n <= r.attempts && (forall x <- responses :: x.elapsed <= r.requestTimeout)
        ensures Time(r, responses, n) <= limit
      {
        TimeBounded(r, responses, n);
        WorstTimeMonotone(r, n, r.attempts);
      }
    } else {
      var slowest := seq(r.attempts, _ => Response(None, r.requestTimeout));
      TimeBounded(r, slowest, r.attempts);
      assert |slowest| == r.attempts && Time(r, slowest, r.attempts) > limit;
    }
  }

  /**
   * A configuration is accepted if and only if its pauses are ordered and every callback delivery and
   * every identity delivery is over before the shutdown timeout, whatever the responses.
   */
  lemma DeliverBeforeShutdown(c: Configuration)
    requires c.callback.attempts > 0 && c.identity.attempts > 0
    ensures WithinShutdown(c.callback, c.shutdownTimeout) && WithinShutdown(c.identity, c.shutdownTimeout) <==>
              && c.callback.initialBackoff <= c.callback.maximumBackoff
                 && c.identity.initialBackoff <= c.identity.maximumBackoff
              && DeliveriesFit(c.callback, c.shutdownTimeout) && DeliveriesFit(c.identity, c.shutdownTimeout)
  {
    DeliveriesFitExactly(c.callback, c.shutdownTimeout);
    DeliveriesFitExactly(c.identity, c.shutdownTimeout);
  }
}
