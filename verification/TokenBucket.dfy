/**
 The rate limiter of sandbox/broker.py over real arithmetic: a call is accepted
 exactly when every window that ends with it has room for it.
 */
module TokenBucket {

  datatype Bucket = Bucket(capacity: real, rate: real, tokens: real, lastRefill: real)

  function Minimum(x: real, y: real): real {
    if x < y then x else y
  }

  /** Tokens earned in a span of time. */
  function Earned(rate: real, span: real): real {
    rate * span
  }

  /** The refill of `consume`; a clock that did not advance changes nothing. */
  function Refilled(b: Bucket, now: real): Bucket {
    if now - b.lastRefill > 0.0 then
      b.(tokens := Minimum(b.capacity, b.tokens + Earned(b.rate, now - b.lastRefill)), lastRefill := now)
    else b
  }

  function Consumed(b: Bucket, now: real): (Bucket, bool) {
    var r := Refilled(b, now);
    if r.tokens < 1.0 then (r, false) else (r.(tokens := r.tokens - 1.0), true)
  }

  /** The object of the program, whose one method rewrites its fields. */
  class Limiter {
    const capacity: real
    const rate: real
    var tokens: real
    var lastRefill: real

    function State(): Bucket
      reads this
    {
      Bucket(capacity, rate, tokens, lastRefill)
    }

    constructor (requests: nat, period: real, now: real)
      requires requests > 0 && period > 0.0
      ensures State() == Fresh(requests, period, now)
    {
      capacity, tokens := requests as real, requests as real;
      rate := requests as real / period;
      lastRefill := now;
    }

    method Consume(now: real) returns (ok: bool)
      modifies this
      ensures (State(), ok) == Consumed(old(State()), now)
    {
      var elapsed := now - lastRefill;
      if elapsed > 0.0 {
        tokens := Minimum(capacity, tokens + Earned(rate, elapsed));
        lastRefill := now;
      }
      if tokens < 1.0 {
        return false;
      }
      tokens := tokens - 1.0;
      ok := true;
    }
  }

  function Fresh(requests: nat, period: real, now: real): Bucket
    requires period > 0.0
  {
    Bucket(requests as real, requests as real / period, requests as real, now)
  }

  // ---------------------------------------------------------------- whole runs

  /** The bucket before call `k` of a run with the given call times. */
  function Before(b: Bucket, times: seq<real>, k: nat): Bucket
    requires k <= |times|
  {
    if k == 0 then b else Consumed(Before(b, times, k - 1), times[k - 1]).0
  }

  predicate Accepted(b: Bucket, times: seq<real>, k: nat)
    requires k < |times|
  {
    Consumed(Before(b, times, k), times[k]).1
  }

  /** Accepted calls among `j .. k - 1`. */
  function AcceptedIn(b: Bucket, times: seq<real>, j: nat, k: nat): nat
    requires j <= k <= |times|
  {
    if j == k then 0 else AcceptedIn(b, times, j, k - 1) + if Accepted(b, times, k - 1) then 1 else 0
  }

  /** What the window from call `j` to the moment of call `k` allows. */
  function WindowLimit(b: Bucket, times: seq<real>, j: nat, k: nat): real
    requires j <= k < |times|
  {
    b.capacity + Earned(b.rate, times[k] - times[j])
  }

  predicate Monotone(b: Bucket, times: seq<real>) {
    && (times != [] ==> b.lastRefill <= times[0])
    && forall i, j | 0 <= i <= j < |times| :: times[i] <= times[j]
  }

  /** Full at the start, like a bucket just made. */
  predicate StartsFull(b: Bucket) {
    b.tokens == b.capacity && b.rate >= 0.0
  }

  /** The tokens available to call `k`, after the refill. */
  function Available(b: Bucket, times: seq<real>, k: nat): real
    requires k < |times|
  {
    Refilled(Before(b, times, k), times[k]).tokens
  }

  lemma EarnedIsMonotone(rate: real, x: real, y: real)
    requires rate >= 0.0 && x <= y
    ensures Earned(rate, x) <= Earned(rate, y) && Earned(rate, 0.0) == 0.0
  {
  }

  lemma EarnedAdds(rate: real, x: real, y: real)
    ensures Earned(rate, x + y) == Earned(rate, x) + Earned(rate, y)
  {
  }

  lemma RefillGains(c: Bucket, now: real)
    requires c.tokens <= c.capacity && c.lastRefill <= now && c.rate >= 0.0
    ensures Refilled(c, now) == c.(tokens := Minimum(c.capacity, c.tokens + Earned(c.rate, now - c.lastRefill)), lastRefill := now)
  {
    EarnedIsMonotone(c.rate, 0.0, now - c.lastRefill);
  }

  lemma {:induction false} BucketsAdvance(b: Bucket, times: seq<real>, k: nat)
    requires StartsFull(b) && Monotone(b, times) && k < |times|
    ensures var c := Before(b, times, k);
            && c.capacity == b.capacity && c.rate == b.rate && c.tokens <= c.capacity && c.lastRefill <= times[k]
            && (k > 0 ==> c.lastRefill == times[k - 1])
            && (k == 0 ==> c == b)
  {
    if k > 0 {
      BucketsAdvance(b, times, k - 1);
      RefillGains(Before(b, times, k - 1), times[k - 1]);
    }
  }

  /** Between two calls the bucket gains what the clock gives and loses what the first one took, up to the brim. */
  lemma AvailableStep(b: Bucket, times: seq<real>, k: nat)
    requires StartsFull(b) && Monotone(b, times) && 0 < k < |times|
    ensures Available(b, times, k)
            == Minimum(b.capacity, Available(b, times, k - 1) - Took(b, times, k - 1) + Earned(b.rate, times[k] - times[k - 1]))
  {
    BucketsAdvance(b, times, k);
    RefillGains(Before(b, times, k), times[k]);
  }

  function Took(b: Bucket, times: seq<real>, k: nat): real
    requires k < |times|
  {
    if Accepted(b, times, k) then 1.0 else 0.0
  }

  /** What the window that starts at call `j` leaves to call `k`. */
  function Slack(b: Bucket, times: seq<real>, j: nat, k: nat): real
    requires j <= k < |times|
  {
    WindowLimit(b, times, j, k) - AcceptedIn(b, times, j, k) as real
  }

  lemma SlackStep(b: Bucket, times: seq<real>, j: nat, k: nat)
    requires j < k < |times|
    ensures Slack(b, times, j, k) == Slack(b, times, j, k - 1) - Took(b, times, k - 1)
                                          + Earned(b.rate, times[k] - times[k - 1])
  {
    EarnedAdds(b.rate, times[k - 1] - times[j], times[k] - times[k - 1]);
  }

  /** Min-plus: what is available is the least slack of all windows that end here, and one of them attains it. */
  lemma {:induction false} AvailableIsLeastSlack(b: Bucket, times: seq<real>, k: nat) returns (tight: nat)
    requires StartsFull(b) && Monotone(b, times) && k < |times|
    ensures forall j: nat | j <= k :: Available(b, times, k) <= Slack(b, times, j, k)
    ensures tight <= k && Available(b, times, k) == Slack(b, times, tight, k)
  {
    if k == 0 {
      RefillGains(b, times[0]);
      EarnedIsMonotone(b.rate, 0.0, times[0] - b.lastRefill);
      return 0;
    }
    var before := AvailableIsLeastSlack(b, times, k - 1);
    AvailableStep(b, times, k);
    var gain := Earned(b.rate, times[k] - times[k - 1]);
    EarnedIsMonotone(b.rate, 0.0, 0.0);
    forall j: nat | j < k
      ensures Slack(b, times, j, k) == Slack(b, times, j, k - 1) - Took(b, times, k - 1) + gain
    {
      SlackStep(b, times, j, k);
    }
    tight := if Available(b, times, k) == b.capacity then k else before;
  }

  /** Call `k` is accepted if and only if every window that ends with it still has room for one. */
  lemma AcceptedIffEveryWindowAllows(b: Bucket, times: seq<real>, k: nat)
    requires StartsFull(b) && Monotone(b, times) && k < |times|
    ensures Accepted(b, times, k) <==>
            forall j: nat | j <= k :: AcceptedIn(b, times, j, k) as real + 1.0 <= WindowLimit(b, times, j, k)
  {
    var tight := AvailableIsLeastSlack(b, times, k);
    assert Accepted(b, times, k) <==> Available(b, times, k) >= 1.0;
    forall j: nat | j <= k && Accepted(b, times, k)
      ensures AcceptedIn(b, times, j, k) as real + 1.0 <= WindowLimit(b, times, j, k)
    {
      assert Available(b, times, k) <= Slack(b, times, j, k);
    }
    assert !Accepted(b, times, k) ==> AcceptedIn(b, times, tight, k) as real + 1.0 > WindowLimit(b, times, tight, k);
  }

  /** So no window ever holds more than the burst and what its length earns. */
  lemma {:induction false} EveryWindowBounded(b: Bucket, times: seq<real>, j: nat, k: nat)
    requires StartsFull(b) && b.capacity >= 0.0 && Monotone(b, times) && j <= k < |times|
    ensures AcceptedIn(b, times, j, k + 1) as real <= WindowLimit(b, times, j, k)
    decreases k
  {
    EarnedIsMonotone(b.rate, 0.0, times[k] - times[j]);
    if Accepted(b, times, k) {
      AcceptedIffEveryWindowAllows(b, times, k);
      assert AcceptedIn(b, times, j, k) as real + 1.0 <= WindowLimit(b, times, j, k);
    } else if j < k {
      EveryWindowBounded(b, times, j, k - 1);
      EarnedIsMonotone(b.rate, times[k - 1] - times[j], times[k] - times[j]);
    }
  }

  /** The bucket that the program makes is one of those the theorems speak of. */
  lemma FreshStartsFull(requests: nat, period: real, now: real)
    requires requests > 0 && period > 0.0
    ensures var b := Fresh(requests, period, now);
            StartsFull(b) && b.capacity == requests as real && b.rate * period == requests as real && b.lastRefill == now
  {
  }
}
