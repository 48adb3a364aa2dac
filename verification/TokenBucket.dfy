/**
 * The token bucket of the admission control and the integer delay reported with a refusal.
 * Instants are seconds as reals; so are token counts.
 */
module TokenBucket {
  import opened Common

  datatype BucketState = BucketState(tokens: real, last: real)

  datatype TakeResult = Taken | Wait(secs: real)

  /** `saturating_duration_since`: zero when the clock is behind. */
  function Elapsed(since: real, now: real): real {
    MaxReal(now - since, 0.0)
  }

  /** The tokens that `secs` seconds earn. */
  function Earned(rate: real, secs: real): real {
    secs * rate
  }

  function Refill(b: BucketState, rate: real, burst: real, now: real): BucketState {
    BucketState(MinReal(b.tokens + Earned(rate, Elapsed(b.last, now)), burst), now)
  }

  /** What `Bucket::try_take` does to the bucket, and what it answers. */
  function TryTake(b: BucketState, rate: real, burst: real, n: real, now: real): (BucketState, TakeResult) {
    var full := Refill(b, rate, burst, now);
    if full.tokens >= n then
      (full.(tokens := full.tokens - n), Taken)
    else
      (full, Wait(if rate > 0.0 then (n - full.tokens) / rate else U32_MAX as real))
  }

  /** The whole seconds a refusal tells the client to wait; the cast to u64 saturates. */
  function RetryAfter(wait: real): (secs: nat)
    ensures 1 <= secs <= U64_MAX
    ensures wait <= U64_MAX as real ==> wait <= secs as real
  {
    var c := Max(Ceil(wait), 1);
    if c > U64_MAX then U64_MAX else c
  }

  class Bucket {
    var tokens: real
    var last: real
    const rate: real
    const burst: real
    /** The session this bucket belongs to; None for the global one. */
    ghost const owner: Option<string>

    ghost function State(): BucketState
      reads this
    {
      BucketState(tokens, last)
    }

    constructor (rate: real, burst: real, now: real, ghost owner: Option<string>)
      ensures State() == BucketState(burst, now) && this.owner == owner
      ensures this.rate == rate && this.burst == burst
    {
      this.tokens := burst;
      this.last := now;
      this.rate := rate;
      this.burst := burst;
      this.owner := owner;
    }

    /** Takes n tokens if they are there; otherwise answers how long to wait for them. */
    method Take(n: real, now: real) returns (r: TakeResult)
      modifies this
      ensures (State(), r) == old(TryTake(State(), rate, burst, n, now))
    {
      var elapsed := Elapsed(last, now);
      tokens := MinReal(tokens + Earned(rate, elapsed), burst);
      last := now;
      if tokens >= n {
        tokens := tokens - n;
        return Taken;
      }
      var deficit := n - tokens;
      r := Wait(if rate > 0.0 then deficit / rate else U32_MAX as real);
    }
  }

  /** A longer time earns no less; times add up. */
  lemma EarnedMonotone(rate: real, a: real, b: real)
    requires rate >= 0.0 && a <= b
    ensures Earned(rate, a) <= Earned(rate, b)
    ensures Earned(rate, 0.0) == 0.0
  {
  }

  lemma EarnedIs(rate: real, secs: real)
    ensures Earned(rate, secs) == secs * rate
  {
  }

  lemma EarnedSum(rate: real, a: real, b: real)
    ensures Earned(rate, a) + Earned(rate, b) == Earned(rate, a + b)
    ensures Earned(rate, 0.0) == 0.0
  {
  }

  /** Refilling at an intermediate instant earns at most what the time since then earns. */
  lemma RefillGrows(b: BucketState, rate: real, burst: real, t: real, now: real)
    requires rate >= 0.0 && b.last <= t <= now
    ensures Refill(b, rate, burst, now).tokens <= Refill(b, rate, burst, t).tokens + Earned(rate, now - t)
    ensures Refill(b, rate, burst, t).tokens <= Refill(b, rate, burst, now).tokens
  {
    hide Earned;
    EarnedSum(rate, t - b.last, now - t);
    EarnedMonotone(rate, 0.0, now - t);
    assert (t - b.last) + (now - t) == now - b.last;
  }

  /** After a refusal of an affordable request, waiting the announced delay lets the same request pass. */
  lemma WaitSuffices(b: BucketState, rate: real, burst: real, n: real, now: real, later: real)
    requires rate > 0.0 && n <= burst && b.last <= now
    requires TryTake(b, rate, burst, n, now).1.Wait?
    requires later >= now + TryTake(b, rate, burst, n, now).1.secs
    ensures TryTake(TryTake(b, rate, burst, n, now).0, rate, burst, n, later).1 == Taken
  {
    var full := Refill(b, rate, burst, now);
    var deficit := n - full.tokens;
    EarnedMonotone(rate, deficit / rate, later - now);
    assert Earned(rate, deficit / rate) == deficit;
  }

  /** A request above the burst is refused whatever the bucket holds. */
  lemma AboveBurstNeverTaken(b: BucketState, rate: real, burst: real, n: real, now: real)
    ensures n > burst ==> TryTake(b, rate, burst, n, now).1.Wait?
    ensures TryTake(BucketState(burst, now), rate, burst, n, now).1 == Taken <==> n <= burst
  {
  }
}
