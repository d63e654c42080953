/** The token-bucket rate limiter of the map API
 *  (apps/web/lib/gis/observability.ts): a bucket per key holding at most 20
 *  tokens, refilled by one token per whole 6 seconds elapsed, one token
 *  spent per admitted call. The clock (`Date.now()`, in milliseconds) is a
 *  parameter. */
module GisRateLimit {
  import opened Wrappers

  const RefillRate: int := 10
  const MaxTokens: int := 20

  /** Milliseconds per token: `60000 / REFILL_RATE`. */
  const RefillInterval: int := 60000 / RefillRate

  datatype Bucket = Bucket(tokens: int, lastRefill: int)

  predicate InRange(b: Bucket) {
    0 <= b.tokens <= MaxTokens
  }

  /** `Math.floor(elapsed / 6000)` tokens are added, capped at 20, and the
   *  refill time moves only when at least one token was added. */
  function Refill(b: Bucket, now: int): (r: Bucket)
    ensures (now - b.lastRefill) / RefillInterval > 0 ==> r.lastRefill == now
    ensures (now - b.lastRefill) / RefillInterval <= 0 ==> r == b
    ensures InRange(b) ==> InRange(r) && r.tokens >= b.tokens
  {
    var refill := (now - b.lastRefill) / RefillInterval;
    if refill > 0 then
      Bucket(if MaxTokens < b.tokens + refill then MaxTokens else b.tokens + refill, now)
    else b
  }

  /** One `checkRateLimit` call on a key's bucket (`None`: a key not seen
   *  before, which starts full): the bucket afterwards and whether the call
   *  is admitted. */
  function Step(b: Option<Bucket>, now: int): (r: (Bucket, bool))
    ensures var refilled := Refill(if b.None? then Bucket(MaxTokens, now) else b.value, now);
      && (r.1 <==> refilled.tokens > 0)
      && r.0 == (if r.1 then Bucket(refilled.tokens - 1, refilled.lastRefill) else refilled)
    ensures (b.None? || InRange(b.value)) ==> InRange(r.0)
  {
    var entry := if b.None? then Bucket(MaxTokens, now) else b.value;
    var refilled := Refill(entry, now);
    if refilled.tokens > 0 then (Bucket(refilled.tokens - 1, refilled.lastRefill), true)
    else (refilled, false)
  }

  class RateLimiter {
    /** `RATE_LIMITS`. */
    var limits: map<string, Bucket>

    ghost predicate Valid()
      reads this
    {
      forall k :: k in limits ==> InRange(limits[k])
    }

    constructor()
      ensures Valid() && limits == map[]
    {
      limits := map[];
    }

    function Get(key: string): Option<Bucket>
      reads this
    {
      if key in limits then Some(limits[key]) else None
    }

    /** `checkRateLimit`: creates a full bucket for a new key, refills it,
     *  and admits the call by taking a token if one is left. Other keys'
     *  buckets do not change. */
    method CheckRateLimit(key: string, now: int) returns (allowed: bool)
      modifies this
      requires Valid()
      ensures Valid()
      ensures allowed == Step(old(Get(key)), now).1
      ensures limits == old(limits)[key := Step(old(Get(key)), now).0]
    {
      if key !in limits {
        limits := limits[key := Bucket(MaxTokens, now)];
      }
      var entry := limits[key];
      var elapsed := now - entry.lastRefill;
      var refill := elapsed / RefillInterval;
      if refill > 0 {
        entry := Bucket(if MaxTokens < entry.tokens + refill then MaxTokens else entry.tokens + refill, now);
        limits := limits[key := entry];
      }
      if entry.tokens > 0 {
        entry := entry.(tokens := entry.tokens - 1);
        limits := limits[key := entry];
        return true;
      }
      return false;
    }
  }

  // ---------------------------------------------------------------- lemmas

  /** The number of calls admitted among `n` calls in a row at the same
   *  instant. */
  function Admitted(b: Option<Bucket>, now: int, n: nat): nat
    decreases n
  {
    if n == 0 then 0
    else
      var (next, ok) := Step(b, now);
      (if ok then 1 else 0) + Admitted(Some(next), now, n - 1)
  }

  /** A bucket already refilled at `now` gains nothing more at `now`. */
  lemma RefillSettles(b: Bucket, now: int)
    ensures Refill(Refill(b, now), now) == Refill(b, now)
  {
  }

  /** From a settled bucket, calls at the same instant admit no more than
   *  the tokens it holds. */
  lemma {:induction false} SettledAdmitsAtMostTokens(b: Bucket, now: int, n: nat)
    requires Refill(b, now) == b
    ensures Admitted(Some(b), now, n) <= if b.tokens > 0 then b.tokens else 0
    decreases n
  {
    if n > 0 {
      var (next, ok) := Step(Some(b), now);
      assert Refill(next, now) == next;
      SettledAdmitsAtMostTokens(next, now, n - 1);
    }
  }

  /** Without the clock moving, at most 20 calls in a row for one key are
   *  admitted, whatever the key's bucket held. */
  lemma {:induction false} AtMostTwentyInARow(b: Option<Bucket>, now: int, n: nat)
    requires b.None? || InRange(b.value)
    ensures Admitted(b, now, n) <= MaxTokens
  {
    if n > 0 {
      var entry := if b.None? then Bucket(MaxTokens, now) else b.value;
      var refilled := Refill(entry, now);
      RefillSettles(entry, now);
      var (next, ok) := Step(b, now);
      assert Refill(next, now) == next;
      SettledAdmitsAtMostTokens(next, now, n - 1);
    }
  }

  /** A new key is admitted and left with 19 tokens. */
  lemma NewKeyStartsFull(now: int)
    ensures Step(None, now) == (Bucket(MaxTokens - 1, now), true)
  {
  }

  /** An empty bucket stays closed until a whole refill interval has
   *  passed. */
  lemma EmptyBucketWaits(b: Bucket, now: int)
    requires b.tokens == 0 && b.lastRefill <= now < b.lastRefill + RefillInterval
    ensures Step(Some(b), now) == (b, false)
  {
  }
}
