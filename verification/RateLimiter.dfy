/** The per-IP limiter of src/rate_limiter.rs: a token bucket per client that refills lazily, a shared
    map of buckets, and the eviction of buckets that nobody touched for five minutes.

    Clock readings are parameters. A `Step` is one section under the `buckets` mutex. */
module RateLimiter {
  import opened Prelude

  type Ip = nat

  const IDLE_SECONDS := 300.0
  const CLEANUP_PERIOD := 1000

  datatype Bucket = Bucket(tokens: real, lastRefill: real)

  /** `burst` is the bucket's capacity, `rate` the tokens per second. */
  datatype Limits = Limits(burst: U32, rate: real)

  // --- One bucket, as a value ---

  function Full(limits: Limits, now: real): Bucket {
    Bucket(limits.burst as real, now)
  }

  function Refilled(limits: Limits, b: Bucket, now: real): Bucket {
    Bucket(RealMin(b.tokens + Elapsed(b.lastRefill, now) * limits.rate, limits.burst as real), now)
  }

  function Acquired(limits: Limits, b: Bucket, now: real): (Bucket, bool) {
    var full := Refilled(limits, b, now);
    if full.tokens >= 1.0 then (full.(tokens := full.tokens - 1.0), true) else (full, false)
  }

  // --- The shared map, as a value ---

  /** `Evict` is the body of `cleanup`; `Acquire` is the tail of `check`, where `created` is the reading a
      new bucket takes and `now` the reading of its refill. */
  datatype Step = Evict(now: real) | Acquire(ip: Ip, created: real, now: real)

  function Start(step: Step): real {
    match step
    case Evict(now) => now
    case Acquire(_, created, _) => created
  }

  type Buckets = map<Ip, Bucket>

  function Evicted(m: Buckets, now: real): Buckets {
    map ip | ip in m && m[ip].lastRefill > now - IDLE_SECONDS :: m[ip]
  }

  function Entry(limits: Limits, m: Buckets, ip: Ip, created: real): Bucket {
    if ip in m then m[ip] else Full(limits, created)
  }

  function After(limits: Limits, m: Buckets, step: Step): Buckets {
    match step
    case Evict(now) => Evicted(m, now)
    case Acquire(ip, created, now) => m[ip := Acquired(limits, Entry(limits, m, ip, created), now).0]
  }

  predicate Grants(limits: Limits, m: Buckets, step: Step) {
    step.Acquire? && Acquired(limits, Entry(limits, m, step.ip, step.created), step.now).1
  }

  /** The buckets once a call of `check` that drew `count` from the cleanup counter has swept, or not. */
  function Swept(count: nat, m: Buckets, swept: real): Buckets {
    if count % CLEANUP_PERIOD == 0 then Evicted(m, swept) else m
  }

  // --- The objects ---

  class TokenBucket {
    var tokens: real
    var lastRefill: real
    const limits: Limits

    function View(): Bucket reads this { Bucket(tokens, lastRefill) }

    constructor (limits: Limits, now: real)
      ensures this.limits == limits && View() == Full(limits, now)
    {
      this.limits := limits;
      tokens, lastRefill := limits.burst as real, now;
    }

    method TryAcquire(now: real) returns (granted: bool)
      modifies this
      ensures (View(), granted) == Acquired(limits, old(View()), now)
    {
      Refill(now);
      if tokens >= 1.0 {
        tokens := tokens - 1.0;
        granted := true;
      } else {
        granted := false;
      }
    }

    method Refill(now: real)
      modifies this
      ensures View() == Refilled(limits, old(View()), now)
    {
      var elapsed := Elapsed(lastRefill, now);
      tokens := RealMin(tokens + elapsed * limits.rate, limits.burst as real);
      lastRefill := now;
    }
  }

  class RateLimiter {
    var buckets: map<Ip, TokenBucket>
    var cleanupCounter: nat
    const limits: Limits
    const enabled: bool

    /** Every client has a bucket object of its own, and all buckets carry the limiter's limits. */
    ghost predicate Valid()
      reads this, buckets.Values
    {
      && cleanupCounter < WORD
      && (forall ip | ip in buckets :: buckets[ip].limits == limits)
      && (forall a, b | a in buckets && b in buckets && a != b :: buckets[a] != buckets[b])
    }

    function View(): Buckets
      reads `buckets, buckets.Values
    {
      map ip | ip in buckets :: buckets[ip].View()
    }

    constructor (limits: Limits)
      ensures Valid() && enabled && this.limits == limits && View() == map[] && cleanupCounter == 0
    {
      buckets, cleanupCounter := map[], 0;
      this.limits, enabled := limits, true;
    }

    constructor Disabled()
      ensures Valid() && !enabled && View() == map[]
    {
      buckets, cleanupCounter := map[], 0;
      limits, enabled := Limits(0, 0.0), false;
    }

    method Cleanup(now: real)
      requires Valid()
      modifies `buckets
      ensures Valid() && View() == After(limits, old(View()), Evict(now))
      ensures buckets.Values <= old(buckets.Values)
    {
      var cutoff := now - IDLE_SECONDS;
      buckets := map ip | ip in buckets && buckets[ip].lastRefill > cutoff :: buckets[ip];
    }

    /** The map entry of a client, inserted full when it is missing. */
    method FindOrInsert(ip: Ip, created: real) returns (bucket: TokenBucket)
      requires Valid()
      modifies `buckets
      ensures Valid() && ip in buckets && buckets[ip] == bucket
      ensures buckets == old(buckets)[ip := bucket]
      ensures bucket in old(buckets.Values) || fresh(bucket)
      ensures bucket.View() == Entry(limits, old(View()), ip, created)
    {
      if ip in buckets {
        bucket := buckets[ip];
      } else {
        bucket := new TokenBucket(limits, created);
        buckets := buckets[ip := bucket];
      }
    }

    /** The part of `check` under the lock: find or insert the bucket, then try it. */
    method AcquireFor(ip: Ip, created: real, now: real) returns (granted: bool)
      requires Valid()
      modifies `buckets, buckets.Values
      ensures Valid() && fresh(buckets.Values - old(buckets.Values))
      ensures View() == After(limits, old(View()), Acquire(ip, created, now))
      ensures granted == Grants(limits, old(View()), Acquire(ip, created, now))
    {
      var bucket := FindOrInsert(ip, created);
      granted := bucket.TryAcquire(now);
    }

    /** The whole of `check`, uninterrupted: `swept`, `created` and `now` are its clock readings. */
    method Check(ip: Ip, swept: real, created: real, now: real) returns (granted: bool)
      requires Valid()
      modifies this, buckets.Values
      ensures Valid() && fresh(buckets.Values - old(buckets.Values))
      ensures !enabled ==> granted && View() == old(View()) && cleanupCounter == old(cleanupCounter)
      ensures enabled ==>
        var m := Swept(old(cleanupCounter), old(View()), swept);
        && View() == After(limits, m, Acquire(ip, created, now))
        && granted == Grants(limits, m, Acquire(ip, created, now))
        && cleanupCounter == (old(cleanupCounter) + 1) % WORD
    {
      if !enabled {
        return true;
      }
      var count := cleanupCounter;
      cleanupCounter := (cleanupCounter + 1) % WORD;
      if count % CLEANUP_PERIOD == 0 {
        Cleanup(swept);
      }
      ghost var m := View();
      assert m == Swept(count, old(View()), swept);
      granted := AcquireFor(ip, created, now);
    }
  }
}
