/** Whole runs of the shared limiter: when eviction can be noticed, and what it can cost. */
module Eviction {
  import opened Prelude
  import opened RateLimiter
  import opened TokenBucketHistory

  /** The clock never goes back, within a step or from one step to the next. */
  ghost predicate Ordered(steps: seq<Step>) {
    && (forall k | 0 <= k < |steps| :: Start(steps[k]) <= steps[k].now)
    && (forall i, j | 0 <= i < j < |steps| :: steps[i].now <= Start(steps[j]))
  }

  /** The buckets after the first `k` steps of a run of the limiter, from its empty map. */
  function Replay(limits: Limits, steps: seq<Step>, k: nat): Buckets
    requires k <= |steps|
  {
    if k == 0 then map[] else After(limits, Replay(limits, steps, k - 1), steps[k - 1])
  }

  /** What the limiter answers to the checks among the first `k` steps. */
  function Answers(limits: Limits, steps: seq<Step>, k: nat): seq<bool>
    requires k <= |steps|
  {
    if k == 0 then []
    else if steps[k - 1].Evict? then Answers(limits, steps, k - 1)
    else Answers(limits, steps, k - 1) + [Grants(limits, Replay(limits, steps, k - 1), steps[k - 1])]
  }

  /** When client `ip` was checked, among the first `k` steps. */
  function OwnTimes(steps: seq<Step>, ip: Ip, k: nat): seq<real>
    requires k <= |steps|
  {
    if k == 0 then []
    else if steps[k - 1].Acquire? && steps[k - 1].ip == ip then OwnTimes(steps, ip, k - 1) + [steps[k - 1].now]
    else OwnTimes(steps, ip, k - 1)
  }

  /** What a bucket that is never evicted and that no other client shares answers to the check in step `k`. */
  predicate AloneGrants(limits: Limits, steps: seq<Step>, k: nat)
    requires k < |steps| && steps[k].Acquire?
  {
    var times := OwnTimes(steps, steps[k].ip, k) + [steps[k].now];
    Granted(limits, times, |times| - 1)
  }

  function AloneAnswers(limits: Limits, steps: seq<Step>, k: nat): seq<bool>
    requires k <= |steps|
  {
    if k == 0 then []
    else if steps[k - 1].Evict? then AloneAnswers(limits, steps, k - 1)
    else AloneAnswers(limits, steps, k - 1) + [AloneGrants(limits, steps, k - 1)]
  }

  // --- Refinement: slow bursts hide eviction ---

  /** How the map stands for the private bucket of `ip`: the same tokens, or nothing when the bucket has
      never been used or has been idle long enough to be full again. */
  ghost predicate Stands(limits: Limits, steps: seq<Step>, k: nat, ip: Ip)
    requires k <= |steps|
  {
    var m := Replay(limits, steps, k);
    var times := OwnTimes(steps, ip, k);
    if ip in m then
      times != [] && m[ip] == Bucket(Left(limits, times, |times| - 1), times[|times| - 1])
    else
      times == [] || times[|times| - 1] + IDLE_SECONDS <= steps[k - 1].now
  }

  lemma {:induction false} OwnTimesRise(steps: seq<Step>, ip: Ip, k: nat)
    requires Ordered(steps) && k <= |steps|
    ensures Rising(OwnTimes(steps, ip, k))
    ensures k == 0 ==> OwnTimes(steps, ip, k) == []
    ensures forall i | 0 <= i < |OwnTimes(steps, ip, k)| :: OwnTimes(steps, ip, k)[i] <= steps[k - 1].now
  {
    if k > 1 {
      assert steps[k - 2].now <= Start(steps[k - 1]) <= steps[k - 1].now;
    }
    if k > 0 {
      OwnTimesRise(steps, ip, k - 1);
    }
  }

  lemma IdleRefills(limits: Limits, b: Bucket, now: real)
    requires b.tokens >= 0.0 && b.lastRefill + IDLE_SECONDS <= now
    requires limits.rate >= 0.0 && limits.burst as real <= IDLE_SECONDS * limits.rate
    ensures Refilled(limits, b, now).tokens == limits.burst as real
  {
    var idle := Elapsed(b.lastRefill, now);
    assert (idle - IDLE_SECONDS) * limits.rate >= 0.0;
  }

  lemma FullStaysFull(limits: Limits, created: real, now: real)
    requires limits.rate >= 0.0
    ensures Refilled(limits, Full(limits, created), now).tokens == limits.burst as real
  {
    assert Elapsed(created, now) * limits.rate >= 0.0;
  }

  /** One check: the bucket found or inserted holds, after its refill, the private bucket's level. */
  lemma {:induction false} RefillMatches(limits: Limits, steps: seq<Step>, k: nat)
    requires limits.rate >= 0.0 && limits.burst as real <= IDLE_SECONDS * limits.rate
    requires Ordered(steps) && k < |steps| && steps[k].Acquire? && Stands(limits, steps, k, steps[k].ip)
    ensures var times := OwnTimes(steps, steps[k].ip, k) + [steps[k].now];
            var entry := Entry(limits, Replay(limits, steps, k), steps[k].ip, steps[k].created);
            Refilled(limits, entry, steps[k].now).tokens == Level(limits, times, |times| - 1)
  {
    var Acquire(ip, created, now) := steps[k];
    var past := OwnTimes(steps, ip, k);
    var times := past + [now];
    OwnTimesRise(steps, ip, k);
    if past != [] {
      assert past[|past| - 1] <= steps[k - 1].now <= Start(steps[k]) <= now;
      LaterChecksDoNotMatter(limits, past, [now], |past| - 1);
      TokensInRange(limits, past, |past| - 1);
      if ip !in Replay(limits, steps, k) {
        IdleRefills(limits, Bucket(Left(limits, past, |past| - 1), past[|past| - 1]), now);
        FullStaysFull(limits, created, now);
      }
    } else {
      FullStaysFull(limits, created, now);
    }
  }

  lemma {:induction false} StandsAlways(limits: Limits, steps: seq<Step>, k: nat, ip: Ip)
    requires limits.rate >= 0.0 && limits.burst as real <= IDLE_SECONDS * limits.rate
    requires Ordered(steps) && k <= |steps|
    ensures Stands(limits, steps, k, ip)
  {
    if k > 0 {
      StandsAlways(limits, steps, k - 1, ip);
      assert k > 1 ==> steps[k - 2].now <= Start(steps[k - 1]) <= steps[k - 1].now;
      if steps[k - 1].Acquire? && steps[k - 1].ip == ip {
        RefillMatches(limits, steps, k - 1);
      }
    }
  }

  /** With a burst the rate can earn back in five idle minutes, every run over any clients, sweeps and
      clock readings answers as if each client had a bucket of its own that is never evicted. */
  lemma {:induction false} EvictionInvisible(limits: Limits, steps: seq<Step>, k: nat)
    requires limits.rate >= 0.0 && limits.burst as real <= 300.0 * limits.rate
    requires Ordered(steps) && k <= |steps|
    ensures Answers(limits, steps, k) == AloneAnswers(limits, steps, k)
  {
    if k > 0 {
      EvictionInvisible(limits, steps, k - 1);
      if steps[k - 1].Acquire? {
        StandsAlways(limits, steps, k - 1, steps[k - 1].ip);
        RefillMatches(limits, steps, k - 1);
      }
    }
  }

  // --- Runs that evict nothing ---

  /** The map holds exactly the clients seen so far, each with the tokens of its private bucket. */
  ghost predicate Keeps(limits: Limits, steps: seq<Step>, k: nat, ip: Ip)
    requires k <= |steps|
  {
    var m, times := Replay(limits, steps, k), OwnTimes(steps, ip, k);
    if ip in m then times != [] && m[ip] == Bucket(Left(limits, times, |times| - 1), times[|times| - 1])
    else times == []
  }

  lemma {:induction false} KeptBucket(limits: Limits, steps: seq<Step>, k: nat)
    requires limits.rate >= 0.0 && Ordered(steps) && k < |steps| && steps[k].Acquire?
    requires Keeps(limits, steps, k, steps[k].ip)
    ensures var times := OwnTimes(steps, steps[k].ip, k) + [steps[k].now];
            var entry := Entry(limits, Replay(limits, steps, k), steps[k].ip, steps[k].created);
            Refilled(limits, entry, steps[k].now).tokens == Level(limits, times, |times| - 1)
  {
    var Acquire(ip, created, now) := steps[k];
    var past := OwnTimes(steps, ip, k);
    OwnTimesRise(steps, ip, k);
    if past != [] {
      assert past[|past| - 1] <= steps[k - 1].now <= Start(steps[k]) <= now;
      LaterChecksDoNotMatter(limits, past, [now], |past| - 1);
    } else {
      FullStaysFull(limits, created, now);
    }
  }

  /** A run that only sweeps the empty map answers as private buckets do, whatever the limits. */
  lemma {:induction false} NothingEvicted(limits: Limits, steps: seq<Step>, k: nat)
    requires limits.rate >= 0.0 && Ordered(steps) && k <= |steps|
    requires forall i | 0 < i < k :: steps[i].Acquire?
    ensures Answers(limits, steps, k) == AloneAnswers(limits, steps, k)
    ensures forall ip :: Keeps(limits, steps, k, ip)
  {
    if k > 0 {
      NothingEvicted(limits, steps, k - 1);
      if steps[k - 1].Acquire? {
        KeptBucket(limits, steps, k - 1);
      } else {
        assert Replay(limits, steps, 0) == map[];
      }
      forall ip
        ensures Keeps(limits, steps, k, ip)
      {
        assert Keeps(limits, steps, k - 1, ip);
      }
    }
  }

  // --- The price of eviction, whatever the limits ---

  /** The checks of `ip` that pass among the steps with index in [i, j). */
  function GrantsTo(limits: Limits, steps: seq<Step>, ip: Ip, i: nat, j: nat): nat
    requires i <= j <= |steps|
  {
    if i == j then 0
    else
      GrantsTo(limits, steps, ip, i, j - 1)
      + if steps[j - 1].Acquire? && steps[j - 1].ip == ip && Grants(limits, Replay(limits, steps, j - 1), steps[j - 1])
        then 1 else 0
  }

  /** What `lives` buckets in succession, the last one used at `last`, can have granted since `from`. */
  function Earned(limits: Limits, lives: nat, from: real, last: real): real {
    lives as real * limits.burst as real + Gain(limits, from, last)
  }

  lemma EarnedGrows(limits: Limits, lives: nat, from: real, last: real, now: real)
    requires limits.rate >= 0.0 && last <= now
    ensures Earned(limits, lives, from, now) == Earned(limits, lives, from, last) + Gain(limits, last, now)
    ensures Gain(limits, last, now) >= 0.0
    ensures Earned(limits, lives + 1, from, now) == Earned(limits, lives, from, now) + limits.burst as real
  {
    GainSplit(limits, from, last, now);
    GainGrows(limits, last, now);
  }

  lemma MoreLives(limits: Limits, lives: nat, more: nat, from: real, now: real)
    requires lives <= more
    ensures Earned(limits, lives, from, now) <= Earned(limits, more, from, now)
  {
    assert (more - lives) as real * limits.burst as real >= 0.0;
  }

  lemma LivesFit(lives: nat, used: real, span: real) returns (periods: nat)
    requires 0.0 <= used <= span && (lives > 0 ==> IDLE_SECONDS * (lives - 1) as real <= used)
    ensures periods == (span / IDLE_SECONDS).Floor && lives <= 1 + periods
  {
    assert span / IDLE_SECONDS >= 0.0;
    assert lives > 0 ==> (lives - 1) as real <= span / IDLE_SECONDS;
    periods := (span / IDLE_SECONDS).Floor;
  }

  /** `lives` buckets served the client since `from`, the last one at `last`; together they granted `grants`. */
  ghost predicate LivedOn(limits: Limits, m: Buckets, ip: Ip, from: real, now: real,
                          lives: nat, last: real, grants: nat)
  {
    if lives == 0 then grants == 0 && last == from <= now
    else
      && from + IDLE_SECONDS * (lives - 1) as real <= last <= now
      && grants as real <= Earned(limits, lives, from, last)
      && (if ip in m then m[ip].lastRefill == last && grants as real + m[ip].tokens <= Earned(limits, lives, from, last)
          else last + IDLE_SECONDS <= now)
  }

  /** A check of `ip` either spends from its current bucket or opens the next one. */
  lemma LivesAcquire(limits: Limits, m: Buckets, step: Step, from: real, now: real,
                     lives: nat, last: real, grants: nat) returns (lives': nat)
    requires limits.rate >= 0.0 && step.Acquire? && now <= step.created <= step.now
    requires LivedOn(limits, m, step.ip, from, now, lives, last, grants)
    ensures LivedOn(limits, After(limits, m, step), step.ip, from, step.now, lives', step.now,
                    grants + if Grants(limits, m, step) then 1 else 0)
  {
    var level := Refilled(limits, Entry(limits, m, step.ip, step.created), step.now).tokens;
    EarnedGrows(limits, lives, from, last, step.now);
    if lives == 0 || step.ip !in m {
      lives' := lives + 1;
      assert level <= limits.burst as real;
    } else {
      lives' := lives;
      RefillGain(limits, m[step.ip], step.now);
      assert level <= m[step.ip].tokens + Gain(limits, last, step.now);
    }
    assert grants as real + level <= Earned(limits, lives', from, step.now);
  }

  /** Follows the buckets that `ip` has used one after the other since step `i`: consecutive ones are
      five minutes apart, and each starts with at most one burst. */
  lemma {:induction false} Lives(limits: Limits, steps: seq<Step>, ip: Ip, i: nat, j: nat)
      returns (lives: nat, last: real)
    requires Ordered(steps) && limits.rate >= 0.0 && i < j <= |steps|
    ensures LivedOn(limits, Replay(limits, steps, j), ip, Start(steps[i]), steps[j - 1].now,
                    lives, last, GrantsTo(limits, steps, ip, i, j))
  {
    var from, step := Start(steps[i]), steps[j - 1];
    var now := Start(step);
    if i == j - 1 {
      lives, last := 0, from;
    } else {
      lives, last := Lives(limits, steps, ip, i, j - 1);
      assert steps[j - 2].now <= now <= step.now;
    }
    if step.Acquire? && step.ip == ip {
      var grants := GrantsTo(limits, steps, ip, i, j - 1);
      lives := LivesAcquire(limits, Replay(limits, steps, j - 1), step, from, now, lives, last, grants);
      last := step.now;
    }
  }

  /** However large the burst, one client passes at most one extra burst per five minutes that go by. */
  lemma {:induction false} EvictionCost(limits: Limits, steps: seq<Step>, ip: Ip, i: nat, j: nat)
    requires Ordered(steps) && limits.rate >= 0.0 && i < j <= |steps|
    ensures var from, now := Start(steps[i]), steps[j - 1].now;
            var periods := ((now - from) / 300.0).Floor;
            periods >= 0 && GrantsTo(limits, steps, ip, i, j) as real <= Earned(limits, 1 + periods, from, now)
  {
    var from, now := Start(steps[i]), steps[j - 1].now;
    var lives, last := Lives(limits, steps, ip, i, j);
    var periods := LivesFit(lives, last - from, now - from);
    EarnedGrows(limits, lives, from, last, now);
    MoreLives(limits, lives, 1 + periods, from, now);
  }
}
