/** What one never-evicted bucket means: its answers as a function of the times of its checks. */
module TokenBucketHistory {
  import opened Prelude
  import opened RateLimiter

  ghost predicate Rising(times: seq<real>) {
    forall i, j | 0 <= i <= j < |times| :: times[i] <= times[j]
  }

  /** What the rate earns between two readings. */
  function Gain(limits: Limits, from: real, to: real): real {
    limits.rate * (to - from)
  }

  lemma GainSplit(limits: Limits, from: real, mid: real, to: real)
    ensures Gain(limits, from, to) == Gain(limits, from, mid) + Gain(limits, mid, to)
  {
  }

  lemma GainGrows(limits: Limits, from: real, to: real)
    requires limits.rate >= 0.0 && from <= to
    ensures Gain(limits, from, to) >= 0.0
  {
  }

  lemma RefillGain(limits: Limits, b: Bucket, now: real)
    requires b.lastRefill <= now
    ensures Refilled(limits, b, now).tokens == RealMin(b.tokens + Gain(limits, b.lastRefill, now), limits.burst as real)
  {
  }

  /** The tokens that the check at `times[k]` finds after its refill. */
  function Level(limits: Limits, times: seq<real>, k: nat): real
    requires k < |times|
    decreases k, 0
  {
    if k == 0 then limits.burst as real
    else Refilled(limits, Bucket(Left(limits, times, k - 1), times[k - 1]), times[k]).tokens
  }

  /** The tokens that the check at `times[k]` leaves behind. */
  function Left(limits: Limits, times: seq<real>, k: nat): real
    requires k < |times|
    decreases k, 2
  {
    if Granted(limits, times, k) then Level(limits, times, k) - 1.0 else Level(limits, times, k)
  }

  predicate Granted(limits: Limits, times: seq<real>, k: nat)
    requires k < |times|
    decreases k, 1
  {
    Level(limits, times, k) >= 1.0
  }

  /** The number of checks granted among those with index in [i, j). */
  function Count(limits: Limits, times: seq<real>, i: nat, j: nat): nat
    requires i <= j <= |times|
  {
    if i == j then 0
    else Count(limits, times, i, j - 1) + if Granted(limits, times, j - 1) then 1 else 0
  }

  /** What check `k` may still take if the bucket was full at check `j`. */
  function Allowance(limits: Limits, times: seq<real>, j: nat, k: nat): real
    requires j <= k < |times|
  {
    limits.burst as real + Gain(limits, times[j], times[k]) - Count(limits, times, j, k) as real
  }

  lemma LevelStep(limits: Limits, times: seq<real>, k: nat)
    requires Rising(times) && 0 < k < |times|
    ensures Level(limits, times, k)
         == RealMin(Left(limits, times, k - 1) + Gain(limits, times[k - 1], times[k]), limits.burst as real)
  {
    RefillGain(limits, Bucket(Left(limits, times, k - 1), times[k - 1]), times[k]);
  }

  lemma {:induction false} AllowanceStep(limits: Limits, times: seq<real>, j: nat, k: nat)
    requires Rising(times) && j < k < |times|
    ensures Allowance(limits, times, j, k) - Allowance(limits, times, j, k - 1)
         == Gain(limits, times[k - 1], times[k]) - (if Granted(limits, times, k - 1) then 1.0 else 0.0)
  {
    GainSplit(limits, times[j], times[k - 1], times[k]);
  }

  /** The level is the least allowance over all earlier checks: the cap of the lazy refill, unrolled. */
  lemma {:induction false} LevelIsLeastAllowance(limits: Limits, times: seq<real>, k: nat) returns (tight: nat)
    requires Rising(times) && k < |times|
    ensures forall j | 0 <= j <= k :: Level(limits, times, k) <= Allowance(limits, times, j, k)
    ensures tight <= k && Level(limits, times, k) == Allowance(limits, times, tight, k)
  {
    assert Allowance(limits, times, k, k) == limits.burst as real;
    tight := k;
    if k > 0 {
      LevelStep(limits, times, k);
      var earlier := LevelIsLeastAllowance(limits, times, k - 1);
      forall j | 0 <= j < k
        ensures Level(limits, times, k) <= Allowance(limits, times, j, k)
      {
        AllowanceStep(limits, times, j, k);
      }
      AllowanceStep(limits, times, earlier, k);
      if Level(limits, times, k) < limits.burst as real {
        tight := earlier;
      }
    }
  }

  /** The closed form of the bucket: check `k` passes exactly when, counted from every check `j` up to it,
      the grants so far and this one stay within the burst plus what the rate has earned since. */
  lemma {:induction false} GrantedIff(limits: Limits, times: seq<real>, k: nat)
    requires Rising(times) && k < |times|
    ensures Granted(limits, times, k) <==>
            forall j | 0 <= j <= k ::
              Count(limits, times, j, k) as real + 1.0 <= limits.burst as real + Gain(limits, times[j], times[k])
  {
    var tight := LevelIsLeastAllowance(limits, times, k);
    if Granted(limits, times, k) {
      forall j | 0 <= j <= k
        ensures Count(limits, times, j, k) as real + 1.0 <= limits.burst as real + Gain(limits, times[j], times[k])
      {
        assert Level(limits, times, k) <= Allowance(limits, times, j, k);
      }
    } else {
      assert Allowance(limits, times, tight, k) < 1.0;
    }
  }

  /** No stretch of checks passes more than the burst plus the rate times its length. */
  lemma {:induction false} GrantsBounded(limits: Limits, times: seq<real>, i: nat, j: nat)
    requires Rising(times) && limits.rate >= 0.0 && i < j <= |times|
    ensures Count(limits, times, i, j) as real <= limits.burst as real + Gain(limits, times[i], times[j - 1])
  {
    var k := j - 1;
    if Granted(limits, times, k) {
      GrantedIff(limits, times, k);
      assert Count(limits, times, i, k) as real + 1.0 <= limits.burst as real + Gain(limits, times[i], times[k]);
    } else if i == k {
      GainGrows(limits, times[i], times[k]);
    } else {
      GrantsBounded(limits, times, i, k);
      GainGrows(limits, times[k - 1], times[k]);
      GainSplit(limits, times[i], times[k - 1], times[k]);
    }
  }

  /** Tokens never go negative and never exceed the burst. */
  lemma {:induction false} TokensInRange(limits: Limits, times: seq<real>, k: nat)
    requires limits.rate >= 0.0 && k < |times|
    ensures 0.0 <= Left(limits, times, k) <= Level(limits, times, k) <= limits.burst as real
  {
    if k > 0 {
      TokensInRange(limits, times, k - 1);
      assert Elapsed(times[k - 1], times[k]) * limits.rate >= 0.0;
    }
  }

  /** Later checks do not change earlier answers. */
  lemma {:induction false} LaterChecksDoNotMatter(limits: Limits, times: seq<real>, more: seq<real>, k: nat)
    requires k < |times|
    ensures Level(limits, times + more, k) == Level(limits, times, k)
    ensures Left(limits, times + more, k) == Left(limits, times, k)
  {
    if k > 0 {
      LaterChecksDoNotMatter(limits, times, more, k - 1);
      assert (times + more)[k - 1] == times[k - 1] && (times + more)[k] == times[k];
    }
  }
}
