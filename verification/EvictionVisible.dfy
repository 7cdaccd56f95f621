/** The converse of eviction being invisible: a schedule of plain, uninterrupted calls of `check` that
    notices eviction whenever the burst exceeds what five idle minutes earn back. */
module EvictionVisible {
  import opened Prelude
  import opened RateLimiter
  import opened TokenBucketHistory
  import opened Eviction

  /** One call of `check` with its three clock readings. */
  datatype Call = Call(ip: Ip, swept: real, created: real, now: real)

  /** The steps of the first `k` calls, made one after the other on a fresh limiter. */
  function StepsOf(calls: seq<Call>, k: nat): seq<Step>
    requires k <= |calls|
  {
    if k == 0 then []
    else
      StepsOf(calls, k - 1)
      + (if (k - 1) % WORD % CLEANUP_PERIOD == 0 then [Evict(calls[k - 1].swept)] else [])
      + [Acquire(calls[k - 1].ip, calls[k - 1].created, calls[k - 1].now)]
  }

  /** Every check of the run gets the answer of a private bucket that is never evicted. */
  ghost predicate Invisible(limits: Limits, calls: seq<Call>) {
    var steps := StepsOf(calls, |calls|);
    Ordered(steps) ==> Answers(limits, steps, |steps|) == AloneAnswers(limits, steps, |steps|)
  }

  /** Longer runs extend shorter ones. */
  lemma {:induction false} PrefixRun(limits: Limits, a: seq<Step>, b: seq<Step>, ip: Ip, k: nat)
    requires k <= |a|
    ensures Replay(limits, a + b, k) == Replay(limits, a, k)
    ensures Answers(limits, a + b, k) == Answers(limits, a, k)
    ensures OwnTimes(a + b, ip, k) == OwnTimes(a, ip, k)
  {
    if k > 0 {
      PrefixRun(limits, a, b, ip, k - 1);
      assert (a + b)[k - 1] == a[k - 1];
    }
  }

  /** A call sweeps when its count says so, then acquires: the steps of `Check`. */
  lemma {:induction false} CallStep(limits: Limits, calls: seq<Call>, k: nat)
    requires 0 < k <= |calls|
    ensures var before, steps, call := StepsOf(calls, k - 1), StepsOf(calls, k), calls[k - 1];
            var m := Swept((k - 1) % WORD, Replay(limits, before, |before|), call.swept);
            var acquire := Acquire(call.ip, call.created, call.now);
            && Replay(limits, steps, |steps|) == After(limits, m, acquire)
            && Answers(limits, steps, |steps|) == Answers(limits, before, |before|) + [Grants(limits, m, acquire)]
  {
    var before, steps, call := StepsOf(calls, k - 1), StepsOf(calls, k), calls[k - 1];
    var acquire := Acquire(call.ip, call.created, call.now);
    if (k - 1) % WORD % CLEANUP_PERIOD == 0 {
      assert steps == before + [Evict(call.swept), acquire];
      PrefixRun(limits, before, [Evict(call.swept), acquire], call.ip, |before|);
      assert steps[|before|] == Evict(call.swept);
      assert Answers(limits, steps, |before| + 1) == Answers(limits, before, |before|);
    } else {
      assert steps == before + [acquire];
      PrefixRun(limits, before, [acquire], call.ip, |before|);
    }
  }

  // --- The first thousand calls ---

  lemma {:induction false} OneSweep(calls: seq<Call>, k: nat)
    requires k <= |calls| && k <= 1000
    ensures |StepsOf(calls, k)| == (if k == 0 then 0 else k + 1)
    ensures forall i | 0 < i < |StepsOf(calls, k)| :: StepsOf(calls, k)[i].Acquire?
  {
    if k > 0 {
      OneSweep(calls, k - 1);
      assert (k - 1) % WORD == k - 1;
    }
  }

  /** For every burst: the first thousand calls on a fresh limiter never notice eviction, because only the first of
      them sweeps, and it finds no bucket. */
  lemma FirstThousandInvisible(limits: Limits, calls: seq<Call>)
    requires limits.rate >= 0.0 && |calls| <= 1000
    ensures Invisible(limits, calls)
  {
    var steps := StepsOf(calls, |calls|);
    OneSweep(calls, |calls|);
    if Ordered(steps) {
      NothingEvicted(limits, steps, |steps|);
    }
  }

  // --- The schedule: spend the burst, idle for five minutes, spend it again ---

  function Time(burst: nat, i: nat): real {
    if i < 1000 * burst then 0.0 else IDLE_SECONDS
  }

  function SpendTwice(burst: nat): seq<Call> {
    seq(1001 * burst, i requires 0 <= i => Call(0, Time(burst, i), Time(burst, i), Time(burst, i)))
  }

  function Trues(answers: seq<bool>): nat {
    if answers == [] then 0
    else Trues(answers[..|answers| - 1]) + if answers[|answers| - 1] then 1 else 0
  }

  lemma TruesPush(answers: seq<bool>, b: bool)
    ensures Trues(answers + [b]) == Trues(answers) + if b then 1 else 0
  {
    assert (answers + [b])[..|answers|] == answers;
  }

  /** The bucket of the only client after `k` calls. */
  function Expected(burst: nat, k: nat): Buckets {
    if k == 0 then map[]
    else if k <= 1000 * burst then map[0 := Bucket(Max(burst - k, 0) as real, 0.0)]
    else map[0 := Bucket((1001 * burst - k) as real, IDLE_SECONDS)]
  }

  /** The buckets that call `k` finds: only the sweep of call 1000 x burst drops the bucket. */
  function Found(burst: nat, k: nat): Buckets
    requires k > 0
  {
    if k - 1 == 1000 * burst then map[] else Expected(burst, k - 1)
  }

  lemma SweepSpent(burst: U32, k: nat)
    requires 0 < k <= 1001 * burst
    ensures Swept((k - 1) % WORD, Expected(burst, k - 1), Time(burst, k - 1)) == Found(burst, k)
  {
    assert (k - 1) % WORD == k - 1;
    if k - 1 == 1000 * burst {
      assert (1000 * burst) % CLEANUP_PERIOD == 0;
      assert Evicted(Expected(burst, k - 1), IDLE_SECONDS) == map[];
    } else {
      assert Evicted(Expected(burst, k - 1), Time(burst, k - 1)) == Expected(burst, k - 1);
    }
  }

  /** No time passes within either half, so each call spends one whole token while there is one. */
  lemma SpendOne(limits: Limits, k: nat)
    requires 0 < k <= 1001 * limits.burst
    ensures var now := Time(limits.burst, k - 1);
            var acquire := Acquire(0, now, now);
            && After(limits, Found(limits.burst, k), acquire) == Expected(limits.burst, k)
            && (Grants(limits, Found(limits.burst, k), acquire) <==> k <= limits.burst || k > 1000 * limits.burst)
  {
    var now := Time(limits.burst, k - 1);
    var entry := Entry(limits, Found(limits.burst, k), 0, now);
    assert entry.lastRefill == now;
    assert 0.0 * limits.rate == 0.0;
    assert Refilled(limits, entry, now) == entry;
  }

  /** The grants of the first `k` calls. */
  function GrantedBy(burst: nat, k: nat): nat {
    if k <= 1000 * burst then Min(k, burst) else Max(k - 999 * burst, 0)
  }

  lemma CountSpent(limits: Limits, k: nat, before: seq<bool>, after: seq<bool>)
    requires 0 < k <= 1001 * limits.burst && Trues(before) == GrantedBy(limits.burst, k - 1)
    requires var now := Time(limits.burst, k - 1);
             after == before + [Grants(limits, Found(limits.burst, k), Acquire(0, now, now))]
    ensures Trues(after) == GrantedBy(limits.burst, k)
  {
    SpendOne(limits, k);
    TruesPush(before, after[|before|]);
  }

  /** The limiter forgets the spent bucket in the sweep of call 1000 x burst, so it grants the burst twice. */
  lemma {:induction false} LimiterGrantsTwice(limits: Limits, k: nat)
    requires 0 < limits.burst && k <= 1001 * limits.burst
    ensures var steps := StepsOf(SpendTwice(limits.burst), k);
            && Replay(limits, steps, |steps|) == Expected(limits.burst, k)
            && Trues(Answers(limits, steps, |steps|)) == GrantedBy(limits.burst, k)
  {
    if k > 0 {
      LimiterGrantsTwice(limits, k - 1);
      var calls := SpendTwice(limits.burst);
      var before, steps := StepsOf(calls, k - 1), StepsOf(calls, k);
      SpendCall(limits, calls, k);
      CountSpent(limits, k, Answers(limits, before, |before|), Answers(limits, steps, |steps|));
    }
  }

  lemma SpendCall(limits: Limits, calls: seq<Call>, k: nat)
    requires calls == SpendTwice(limits.burst) && 0 < k <= |calls|
    requires var before := StepsOf(calls, k - 1);
             Replay(limits, before, |before|) == Expected(limits.burst, k - 1)
    ensures var before, steps, now := StepsOf(calls, k - 1), StepsOf(calls, k), Time(limits.burst, k - 1);
            && Replay(limits, steps, |steps|) == Expected(limits.burst, k)
            && Answers(limits, steps, |steps|)
               == Answers(limits, before, |before|) + [Grants(limits, Found(limits.burst, k), Acquire(0, now, now))]
  {
    CallStep(limits, calls, k);
    SweepSpent(limits.burst, k);
    SpendOne(limits, k);
  }

  ghost predicate Timely(steps: seq<Step>, now: real) {
    && Ordered(steps)
    && (forall i | 0 <= i < |steps| :: 0.0 <= steps[i].now <= now && (steps[i].Acquire? ==> steps[i].ip == 0))
  }

  lemma TimelyPush(steps: seq<Step>, was: real, step: Step)
    requires Timely(steps, was) && 0.0 <= was <= Start(step) <= step.now && (step.Acquire? ==> step.ip == 0)
    ensures Timely(steps + [step], step.now)
  {
  }

  /** The schedule's clock is in order. */
  lemma {:induction false} SpendTwiceOrdered(burst: nat, k: nat)
    requires k <= 1001 * burst
    ensures Timely(StepsOf(SpendTwice(burst), k), if k == 0 then 0.0 else Time(burst, k - 1))
  {
    if k > 0 {
      var before, now := StepsOf(SpendTwice(burst), k - 1), Time(burst, k - 1);
      SpendTwiceOrdered(burst, k - 1);
      var was := if k == 1 then 0.0 else Time(burst, k - 2);
      if (k - 1) % WORD % CLEANUP_PERIOD == 0 {
        TimelyPush(before, was, Evict(now));
        TimelyPush(before + [Evict(now)], now, Acquire(0, now, now));
      } else {
        TimelyPush(before, was, Acquire(0, now, now));
        assert before + [] == before;
      }
    }
  }

  /** A private bucket grants at most one burst and what five minutes earn. */
  lemma {:induction false} AloneCount(limits: Limits, steps: seq<Step>, k: nat)
    requires k <= |steps| && forall i | 0 <= i < |steps| :: steps[i].Acquire? ==> steps[i].ip == 0
    ensures var times := OwnTimes(steps, 0, k);
            Trues(AloneAnswers(limits, steps, k)) == Count(limits, times, 0, |times|)
  {
    if k > 0 {
      AloneCount(limits, steps, k - 1);
      if steps[k - 1].Acquire? {
        var times := OwnTimes(steps, 0, k - 1);
        TruesPush(AloneAnswers(limits, steps, k - 1), AloneGrants(limits, steps, k - 1));
        CountPrefix(limits, times, [steps[k - 1].now], |times|);
      }
    }
  }

  lemma {:induction false} CountPrefix(limits: Limits, times: seq<real>, more: seq<real>, k: nat)
    requires k <= |times|
    ensures Count(limits, times + more, 0, k) == Count(limits, times, 0, k)
  {
    if k > 0 {
      CountPrefix(limits, times, more, k - 1);
      LaterChecksDoNotMatter(limits, times, more, k - 1);
    }
  }

  lemma {:induction false} OwnTimesWithin(steps: seq<Step>, k: nat, lo: real, hi: real)
    requires k <= |steps| && forall i | 0 <= i < |steps| :: lo <= steps[i].now <= hi
    ensures forall i | 0 <= i < |OwnTimes(steps, 0, k)| :: lo <= OwnTimes(steps, 0, k)[i] <= hi
  {
    if k > 0 {
      OwnTimesWithin(steps, k - 1, lo, hi);
    }
  }

  lemma {:induction false} SpendTwiceIsSeen(limits: Limits)
    requires limits.rate >= 0.0 && limits.burst as real > IDLE_SECONDS * limits.rate
    ensures !Invisible(limits, SpendTwice(limits.burst))
  {
    assert limits.burst > 0 by { assert IDLE_SECONDS * limits.rate >= 0.0; }
    var n: nat := 1001 * limits.burst as nat;
    var steps := StepsOf(SpendTwice(limits.burst), n);
    LimiterGrantsTwice(limits, n);
    SpendTwiceOrdered(limits.burst, n);
    AloneAtMost(limits, steps);
    assert |SpendTwice(limits.burst)| == n;
  }

  /** A private bucket whose checks all come within five minutes. */
  lemma AloneAtMost(limits: Limits, steps: seq<Step>)
    requires limits.rate >= 0.0 && Ordered(steps)
    requires forall i | 0 <= i < |steps| :: steps[i].Acquire? ==> steps[i].ip == 0
    requires forall i | 0 <= i < |steps| :: 0.0 <= steps[i].now <= IDLE_SECONDS
    ensures Trues(AloneAnswers(limits, steps, |steps|)) as real
         <= limits.burst as real + Gain(limits, 0.0, IDLE_SECONDS)
  {
    AloneCount(limits, steps, |steps|);
    OwnTimesRise(steps, 0, |steps|);
    OwnTimesWithin(steps, |steps|, 0.0, IDLE_SECONDS);
    CountAtMost(limits, OwnTimes(steps, 0, |steps|));
  }

  lemma CountAtMost(limits: Limits, times: seq<real>)
    requires limits.rate >= 0.0 && Rising(times)
    requires forall i | 0 <= i < |times| :: 0.0 <= times[i] <= IDLE_SECONDS
    ensures Count(limits, times, 0, |times|) as real <= limits.burst as real + Gain(limits, 0.0, IDLE_SECONDS)
  {
    if times == [] {
      GainGrows(limits, 0.0, IDLE_SECONDS);
    } else {
      GrantsBounded(limits, times, 0, |times|);
      GainSplit(limits, 0.0, times[0], times[|times| - 1]);
      GainSplit(limits, 0.0, times[|times| - 1], IDLE_SECONDS);
      GainGrows(limits, 0.0, times[0]);
      GainGrows(limits, times[|times| - 1], IDLE_SECONDS);
    }
  }

  /** Sequential callers cannot notice eviction exactly when five idle minutes earn a whole burst back. */
  lemma {:induction false} EvictionInvisibleIff(limits: Limits)
    requires limits.rate >= 0.0
    ensures (forall calls :: Invisible(limits, calls)) <==> limits.burst as real <= 300.0 * limits.rate
  {
    if limits.burst as real <= 300.0 * limits.rate {
      forall calls
        ensures Invisible(limits, calls)
      {
        var steps := StepsOf(calls, |calls|);
        if Ordered(steps) {
          EvictionInvisible(limits, steps, |steps|);
        }
      }
    } else {
      SpendTwiceIsSeen(limits);
    }
  }
}
