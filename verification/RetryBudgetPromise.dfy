/** README.md promises retries as a percentage of the requests in a sliding window. The code rounds the percentage up
    per window and lets every retry through that finds no request in its window. This module counts all the retries
    let through, and says for which percentages the promise holds: of the window at each grant, of the window at every
    instant, and of the totals over a whole run. */
module RetryBudgetPromise {
  import opened Prelude
  import opened RetryBudget
  import opened RetryBudgetHistory

  predicate Allows(policy: Policy, events: seq<Event>, k: nat)
    requires k < |events|
  {
    events[k].Retry? && Judge(policy, Replay(policy, events, k), events[k].now) != Refused
  }

  /** When the retries let through among the first `k` events went out, recorded or not. */
  function LetThrough(policy: Policy, events: seq<Event>, k: nat): seq<real>
    requires k <= |events|
  {
    if k == 0 then []
    else if Allows(policy, events, k - 1) then LetThrough(policy, events, k - 1) + [End(events[k - 1])]
    else LetThrough(policy, events, k - 1)
  }

  /** The retries let through so far are at most the configured percentage of the requests so far. */
  ghost predicate KeepsPercentage(policy: Policy, events: seq<Event>, k: nat)
    requires k <= |events|
  {
    |LetThrough(policy, events, k)| as real <= Share(policy, |Logs(policy, events, k).requests|)
  }

  /** The same of those in the window that ends at `now`. */
  ghost predicate WindowKeeps(policy: Policy, events: seq<Event>, k: nat, now: real)
    requires k <= |events|
  {
    var cutoff := now - policy.window;
    |Fresh(LetThrough(policy, events, k), cutoff)| as real
      <= Share(policy, |Fresh(Logs(policy, events, k).requests, cutoff)|)
  }

  /** Every retry has an earlier request inside its window, as when requests record themselves and are over in
      less than a window. */
  ghost predicate Paced(policy: Policy, events: seq<Event>) {
    forall k | 0 <= k < |events| && events[k].Retry? ::
      exists i | 0 <= i < k :: events[i].Request? && events[i].now > events[k].now - policy.window
  }

  /** Of such runs the logs tell every retry let through. */
  lemma {:induction false} PacedLogs(policy: Policy, events: seq<Event>, k: nat)
    requires Ordered(events) && Paced(policy, events) && k <= |events|
    ensures LetThrough(policy, events, k) == Logs(policy, events, k).retries
  {
    hide Judge, Replay, Ordered;
    if k > 0 {
      PacedLogs(policy, events, k - 1);
      if events[k - 1].Retry? {
        SameVerdict(policy, events, k - 1);
        UnrecordedIff(policy, events, k - 1);
      }
    }
  }

  /** One request followed by `retries` requests for a retry, all at once. */
  function Burst(retries: nat): seq<Event> {
    [Request(0.0)] + seq(retries, i => Retry(0.0, 0.0))
  }

  lemma {:induction false} FreshAll(readings: seq<real>, cutoff: real)
    requires forall i | 0 <= i < |readings| :: readings[i] > cutoff
    ensures Fresh(readings, cutoff) == readings
  {
    if readings != [] {
      FreshAll(readings[..|readings| - 1], cutoff);
    }
  }

  function Zeros(k: nat): seq<real> {
    seq(k, i => 0.0)
  }

  lemma OneRequestPaysFor(policy: Policy, k: nat)
    requires policy.window > 0.0
    ensures Judge(policy, Budget([0.0], Zeros(k)), 0.0) == if k < Factor(policy) then Recorded else Refused
  {
    hide Fresh;
    FreshAll([0.0], 0.0 - policy.window);
    FreshAll(Zeros(k), 0.0 - policy.window);
    assert 1.0 * policy.percent / 100.0 == policy.percent / 100.0;
  }

  /** The rounded-up quota of a single request is spent in full. */
  lemma {:induction false} BurstLogs(policy: Policy, k: nat)
    requires policy.window > 0.0 && k <= Factor(policy)
    ensures Logs(policy, Burst(Factor(policy)), k + 1) == Budget([0.0], Zeros(k))
  {
    hide Factor, Judge;
    var events := Burst(Factor(policy));
    if k > 0 {
      BurstLogs(policy, k - 1);
      OneRequestPaysFor(policy, k - 1);
      assert events[k] == Retry(0.0, 0.0);
      assert Zeros(k - 1) + [0.0] == Zeros(k);
    } else {
      assert Logs(policy, events, 0) == EMPTY;
      assert events[0] == Request(0.0);
    }
  }

  /** The percentage is 0, 100, 200, ... */
  predicate WholeMultiple(policy: Policy) {
    policy.percent == 100.0 * Factor(policy) as real
  }

  lemma FactorOf(policy: Policy)
    ensures Share(policy, 1) == policy.percent / 100.0
    ensures WholeMultiple(policy) <==> Factor(policy) as real <= policy.percent / 100.0
  {
    assert 1 as real * policy.percent == policy.percent;
  }

  lemma ShareOfWhole(policy: Policy, requests: nat)
    requires WholeMultiple(policy)
    ensures Share(policy, requests) >= (Factor(policy) * requests) as real
  {
    FactorOf(policy);
    var one := policy.percent / 100.0;
    assert Share(policy, requests) == requests as real * one;
    assert requests as real * (one - Factor(policy) as real) >= 0.0;
  }

  // --- Totals over a run ---

  /** Over runs whose retries each have a request in their window, the totals keep the percentage exactly when it is a
      whole multiple of one hundred. */
  lemma {:induction false} PercentageKeptIff(policy: Policy)
    requires policy.window > 0.0
    ensures (forall events, k: nat | Ordered(events) && Paced(policy, events) && k <= |events| ::
               KeepsPercentage(policy, events, k))
            <==> WholeMultiple(policy)
  {
    hide Logs, LetThrough, Factor, Share, WholeMultiple;
    FactorOf(policy);
    if WholeMultiple(policy) {
      forall events, k: nat | Ordered(events) && Paced(policy, events) && k <= |events|
        ensures KeepsPercentage(policy, events, k)
      {
        PacedLogs(policy, events, k);
        RetriesWithinFactor(policy, events, k);
        ShareOfWhole(policy, |Logs(policy, events, k).requests|);
      }
    } else {
      var events := Burst(Factor(policy));
      BurstLogs(policy, Factor(policy));
      assert Ordered(events);
      assert Paced(policy, events) by { assert events[0] == Request(0.0); }
      PacedLogs(policy, events, Factor(policy) + 1);
      assert !KeepsPercentage(policy, events, Factor(policy) + 1);
    }
  }

  // --- The sliding window ---

  /** The window of every retry that is let through keeps the percentage. */
  ghost predicate GrantsKeep(policy: Policy, events: seq<Event>) {
    forall k | 0 <= k < |events| && Allows(policy, events, k) :: WindowKeeps(policy, events, k + 1, events[k].now)
  }

  /** So does the window at every instant. */
  ghost predicate AlwaysKeeps(policy: Policy, events: seq<Event>) {
    forall k: nat, now: real | k <= |events| && (k > 0 ==> End(events[k - 1]) <= now) ::
      WindowKeeps(policy, events, k, now)
  }

  /** In the window of a grant the retries stay within the share of whole multiples. */
  lemma GrantKeeps(policy: Policy, events: seq<Event>, k: nat)
    requires Ordered(events) && Paced(policy, events) && k < |events| && Allows(policy, events, k)
    requires WholeMultiple(policy)
    ensures WindowKeeps(policy, events, k + 1, events[k].now)
  {
    hide Fresh, Quota, Logs, LetThrough, Share, Factor, WholeMultiple, Ordered, Paced;
    PacedLogs(policy, events, k + 1);
    PacedRecorded(policy, events, k);
    GrantWithinQuota(policy, events, k);
    var requests := |Fresh(Logs(policy, events, k + 1).requests, events[k].now - policy.window)|;
    QuotaBounds(policy, requests);
    ShareOfWhole(policy, requests);
  }

  lemma PacedRecorded(policy: Policy, events: seq<Event>, k: nat)
    requires Ordered(events) && Paced(policy, events) && k < |events| && Allows(policy, events, k)
    ensures Judge(policy, Replay(policy, events, k), events[k].now) == Recorded
  {
    hide Judge, Replay, Ordered;
    UnrecordedIff(policy, events, k);
  }

  lemma BurstIsRun(policy: Policy, n: nat)
    requires policy.window > 0.0
    ensures |Burst(n)| == n + 1 && Ordered(Burst(n)) && Paced(policy, Burst(n))
  {
    assert Burst(n)[0] == Request(0.0);
  }

  lemma BurstWindow(policy: Policy, n: nat)
    requires policy.window > 0.0
    ensures Fresh([0.0], 0.0 - policy.window) == [0.0]
    ensures Fresh(Zeros(n), 0.0 - policy.window) == Zeros(n) && |Zeros(n)| == n
  {
    hide Fresh;
    FreshAll([0.0], 0.0 - policy.window);
    FreshAll(Zeros(n), 0.0 - policy.window);
  }

  /** The last grant of a burst overdraws its window unless the percentage is whole, or too small for any grant. */
  lemma BurstOverdraws(policy: Policy)
    requires policy.window > 0.0 && 0 < Factor(policy) && !WholeMultiple(policy)
    ensures !GrantsKeep(policy, Burst(Factor(policy)))
  {
    hide Factor, Share, Judge, Logs, LetThrough, Fresh, WholeMultiple, WindowKeeps;
    var events, n := Burst(Factor(policy)), Factor(policy);
    BurstIsRun(policy, n);
    BurstLogs(policy, n - 1);
    BurstLogs(policy, n);
    OneRequestPaysFor(policy, n - 1);
    SameVerdict(policy, events, n);
    assert Allows(policy, events, n);
    PacedLogs(policy, events, n + 1);
    FactorOf(policy);
    BurstWindow(policy, n);
    Overdrawn(policy, events, n + 1, events[n].now);
  }

  lemma Overdrawn(policy: Policy, events: seq<Event>, k: nat, now: real)
    requires k <= |events|
    requires var cutoff := now - policy.window;
             Share(policy, |Fresh(Logs(policy, events, k).requests, cutoff)|)
               < |Fresh(LetThrough(policy, events, k), cutoff)| as real
    ensures !WindowKeeps(policy, events, k, now)
  {
  }

  /** The window of every retry that is let through keeps the percentage, in all runs whose retries each have a request
      in their window, exactly when it is a whole multiple of one hundred (or negative, which grants nothing). */
  lemma WindowKeptAtGrantsIff(policy: Policy)
    requires policy.window > 0.0
    ensures (forall events | Ordered(events) && Paced(policy, events) :: GrantsKeep(policy, events))
       <==> WholeMultiple(policy) || policy.percent < 0.0
  {
    hide Factor, WholeMultiple, GrantsKeep, Paced, Ordered;
    FactorOf(policy);
    if WholeMultiple(policy) || policy.percent < 0.0 {
      forall events | Ordered(events) && Paced(policy, events)
        ensures GrantsKeep(policy, events)
      {
        AllGrantsKeep(policy, events);
      }
    } else {
      FactorPositive(policy);
      BurstIsRun(policy, Factor(policy));
      BurstOverdraws(policy);
    }
  }

  lemma AllGrantsKeep(policy: Policy, events: seq<Event>)
    requires Ordered(events) && Paced(policy, events) && (WholeMultiple(policy) || policy.percent < 0.0)
    ensures GrantsKeep(policy, events)
  {
    hide Factor, WholeMultiple, WindowKeeps, Allows, Ordered, Paced;
    forall k | 0 <= k < |events| && Allows(policy, events, k)
      ensures WindowKeeps(policy, events, k + 1, events[k].now)
    {
      if policy.percent < 0.0 {
        NothingGranted(policy, events, k);
      } else {
        GrantKeeps(policy, events, k);
      }
    }
  }

  /** A negative percentage pays for no retry. */
  lemma NothingGranted(policy: Policy, events: seq<Event>, k: nat)
    requires Ordered(events) && Paced(policy, events) && k < |events| && policy.percent <= 0.0
    ensures !Allows(policy, events, k)
  {
    hide Replay, Fresh, Ordered, Paced;
    if Allows(policy, events, k) {
      PacedRecorded(policy, events, k);
      NoQuota(policy, |Fresh(Replay(policy, events, k).requests, events[k].now - policy.window)|);
    }
  }

  lemma NoQuota(policy: Policy, total: nat)
    requires policy.percent <= 0.0
    ensures Quota(policy, total) == 0
  {
    assert total as real * policy.percent <= 0.0;
  }

  lemma FactorPositive(policy: Policy)
    requires policy.percent >= 0.0 && !WholeMultiple(policy)
    ensures Factor(policy) > 0
  {
  }

  lemma {:induction false} NothingGoesThrough(policy: Policy, events: seq<Event>, k: nat)
    requires Ordered(events) && Paced(policy, events) && k <= |events| && policy.percent <= 0.0
    ensures LetThrough(policy, events, k) == []
  {
    hide Ordered, Paced, Allows;
    if k > 0 {
      NothingGoesThrough(policy, events, k - 1);
      if Allows(policy, events, k - 1) {
        NothingGranted(policy, events, k - 1);
      }
    }
  }

  /** A retry half a window after its request: the request leaves the window first. */
  function Trailing(policy: Policy): seq<Event> {
    [Request(0.0), Retry(policy.window / 2.0, policy.window / 2.0)]
  }

  lemma TrailingGranted(policy: Policy)
    requires policy.window > 0.0 && policy.percent > 0.0
    ensures var events := Trailing(policy);
            && Ordered(events) && Paced(policy, events)
            && LetThrough(policy, events, 2) == [policy.window / 2.0] && Logs(policy, events, 2).requests == [0.0]
  {
    hide Fresh;
    var events, half := Trailing(policy), policy.window / 2.0;
    assert events[0] == Request(0.0) && events[1] == Retry(half, half);
    FreshAll([0.0], half - policy.window);
    FreshNone([], half - policy.window);
    assert Replay(policy, events, 0) == EMPTY && Logs(policy, events, 0) == EMPTY;
    assert Replay(policy, events, 1) == Budget([0.0], []) && Logs(policy, events, 1) == Budget([0.0], []);
    assert LetThrough(policy, events, 0) == [] && LetThrough(policy, events, 1) == [];
    assert Quota(policy, 1) > 0 by { QuotaPositive(policy); }
    assert Allows(policy, events, 1);
  }

  lemma QuotaPositive(policy: Policy)
    requires policy.percent > 0.0
    ensures Quota(policy, 1) > 0
  {
    assert 1 as real * policy.percent / 100.0 > 0.0;
  }

  lemma TrailingOverdraws(policy: Policy)
    requires policy.window > 0.0 && policy.percent > 0.0
    ensures !WindowKeeps(policy, Trailing(policy), 2, policy.window)
  {
    hide Logs, LetThrough, Fresh;
    TrailingGranted(policy);
    FreshAll([policy.window / 2.0], 0.0);
    FreshNone([0.0], 0.0);
    assert policy.window - policy.window == 0.0;
  }

  lemma RequestOverdraws(policy: Policy)
    requires policy.window > 0.0 && policy.percent < 0.0
    ensures Ordered([Request(0.0)]) && Paced(policy, [Request(0.0)]) && !WindowKeeps(policy, [Request(0.0)], 1, 0.0)
  {
    hide Fresh;
    var events := [Request(0.0)];
    FreshAll([0.0], 0.0 - policy.window);
    FreshNone([], 0.0 - policy.window);
    assert LetThrough(policy, events, 0) == [] && Logs(policy, events, 0) == EMPTY;
    assert LetThrough(policy, events, 1) == [] && Logs(policy, events, 1).requests == [0.0];
    FactorOf(policy);
  }

  /** At every instant, in all those runs, the window keeps the percentage only when it is 0: a request leaves the
      window before the retry that it paid for. */
  lemma WindowKeptAlwaysIff(policy: Policy)
    requires policy.window > 0.0
    ensures (forall events | Ordered(events) && Paced(policy, events) :: AlwaysKeeps(policy, events))
       <==> policy.percent == 0.0
  {
    hide Ordered, Paced, WindowKeeps;
    if policy.percent == 0.0 {
      forall events, k: nat, now: real | Ordered(events) && Paced(policy, events) && k <= |events|
        ensures WindowKeeps(policy, events, k, now)
      {
        NothingGoesThrough(policy, events, k);
        NothingKeeps(policy, events, k, now);
      }
    } else if policy.percent > 0.0 {
      TrailingGranted(policy);
      TrailingOverdraws(policy);
      assert End(Trailing(policy)[1]) <= policy.window;
      assert !AlwaysKeeps(policy, Trailing(policy));
    } else {
      RequestOverdraws(policy);
      assert End([Request(0.0)][0]) <= 0.0;
      assert !AlwaysKeeps(policy, [Request(0.0)]);
    }
  }

  lemma NothingKeeps(policy: Policy, events: seq<Event>, k: nat, now: real)
    requires k <= |events| && LetThrough(policy, events, k) == [] && policy.percent == 0.0
    ensures WindowKeeps(policy, events, k, now)
  {
    hide Logs, LetThrough;
    assert |Fresh([], now - policy.window)| == 0;
  }

  // --- Retries that find no request in their window ---

  /** When a request made at zero has left the window. */
  function Later(policy: Policy): real {
    if policy.window >= 0.0 then policy.window else 0.0
  }

  /** One request, and `retries` requests for a retry once it has left the window. */
  function Straggling(policy: Policy, retries: nat): seq<Event> {
    [Request(0.0)] + seq(retries, i => Retry(Later(policy), Later(policy)))
  }

  /** None of them is refused and none is counted. */
  lemma {:induction false} StragglersGoThrough(policy: Policy, n: nat, k: nat)
    requires k <= n
    ensures |LetThrough(policy, Straggling(policy, n), k + 1)| == k
    ensures |Logs(policy, Straggling(policy, n), k + 1).requests| == 1
  {
    hide Judge, Replay;
    var events := Straggling(policy, n);
    if k > 0 {
      StragglersGoThrough(policy, n, k - 1);
      assert events[k].Retry?;
      UnrecordedIff(policy, events, k);
    } else {
      assert events[0] == Request(0.0);
      assert LetThrough(policy, events, 0) == [] && Logs(policy, events, 0) == EMPTY;
    }
  }

  /** Over all runs no percentage, however large or small, is ever kept. */
  lemma PercentageNeverKept(policy: Policy)
    ensures exists events, k: nat :: Ordered(events) && k <= |events| && !KeepsPercentage(policy, events, k)
  {
    hide LetThrough, Logs, Factor;
    var n := Factor(policy) + 1;
    var events := Straggling(policy, n);
    StragglersGoThrough(policy, n, n);
    FactorOf(policy);
    AboveShare(policy);
    assert |events| == n + 1 && Ordered(events);
    assert !KeepsPercentage(policy, events, n + 1);
  }

  lemma AboveShare(policy: Policy)
    ensures Share(policy, 1) < (Factor(policy) + 1) as real
  {
  }
}
