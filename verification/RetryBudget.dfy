/** The retry budget of src/retry_budget.rs: two lists of clock readings, pruned when a retry is asked for,
    that cap the retries of a sliding window at a percentage of its requests. */
module RetryBudget {
  import opened Prelude

  /** `percent` is the configured budget, `window` the window's length in seconds. */
  datatype Policy = Policy(percent: real, window: real)

  /** The request and retry readings kept under the mutex. */
  datatype Budget = Budget(requests: seq<real>, retries: seq<real>)

  const EMPTY := Budget([], [])

  /** The readings after `cutoff`, in order: what `retain` keeps. */
  function Fresh(readings: seq<real>, cutoff: real): seq<real> {
    if readings == [] then []
    else
      var last := readings[|readings| - 1];
      var rest := Fresh(readings[..|readings| - 1], cutoff);
      if last > cutoff then rest + [last] else rest
  }

  /** The retries that `total` requests in the window pay for; a negative amount converts to zero. */
  function Quota(policy: Policy, total: nat): nat {
    Max(Ceil(total as real * policy.percent / 100.0), 0)
  }

  /** How a request for a retry is answered: refused, granted without a record because the window holds no
      request, or granted and recorded. */
  datatype Verdict = Refused | Unrecorded | Recorded

  function Judge(policy: Policy, b: Budget, now: real): Verdict {
    var cutoff := now - policy.window;
    var total := |Fresh(b.requests, cutoff)|;
    if total == 0 then Unrecorded
    else if |Fresh(b.retries, cutoff)| < Quota(policy, total) then Recorded
    else Refused
  }

  function Pruned(policy: Policy, b: Budget, now: real): Budget {
    Budget(Fresh(b.requests, now - policy.window), Fresh(b.retries, now - policy.window))
  }

  /** A section under the mutex: a new request, or a request for a retry with its two readings. */
  datatype Event = Request(now: real) | Retry(now: real, stamp: real)

  function End(event: Event): real {
    match event
    case Request(now) => now
    case Retry(_, stamp) => stamp
  }

  function After(policy: Policy, b: Budget, event: Event): Budget {
    match event
    case Request(now) => b.(requests := b.requests + [now])
    case Retry(now, stamp) =>
      var kept := Pruned(policy, b, now);
      if Judge(policy, b, now) == Recorded then kept.(retries := kept.retries + [stamp]) else kept
  }

  class RetryBudget {
    var requests: seq<real>
    var retries: seq<real>
    const policy: Policy

    function View(): Budget reads this { Budget(requests, retries) }

    constructor (policy: Policy)
      ensures this.policy == policy && View() == EMPTY
    {
      this.policy := policy;
      requests, retries := [], [];
    }

    method RecordRequest(now: real)
      modifies this
      ensures View() == After(policy, old(View()), Request(now))
    {
      requests := requests + [now];
    }

    /** `now` is the reading behind the cutoff, `stamp` the reading that a recorded grant leaves. */
    method AllowRetry(now: real, stamp: real) returns (allowed: bool)
      modifies this
      ensures allowed <==> Judge(policy, old(View()), now) != Refused
      ensures View() == After(policy, old(View()), Retry(now, stamp))
    {
      var cutoff := now - policy.window;
      requests := Fresh(requests, cutoff);
      retries := Fresh(retries, cutoff);
      var total := |requests|;
      if total == 0 {
        return true;
      }
      if |retries| < Quota(policy, total) {
        retries := retries + [stamp];
        allowed := true;
      } else {
        allowed := false;
      }
    }
  }

  // --- Runs ---

  /** The clock never goes back, within an event or from one to the next. */
  ghost predicate Ordered(events: seq<Event>) {
    && (forall k | 0 <= k < |events| :: events[k].now <= End(events[k]))
    && (forall i, j | 0 <= i < j < |events| :: End(events[i]) <= events[j].now)
  }

  /** The pruned lists after the first `k` events. */
  function Replay(policy: Policy, events: seq<Event>, k: nat): Budget
    requires k <= |events|
  {
    if k == 0 then EMPTY else After(policy, Replay(policy, events, k - 1), events[k - 1])
  }

  /** What an event adds to lists that nobody prunes. */
  function Logged(policy: Policy, logs: Budget, event: Event): Budget {
    match event
    case Request(now) => logs.(requests := logs.requests + [now])
    case Retry(now, stamp) =>
      if Judge(policy, logs, now) == Recorded then logs.(retries := logs.retries + [stamp]) else logs
  }

  /** Every request, and every recorded grant, that the first `k` events ever had. */
  function Logs(policy: Policy, events: seq<Event>, k: nat): Budget
    requires k <= |events|
  {
    if k == 0 then EMPTY else Logged(policy, Logs(policy, events, k - 1), events[k - 1])
  }
}
