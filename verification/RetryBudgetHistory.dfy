/** Whole runs of the retry budget: pruning changes no answer, and how far retries can amplify load. */
module RetryBudgetHistory {
  import opened Prelude
  import opened RetryBudget

  // --- Pruning refines the full logs ---

  lemma FreshPush(readings: seq<real>, last: real, cutoff: real)
    ensures Fresh(readings + [last], cutoff)
         == if last > cutoff then Fresh(readings, cutoff) + [last] else Fresh(readings, cutoff)
  {
    assert (readings + [last])[..|readings|] == readings;
  }

  lemma {:induction false} FreshTwice(readings: seq<real>, early: real, late: real)
    requires early <= late
    ensures Fresh(Fresh(readings, early), late) == Fresh(readings, late)
  {
    if readings != [] {
      var rest, last := readings[..|readings| - 1], readings[|readings| - 1];
      FreshTwice(rest, early, late);
      if last > early {
        FreshPush(Fresh(rest, early), last, late);
      }
    }
  }

  lemma {:induction false} FreshNone(readings: seq<real>, cutoff: real)
    requires forall i | 0 <= i < |readings| :: readings[i] <= cutoff
    ensures Fresh(readings, cutoff) == []
  {
    if readings != [] {
      FreshNone(readings[..|readings| - 1], cutoff);
    }
  }

  /** What was logged was logged in the past. */
  lemma {:induction false} LogsInPast(policy: Policy, events: seq<Event>, k: nat, now: real)
    requires Ordered(events) && k <= |events| && forall i | 0 <= i < k :: End(events[i]) <= now
    ensures forall i | 0 <= i < |Logs(policy, events, k).requests| :: Logs(policy, events, k).requests[i] <= now
    ensures forall i | 0 <= i < |Logs(policy, events, k).retries| :: Logs(policy, events, k).retries[i] <= now
  {
    hide Judge, Fresh;
    if k > 0 {
      LogsInPast(policy, events, k - 1, now);
    }
  }

  /** The pruned lists and the logs agree on every window that starts no earlier than any past one. */
  lemma {:induction false} PruningAgrees(policy: Policy, events: seq<Event>, k: nat, cutoff: real)
    requires Ordered(events) && k <= |events|
    requires forall i | 0 <= i < k :: events[i].Retry? ==> events[i].now - policy.window <= cutoff
    ensures Fresh(Replay(policy, events, k).requests, cutoff) == Fresh(Logs(policy, events, k).requests, cutoff)
    ensures Fresh(Replay(policy, events, k).retries, cutoff) == Fresh(Logs(policy, events, k).retries, cutoff)
    decreases k, 0
  {
    hide Fresh, Judge, After, Logged;
    if k > 0 {
      PruningAgrees(policy, events, k - 1, cutoff);
      if events[k - 1].Retry? {
        SameVerdict(policy, events, k - 1);
      }
      StepAgrees(policy, Replay(policy, events, k - 1), Logs(policy, events, k - 1), events[k - 1], cutoff);
    }
  }

  lemma StepAgrees(policy: Policy, b: Budget, logs: Budget, event: Event, cutoff: real)
    requires Fresh(b.requests, cutoff) == Fresh(logs.requests, cutoff)
    requires Fresh(b.retries, cutoff) == Fresh(logs.retries, cutoff)
    requires event.Retry? ==>
      event.now - policy.window <= cutoff && Judge(policy, b, event.now) == Judge(policy, logs, event.now)
    ensures Fresh(After(policy, b, event).requests, cutoff) == Fresh(Logged(policy, logs, event).requests, cutoff)
    ensures Fresh(After(policy, b, event).retries, cutoff) == Fresh(Logged(policy, logs, event).retries, cutoff)
  {
    hide Fresh, Quota;
    match event
    case Request(now) =>
      FreshPush(b.requests, now, cutoff);
      FreshPush(logs.requests, now, cutoff);
    case Retry(now, stamp) =>
      FreshTwice(b.requests, now - policy.window, cutoff);
      FreshTwice(b.retries, now - policy.window, cutoff);
      FreshPush(Fresh(b.retries, now - policy.window), stamp, cutoff);
      FreshPush(logs.retries, stamp, cutoff);
  }

  /** Every retry is judged as by a budget that forgets nothing. */
  lemma {:induction false} SameVerdict(policy: Policy, events: seq<Event>, k: nat)
    requires Ordered(events) && k < |events| && events[k].Retry?
    ensures Judge(policy, Replay(policy, events, k), events[k].now)
         == Judge(policy, Logs(policy, events, k), events[k].now)
    decreases k, 1
  {
    hide Fresh, Quota, Logs, Replay;
    EarlierEvents(events, k);
    PruningAgrees(policy, events, k, events[k].now - policy.window);
  }

  lemma EarlierEvents(events: seq<Event>, k: nat)
    requires Ordered(events) && k < |events|
    ensures forall i | 0 <= i < k :: events[i].now <= events[k].now
  {
    forall i | 0 <= i < k
      ensures events[i].now <= events[k].now
    {
      assert events[i].now <= End(events[i]) <= events[k].now;
    }
  }

  /** A recorded grant needs a request in a window that reaches back, so its stamp falls inside it. */
  lemma {:induction false} RecordedInWindow(policy: Policy, events: seq<Event>, k: nat)
    requires Ordered(events) && k < |events| && events[k].Retry?
    requires Judge(policy, Logs(policy, events, k), events[k].now) == Recorded
    ensures events[k].now - policy.window < events[k].now <= events[k].stamp
  {
    if policy.window <= 0.0 {
      var cutoff := events[k].now - policy.window;
      LogsInPast(policy, events, k, cutoff);
      FreshNone(Logs(policy, events, k).requests, cutoff);
    }
    assert events[k].now <= End(events[k]);
  }

  /** After a retry was judged, the lists hold exactly the part of the logs inside its window. */
  lemma {:induction false} PrunedIsWindow(policy: Policy, events: seq<Event>, k: nat)
    requires Ordered(events) && k < |events| && events[k].Retry?
    ensures var cutoff := events[k].now - policy.window;
            var b, logs := Replay(policy, events, k + 1), Logs(policy, events, k + 1);
            b == Budget(Fresh(logs.requests, cutoff), Fresh(logs.retries, cutoff))
  {
    hide Fresh, Quota;
    var cutoff := events[k].now - policy.window;
    var logs := Logs(policy, events, k);
    SameVerdict(policy, events, k);
    EarlierEvents(events, k);
    PruningAgrees(policy, events, k, cutoff);
    FreshPush(logs.retries, events[k].stamp, cutoff);
    if Judge(policy, logs, events[k].now) == Recorded {
      RecordedInWindow(policy, events, k);
    }
  }

  /** A recorded grant leaves no more retries in its window than the window's requests pay for. */
  lemma {:induction false} GrantWithinQuota(policy: Policy, events: seq<Event>, k: nat)
    requires Ordered(events) && k < |events| && events[k].Retry?
    requires Judge(policy, Replay(policy, events, k), events[k].now) == Recorded
    ensures var cutoff, logs := events[k].now - policy.window, Logs(policy, events, k + 1);
            0 < |Fresh(logs.retries, cutoff)| <= Quota(policy, |Fresh(logs.requests, cutoff)|)
  {
    hide Fresh, Quota, Logs;
    PrunedIsWindow(policy, events, k);
  }

  lemma {:induction false} FreshShrinks(readings: seq<real>, early: real, late: real)
    requires early <= late
    ensures |Fresh(readings, late)| <= |Fresh(readings, early)| <= |readings|
  {
    if readings != [] {
      FreshShrinks(readings[..|readings| - 1], early, late);
    }
  }

  /** At every instant the counted retries in the window are paid for by the window of some earlier grant. */
  lemma {:induction false} WindowPaidFor(policy: Policy, events: seq<Event>, k: nat, now: real)
    requires Ordered(events) && k <= |events| && (k > 0 ==> End(events[k - 1]) <= now)
    ensures var retries := |Fresh(Logs(policy, events, k).retries, now - policy.window)|;
            retries > 0 ==>
              exists j | 0 <= j < k && events[j].Retry? ::
                retries <= Quota(policy, |Fresh(Logs(policy, events, j + 1).requests, events[j].now - policy.window)|)
  {
    hide Fresh, Quota, Replay, Judge;
    if k > 0 {
      var logs, earlier := Logs(policy, events, k), Logs(policy, events, k - 1);
      assert k > 1 ==> End(events[k - 2]) <= events[k - 1].now <= End(events[k - 1]);
      if logs.retries == earlier.retries {
        WindowPaidFor(policy, events, k - 1, now);
      } else {
        SameVerdict(policy, events, k - 1);
        GrantWithinQuota(policy, events, k - 1);
        FreshShrinks(logs.retries, events[k - 1].now - policy.window, now - policy.window);
      }
    } else {
      FreshNone([], now - policy.window);
    }
  }

  lemma {:induction false} FreshHolds(readings: seq<real>, reading: real, cutoff: real)
    requires reading in readings && reading > cutoff
    ensures Fresh(readings, cutoff) != []
  {
    var last := |readings| - 1;
    if reading != readings[last] {
      FreshHolds(readings[..last], reading, cutoff);
    }
  }

  lemma {:induction false} LoggedRequests(policy: Policy, events: seq<Event>, k: nat, reading: real)
    requires k <= |events|
    ensures reading in Logs(policy, events, k).requests <==> exists i | 0 <= i < k :: events[i] == Request(reading)
  {
    hide Judge;
    if k > 0 {
      LoggedRequests(policy, events, k - 1, reading);
    }
  }

  /** A retry escapes the budget, granted and not counted, exactly when the last request came a whole window
      earlier or more, however small the percentage. */
  lemma {:induction false} UnrecordedIff(policy: Policy, events: seq<Event>, k: nat)
    requires Ordered(events) && k < |events| && events[k].Retry?
    ensures Judge(policy, Replay(policy, events, k), events[k].now) == Unrecorded
        <==> forall i | 0 <= i < k && events[i].Request? :: events[i].now <= events[k].now - policy.window
  {
    hide Fresh, Quota, Replay, Logs;
    var logs, cutoff := Logs(policy, events, k), events[k].now - policy.window;
    SameVerdict(policy, events, k);
    forall reading: real
      ensures reading in logs.requests <==> exists i | 0 <= i < k :: events[i] == Request(reading)
    {
      LoggedRequests(policy, events, k, reading);
    }
    if forall i | 0 <= i < k && events[i].Request? :: events[i].now <= cutoff {
      forall n | 0 <= n < |logs.requests|
        ensures logs.requests[n] <= cutoff
      {
        assert logs.requests[n] in logs.requests;
      }
      FreshNone(logs.requests, cutoff);
    } else {
      var i :| 0 <= i < k && events[i].Request? && events[i].now > cutoff;
      assert events[i] == Request(events[i].now);
      FreshHolds(logs.requests, events[i].now, cutoff);
    }
  }

  /** The requests among the first `k` events that came after `cutoff`. */
  function RequestsSince(events: seq<Event>, k: nat, cutoff: real): nat
    requires k <= |events|
  {
    if k == 0 then 0
    else RequestsSince(events, k - 1, cutoff) + if events[k - 1].Request? && events[k - 1].now > cutoff then 1 else 0
  }

  lemma {:induction false} LogsCountRequests(policy: Policy, events: seq<Event>, k: nat, cutoff: real)
    requires k <= |events|
    ensures |Fresh(Logs(policy, events, k).requests, cutoff)| == RequestsSince(events, k, cutoff)
  {
    hide Fresh, Judge;
    if k > 0 {
      LogsCountRequests(policy, events, k - 1, cutoff);
      if events[k - 1].Request? {
        FreshPush(Logs(policy, events, k - 1).requests, events[k - 1].now, cutoff);
      }
    } else {
      FreshNone([], cutoff);
    }
  }

  lemma QuotaReached(policy: Policy, retries: nat, requests: nat)
    ensures retries >= Quota(policy, requests) <==> retries as real >= requests as real * policy.percent / 100.0
  {
    var share := requests as real * policy.percent / 100.0;
    assert Ceil(share) <= retries <==> share <= retries as real;
  }

  /** A retry is refused exactly when its window holds a request, and the counted retries in it have reached the
      percentage of its requests. */
  lemma {:induction false} RefusedIff(policy: Policy, events: seq<Event>, k: nat)
    requires Ordered(events) && k < |events| && events[k].Retry?
    ensures var cutoff := events[k].now - policy.window;
            var requests := RequestsSince(events, k, cutoff);
            var retries := |Fresh(Logs(policy, events, k).retries, cutoff)|;
            Judge(policy, Replay(policy, events, k), events[k].now) == Refused
            <==> requests > 0 && retries as real >= requests as real * policy.percent / 100.0
  {
    hide Fresh, Quota, Replay, Logs;
    var cutoff := events[k].now - policy.window;
    SameVerdict(policy, events, k);
    LogsCountRequests(policy, events, k, cutoff);
    QuotaReached(policy, |Fresh(Logs(policy, events, k).retries, cutoff)|, RequestsSince(events, k, cutoff));
  }

  // --- Amplification ---

  /** The retries per request that the percentage allows at most, in whole retries. */
  function Factor(policy: Policy): nat {
    Max(Ceil(policy.percent / 100.0), 0)
  }

  function Share(policy: Policy, requests: nat): real {
    requests as real * policy.percent / 100.0
  }

  lemma QuotaBounds(policy: Policy, total: nat)
    ensures Quota(policy, total) <= Factor(policy) * total
    ensures Quota(policy, total) > 0 ==> Quota(policy, total) as real < Share(policy, total) + 1.0
  {
    var one := policy.percent / 100.0;
    assert Share(policy, total) == total as real * one;
    assert one <= Factor(policy) as real;
    assert total as real * one <= total as real * Factor(policy) as real;
    assert total as real * Factor(policy) as real == (total * Factor(policy)) as real;
  }

  /** Cuts a run at `cutoff`: the first `m` events end by then, and what later ones log is in the window. */
  lemma {:induction false} CutAt(policy: Policy, events: seq<Event>, k: nat, cutoff: real) returns (m: nat)
    requires Ordered(events) && k <= |events|
    ensures m <= k && (m < k ==> End(events[k - 1]) > cutoff) && (m > 0 ==> End(events[m - 1]) <= cutoff)
    ensures |Logs(policy, events, m).requests| + |Fresh(Logs(policy, events, k).requests, cutoff)|
         == |Logs(policy, events, k).requests|
    ensures |Logs(policy, events, m).retries| + |Fresh(Logs(policy, events, k).retries, cutoff)|
         == |Logs(policy, events, k).retries|
  {
    hide Fresh, Quota;
    var logs := Logs(policy, events, k);
    if k == 0 || End(events[k - 1]) <= cutoff {
      m := k;
      forall i | 0 <= i < k
        ensures End(events[i]) <= cutoff
      {
        assert i < k - 1 ==> End(events[i]) <= events[k - 1].now <= End(events[k - 1]);
      }
      LogsInPast(policy, events, k, cutoff);
      FreshNone(logs.requests, cutoff);
      FreshNone(logs.retries, cutoff);
    } else {
      var earlier := Logs(policy, events, k - 1);
      m := CutAt(policy, events, k - 1, cutoff);
      FreshPush(earlier.requests, End(events[k - 1]), cutoff);
      FreshPush(earlier.retries, End(events[k - 1]), cutoff);
    }
  }

  /** The logs of the run before the last grant's window, and how much that window holds. */
  lemma {:induction false} LastWindow(policy: Policy, events: seq<Event>, k: nat) returns (m: nat, paid: nat)
    requires Ordered(events) && k < |events| && events[k].Retry?
    requires Judge(policy, Logs(policy, events, k), events[k].now) == Recorded
    ensures m <= k && (m > 0 ==> End(events[m - 1]) <= events[k].now - policy.window)
    ensures paid + |Logs(policy, events, m).requests| == |Logs(policy, events, k + 1).requests|
    ensures 0 < |Logs(policy, events, k + 1).retries| - |Logs(policy, events, m).retries| <= Quota(policy, paid)
  {
    hide Fresh, Quota;
    var cutoff := events[k].now - policy.window;
    RecordedInWindow(policy, events, k);
    m := CutAt(policy, events, k + 1, cutoff);
    paid := |Fresh(Logs(policy, events, k + 1).requests, cutoff)|;
    FreshPush(Logs(policy, events, k).retries, events[k].stamp, cutoff);
  }

  /** Over every run, recorded retries stay within whole multiples of the requests. */
  lemma {:induction false} RetriesWithinFactor(policy: Policy, events: seq<Event>, k: nat)
    requires Ordered(events) && k <= |events|
    ensures |Logs(policy, events, k).retries| <= Factor(policy) * |Logs(policy, events, k).requests|
  {
    hide Fresh, Quota, Factor, Judge;
    if k > 0 {
      var logs, earlier := Logs(policy, events, k), Logs(policy, events, k - 1);
      if |logs.retries| > |earlier.retries| {
        var m, paid := LastWindow(policy, events, k - 1);
        RetriesWithinFactor(policy, events, m);
        QuotaBounds(policy, paid);
        Multiples(Factor(policy), |Logs(policy, events, m).requests|, paid);
      } else {
        RetriesWithinFactor(policy, events, k - 1);
        Multiples(Factor(policy), |earlier.requests|, |logs.requests| - |earlier.requests|);
      }
    }
  }

  lemma Multiples(factor: nat, a: nat, b: nat)
    ensures factor * (a + b) == factor * a + factor * b && factor * b >= 0
  {
  }

  /** When the recorded grants among the first `k` events were decided. */
  function GrantTimes(policy: Policy, events: seq<Event>, k: nat): seq<real>
    requires k <= |events|
  {
    if k == 0 then []
    else if events[k - 1].Retry? && Judge(policy, Logs(policy, events, k - 1), events[k - 1].now) == Recorded
    then GrantTimes(policy, events, k - 1) + [events[k - 1].now]
    else GrantTimes(policy, events, k - 1)
  }

  lemma {:induction false} GrantTimesGrow(policy: Policy, events: seq<Event>, m: nat, k: nat)
    requires Ordered(events) && m <= k <= |events|
    ensures GrantTimes(policy, events, m) <= GrantTimes(policy, events, k)
    ensures |GrantTimes(policy, events, k)| == |Logs(policy, events, k).retries|
    ensures forall i | 0 <= i < |GrantTimes(policy, events, k)| ::
              k > 0 && GrantTimes(policy, events, k)[i] <= End(events[k - 1])
  {
    hide Fresh, Judge;
    if m < k {
      GrantTimesGrow(policy, events, m, k - 1);
      assert k > 1 ==> End(events[k - 2]) <= events[k - 1].now <= End(events[k - 1]);
    } else if k > 0 {
      GrantTimesGrow(policy, events, k - 1, k - 1);
      assert k > 1 ==> End(events[k - 2]) <= events[k - 1].now <= End(events[k - 1]);
    }
  }

  /** Whole windows between two readings. */
  function Windows(policy: Policy, first: real, last: real): real
    requires policy.window > 0.0
  {
    (last - first) / policy.window
  }

  lemma WindowApart(policy: Policy, first: real, last: real, now: real)
    requires policy.window > 0.0 && last <= now - policy.window
    ensures Windows(policy, first, last) + 1.0 <= Windows(policy, first, now)
  {
    var gap := now - last;
    assert (now - first) / policy.window == (last - first) / policy.window + gap / policy.window;
    assert gap / policy.window >= 1.0;
  }

  lemma ShareSplit(policy: Policy, a: nat, b: nat)
    requires policy.percent >= 0.0
    ensures Share(policy, a + b) == Share(policy, a) + Share(policy, b)
    ensures Share(policy, b) >= 0.0
  {
  }

  /** Between the first and the last grant, each window that goes by may round its share up once. */
  lemma {:induction false} RetriesWithinShare(policy: Policy, events: seq<Event>, k: nat)
    requires Ordered(events) && k <= |events| && policy.window > 0.0 && policy.percent >= 0.0
    ensures var times, logs := GrantTimes(policy, events, k), Logs(policy, events, k);
            && |times| == |logs.retries|
            && (times != [] ==>
                  |logs.retries| as real
                    <= Share(policy, |logs.requests|) + 1.0 + Windows(policy, times[0], times[|times| - 1]))
    decreases k, 1
  {
    hide Fresh, Quota, Factor, Judge, Share, Windows;
    GrantTimesGrow(policy, events, k, k);
    if k > 0 {
      var logs, earlier := Logs(policy, events, k), Logs(policy, events, k - 1);
      if |logs.retries| > |earlier.retries| {
        WindowAdds(policy, events, k - 1);
      } else {
        RetriesWithinShare(policy, events, k - 1);
        GrantTimesGrow(policy, events, k - 1, k);
        ShareSplit(policy, |earlier.requests|, |logs.requests| - |earlier.requests|);
      }
    }
  }

  lemma {:induction false} WindowAdds(policy: Policy, events: seq<Event>, k: nat)
    requires Ordered(events) && k < |events| && policy.window > 0.0 && policy.percent >= 0.0
    requires events[k].Retry? && Judge(policy, Logs(policy, events, k), events[k].now) == Recorded
    ensures var times, logs := GrantTimes(policy, events, k + 1), Logs(policy, events, k + 1);
            && times != []
            && |logs.retries| as real
                 <= Share(policy, |logs.requests|) + 1.0 + Windows(policy, times[0], times[|times| - 1])
    decreases k + 1, 0
  {
    hide Fresh, Quota, Factor, Judge, Share, Windows;
    var now := events[k].now;
    var m, paid := LastWindow(policy, events, k);
    var before, times := GrantTimes(policy, events, m), GrantTimes(policy, events, k + 1);
    RetriesWithinShare(policy, events, m);
    QuotaBounds(policy, paid);
    ShareSplit(policy, |Logs(policy, events, m).requests|, paid);
    ShareSplit(policy, paid, |Logs(policy, events, m).requests|);
    GrantTimesGrow(policy, events, m, k + 1);
    GrantTimesGrow(policy, events, m, m);
    GrantTimesGrow(policy, events, k, k);
    assert times == GrantTimes(policy, events, k) + [now];
    if before != [] {
      WindowApart(policy, times[0], before[|before| - 1], now);
    } else {
      assert times[0] <= now;
      FirstToLast(policy, times[0], now);
    }
  }

  lemma FirstToLast(policy: Policy, first: real, last: real)
    requires policy.window > 0.0 && first <= last
    ensures Windows(policy, first, last) >= 0.0
  {
  }
}
