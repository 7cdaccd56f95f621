/** The passive health tracker of src/health.rs: consecutive failures per upstream, a mark when they reach
    the threshold, and a cooldown that the next look at the upstream ends lazily. */
module Health {
  import opened Prelude

  type Upstream = string

  /** `cooldown` is in seconds. */
  datatype Rules = Rules(threshold: nat, cooldown: real)

  datatype Entry = Entry(failures: nat, markedAt: Option<real>)

  type Ledger = map<Upstream, Entry>

  // --- The three operations, on values ---

  function Failed(rules: Rules, ledger: Ledger, u: Upstream, now: real): Ledger {
    var entry := if u in ledger then ledger[u] else Entry(0, None);
    var failures := entry.failures + 1;
    if failures >= rules.threshold then ledger[u := Entry(rules.threshold, Some(now))]
    else ledger[u := Entry(failures, entry.markedAt)]
  }

  function Succeeded(ledger: Ledger, u: Upstream): Ledger {
    if u in ledger then ledger[u := Entry(0, None)] else ledger
  }

  predicate Cooling(rules: Rules, ledger: Ledger, u: Upstream, now: real) {
    u in ledger && ledger[u].markedAt.Some? && Elapsed(ledger[u].markedAt.value, now) < rules.cooldown
  }

  /** The answer of `is_healthy`, and the ledger it leaves: an expired mark is wiped by the look itself. */
  function Looked(rules: Rules, ledger: Ledger, u: Upstream, now: real): (Ledger, bool) {
    if u !in ledger || ledger[u].markedAt.None? then (ledger, true)
    else if Cooling(rules, ledger, u, now) then (ledger, false)
    else (ledger[u := Entry(0, None)], true)
  }

  class HealthTracker {
    var state: map<Upstream, Entry>
    const rules: Rules

    constructor (rules: Rules)
      ensures this.rules == rules && state == map[]
    {
      this.rules := rules;
      state := map[];
    }

    method RecordFailure(u: Upstream, now: real)
      modifies this
      ensures state == Failed(rules, old(state), u, now)
    {
      if u !in state {
        state := state[u := Entry(0, None)];
      }
      var entry := state[u];
      entry := entry.(failures := entry.failures + 1);
      if entry.failures >= rules.threshold {
        entry := entry.(failures := rules.threshold);
        entry := entry.(markedAt := Some(now));
      }
      state := state[u := entry];
    }

    method RecordSuccess(u: Upstream)
      modifies this
      ensures state == Succeeded(old(state), u)
    {
      if u in state {
        state := state[u := Entry(0, None)];
      }
    }

    method IsHealthy(u: Upstream, now: real) returns (healthy: bool)
      modifies this
      ensures (state, healthy) == Looked(rules, old(state), u, now)
    {
      if u !in state {
        return true;
      }
      match state[u].markedAt
      case None => healthy := true;
      case Some(markedAt) =>
        if Elapsed(markedAt, now) >= rules.cooldown {
          state := state[u := Entry(0, None)];
          healthy := true;
        } else {
          healthy := false;
        }
    }
  }

  // --- Runs ---

  datatype Event = Failure(u: Upstream, now: real) | Success(u: Upstream, now: real) | Look(u: Upstream, now: real)

  function After(rules: Rules, ledger: Ledger, event: Event): Ledger {
    match event
    case Failure(u, now) => Failed(rules, ledger, u, now)
    case Success(u, _) => Succeeded(ledger, u)
    case Look(u, now) => Looked(rules, ledger, u, now).0
  }

  function Replay(rules: Rules, events: seq<Event>, k: nat): Ledger
    requires k <= |events|
  {
    if k == 0 then map[] else After(rules, Replay(rules, events, k - 1), events[k - 1])
  }

  // --- The history that the ledger stands for ---

  /** The index of the latest failure of `u` among the first `k` events, or -1. */
  function LatestFailure(events: seq<Event>, u: Upstream, k: nat): (i: int)
    requires k <= |events|
    ensures -1 <= i < k
    ensures i >= 0 ==> events[i].Failure? && events[i].u == u
    ensures forall j | i < j < k :: !(events[j].Failure? && events[j].u == u)
  {
    if k == 0 then -1
    else if events[k - 1].Failure? && events[k - 1].u == u then k - 1
    else LatestFailure(events, u, k - 1)
  }

  /** The failures of `u` since its last reset: a success, or a look that came after the cooldown of an
      upstream that had failed too often. Nothing caps this count, and no other upstream enters it. */
  function Streak(rules: Rules, events: seq<Event>, u: Upstream, k: nat): nat
    requires k <= |events|
    decreases k, 0
  {
    if k == 0 then 0
    else if events[k - 1].u != u then Streak(rules, events, u, k - 1)
    else match events[k - 1]
      case Failure(_, _) => Streak(rules, events, u, k - 1) + 1
      case Success(_, _) => 0
      case Look(_, now) =>
        if TooManyFailures(rules, events, u, k - 1) && !FailedRecently(rules, events, u, k - 1, now) then 0
        else Streak(rules, events, u, k - 1)
  }

  predicate TooManyFailures(rules: Rules, events: seq<Event>, u: Upstream, k: nat)
    requires k <= |events|
    decreases k, 1
  {
    Streak(rules, events, u, k) >= Max(rules.threshold, 1)
  }

  predicate FailedRecently(rules: Rules, events: seq<Event>, u: Upstream, k: nat, now: real)
    requires k <= |events|
  {
    var i := LatestFailure(events, u, k);
    i >= 0 && rules.cooldown > 0.0 && now < events[i].now + rules.cooldown
  }

  lemma {:induction false} StreakHasFailure(rules: Rules, events: seq<Event>, u: Upstream, k: nat)
    requires k <= |events|
    ensures Streak(rules, events, u, k) > 0 ==> LatestFailure(events, u, k) >= 0
  {
    if k > 0 {
      StreakHasFailure(rules, events, u, k - 1);
    }
  }

  /** What the ledger keeps of the history of `u`: whether it ever failed, the streak capped at the threshold, and the
      time of the latest failure once the streak has reached it. */
  ghost predicate Reflects(rules: Rules, ledger: Ledger, events: seq<Event>, u: Upstream, k: nat)
    requires k <= |events|
  {
    var streak := Streak(rules, events, u, k);
    if u in ledger then
      && LatestFailure(events, u, k) >= 0
      && ledger[u].failures == Min(streak, rules.threshold)
      && (ledger[u].markedAt.Some? <==> TooManyFailures(rules, events, u, k))
      && (ledger[u].markedAt.Some? ==>
            LatestFailure(events, u, k) >= 0 && ledger[u].markedAt.value == events[LatestFailure(events, u, k)].now)
    else streak == 0 && LatestFailure(events, u, k) == -1
  }

  lemma {:induction false} LedgerIsHistory(rules: Rules, events: seq<Event>, u: Upstream, k: nat)
    requires k <= |events|
    ensures Reflects(rules, Replay(rules, events, k), events, u, k)
  {
    if k > 0 {
      LedgerIsHistory(rules, events, u, k - 1);
      StreakHasFailure(rules, events, u, k - 1);
      EventReflected(rules, Replay(rules, events, k - 1), events, u, k);
    }
  }

  lemma EventReflected(rules: Rules, ledger: Ledger, events: seq<Event>, u: Upstream, k: nat)
    requires 0 < k <= |events| && Reflects(rules, ledger, events, u, k - 1)
    ensures Reflects(rules, After(rules, ledger, events[k - 1]), events, u, k)
  {
  }

  /** An upstream is refused exactly when it has failed too often since its last reset and the latest of
      those failures is less than one cooldown old. */
  lemma {:induction false} UnhealthyIff(rules: Rules, events: seq<Event>, u: Upstream, k: nat, now: real)
    requires k <= |events|
    ensures !Looked(rules, Replay(rules, events, k), u, now).1
        <==> TooManyFailures(rules, events, u, k) && FailedRecently(rules, events, u, k, now)
  {
    LedgerIsHistory(rules, events, u, k);
    StreakHasFailure(rules, events, u, k);
  }
}
