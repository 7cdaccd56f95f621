/** What the retry loop guarantees to one request: the shape of its attempts, its bookkeeping, and failover. */
module RetryLoop {
  import opened Prelude
  import opened ProxyLoop
  import Division
  import Health
  import RetryBudget
  import RetryBudgetHistory
  import LeastConnections
  import Backoff

  // --- Readings of a trace ---

  function Attempts(trace: seq<Visit>): nat {
    if trace == [] then 0
    else Attempts(trace[..|trace| - 1]) + if trace[|trace| - 1].Tried? then 1 else 0
  }

  function FailureOf(visit: Visit): multiset<ErrorLabel> {
    if visit.Tried? && !IsGood(visit.outcome) then multiset{LabelOf(visit.outcome)} else multiset{}
  }

  /** The error labels of all failed attempts. */
  function Failures(trace: seq<Visit>): multiset<ErrorLabel> {
    if trace == [] then multiset{}
    else Failures(trace[..|trace| - 1]) + FailureOf(trace[|trace| - 1])
  }

  /** The error of the last failed attempt. */
  function LastFailure(trace: seq<Visit>): Option<ProxyError> {
    if trace == [] then None
    else
      var last := trace[|trace| - 1];
      if last.Tried? && !IsGood(last.outcome) then Some(ErrorOf(last.outcome))
      else LastFailure(trace[..|trace| - 1])
  }

  lemma TraceGrows(trace: seq<Visit>, visit: Visit)
    ensures Attempts(trace + [visit]) == Attempts(trace) + if visit.Tried? then 1 else 0
    ensures Failures(trace + [visit]) == Failures(trace) + FailureOf(visit)
    ensures LastFailure(trace + [visit])
         == if visit.Tried? && !IsGood(visit.outcome) then Some(ErrorOf(visit.outcome)) else LastFailure(trace)
  {
    assert (trace + [visit])[..|trace|] == trace;
  }

  function WaitOf(c: Context, visit: Visit): real {
    if visit.Tried? && visit.index < |c.answers| then WaitAt(c, visit.index) else 0.0
  }

  /** The seconds that all attempts waited for their upstreams. */
  function Waited(c: Context, trace: seq<Visit>): real {
    if trace == [] then 0.0 else Waited(c, trace[..|trace| - 1]) + WaitOf(c, trace[|trace| - 1])
  }

  lemma WaitGrows(c: Context, trace: seq<Visit>, visit: Visit)
    ensures Waited(c, trace + [visit]) == Waited(c, trace) + WaitOf(c, visit)
  {
    assert (trace + [visit])[..|trace|] == trace;
  }

  // --- The invariant of the loop ---

  /** Position by position: where the loop went, what it got there, and that only the last visit can end it. */
  ghost predicate Path(c: Context, s: Loop)
    requires |c.answers| == |c.upstreams|
  {
    && |s.trace| == s.offset <= |c.upstreams|
    && (forall k | 0 <= k < |s.trace| :: s.trace[k].index == Index(c, k))
    && (forall k | 0 <= k < |s.trace| && s.trace[k].Tried? :: s.trace[k].outcome == OutcomeAt(c, s.trace[k].index))
    && (forall k | 0 <= k < |s.trace| - 1 :: !s.trace[k].Refused? && !EndsWell(s.trace[k]))
    && s.reply == (if s.trace != [] && EndsWell(s.trace[|s.trace| - 1])
                   then Some(Served(s.trace[|s.trace| - 1].outcome.status)) else None)
  }

  predicate EndsWell(visit: Visit) {
    visit.Tried? && IsGood(visit.outcome)
  }

  /** In sum: how many attempts, what the last error was, and which sleeps. */
  ghost predicate Tally(c: Context, s: Loop) {
    && s.attempts == Attempts(s.trace) <= Min(MaxAttempts(c), s.offset)
    && (Broke(s) ==> s.attempts > 0)
    && s.lastError == LastFailure(s.trace)
    && |s.jitters| == Max(s.attempts - 1, 0)
    && (forall k | 0 <= k < |s.jitters| :: s.jitters[k] == c.jitter(k + 1))
  }

  ghost predicate Shape(c: Context, s: Loop)
    requires |c.answers| == |c.upstreams|
  {
    Path(c, s) && Tally(c, s)
  }

  lemma TurnKeepsShape(c: Context, anyHealthy: bool, s: Loop)
    requires |c.answers| == |c.upstreams| && Shape(c, s) && !Halted(c, s)
    ensures Shape(c, Turn(c, anyHealthy, s))
  {
    hide Turn, Attempts, LastFailure, Failures;
    TurnAdvances(c, anyHealthy, s);
    var next := Turn(c, anyHealthy, s);
    AdvanceKeepsPath(c, s, next);
    AdvanceKeepsTally(c, s, next);
  }

  lemma AdvanceKeepsPath(c: Context, s: Loop, next: Loop)
    requires |c.answers| == |c.upstreams| && Path(c, s) && !Halted(c, s) && Advances(c, s, next)
    ensures Path(c, next)
  {
  }

  lemma AdvanceKeepsTally(c: Context, s: Loop, next: Loop)
    requires |c.answers| == |c.upstreams| && Tally(c, s) && !Halted(c, s) && Advances(c, s, next)
    ensures Tally(c, next)
  {
    hide Attempts, LastFailure, Failures;
    TraceGrows(s.trace, next.trace[|s.trace|]);
  }

  /** The counters since the world `w`: every retry and its sleep, every wait for an upstream, every failure by
      its label, every reply by its status, and no connection left counted. */
  ghost predicate Accounts(c: Context, w: World, s: Loop) {
    && s.world.slept == w.slept + Backoff.Slept(c.backoffBase, s.jitters)
    && s.world.waited == w.waited + Waited(c, s.trace)
    && s.world.retries == w.retries + |s.jitters|
    && s.world.errors == w.errors + Failures(s.trace)
    && s.world.requests == w.requests + (if s.reply.Some? then multiset{StatusLabel(s.reply.value)} else multiset{})
    && s.world.active == w.active
  }

  lemma StartAndDone(active: LeastConnections.Counts, index: nat)
    ensures LeastConnections.Done(LeastConnections.Started(active, index), index) == active
  {
  }

  /** An attempt counts one failure or one reply, and gives its connection back. */
  lemma AttemptCounts(c: Context, s: Loop, index: nat)
    requires index < |c.upstreams| == |c.answers| && s.reply.None?
    ensures var next := Attempt(c, s, index);
            && next.world.retries == s.world.retries && next.world.slept == s.world.slept && next.jitters == s.jitters
            && next.world.waited == s.world.waited + WaitOf(c, Tried(index, OutcomeAt(c, index)))
            && next.world.errors == s.world.errors + FailureOf(Tried(index, OutcomeAt(c, index)))
            && next.world.requests
               == s.world.requests + (if next.reply.Some? then multiset{StatusLabel(next.reply.value)} else multiset{})
            && next.world.active == s.world.active
            && next.trace == s.trace + [Tried(index, OutcomeAt(c, index))]
  {
    hide Health.Failed, Health.Succeeded, LeastConnections.Done, LeastConnections.Started;
    StartAndDone(s.world.active, index);
  }

  lemma AttemptKeepsAccounts(c: Context, w: World, s: Loop, index: nat)
    requires index < |c.upstreams| == |c.answers| && s.reply.None? && Accounts(c, w, s)
    ensures Accounts(c, w, Attempt(c, s, index))
  {
    hide Failures, Attempts, LastFailure, Waited, WaitOf, Attempt, OutcomeAt, Backoff.Slept, StatusLabel;
    AttemptCounts(c, s, index);
    WaitGrows(c, s.trace, Tried(index, OutcomeAt(c, index)));
    TraceGrows(s.trace, Tried(index, OutcomeAt(c, index)));
  }

  lemma LookKeepsAccounts(c: Context, w: World, s: Loop, u: Health.Upstream)
    requires Accounts(c, w, s)
    ensures Accounts(c, w, s.(world := Look(c, s.world, u).0))
  {
    hide Failures, Waited, Health.Looked, Backoff.Slept, StatusLabel;
  }

  lemma BudgetKeepsAccounts(c: Context, w: World, s: Loop)
    requires Accounts(c, w, s)
    ensures var asked := AllowRetry(c, s.world).0;
            && Accounts(c, w, s.(world := asked))
            && (s.attempts == |s.jitters| + 1 ==>
                  Accounts(c, w, s.(world := BackOff(c, asked, s.attempts),
                                    jitters := s.jitters + [c.jitter(s.attempts)])))
  {
    hide Failures, Waited, RetryBudget.Judge, RetryBudget.After, Backoff.Delay;
    var longer := s.jitters + [c.jitter(s.attempts)];
    assert longer[..|longer| - 1] == s.jitters;
  }

  lemma VisitKeepsAccounts(c: Context, w: World, s: Loop, visit: Visit)
    requires Accounts(c, w, s) && !visit.Tried?
    ensures Accounts(c, w, s.(offset := s.offset + 1, trace := s.trace + [visit]))
  {
    hide Failures, Attempts, LastFailure, Waited, Backoff.Slept, StatusLabel;
    TraceGrows(s.trace, visit);
    WaitGrows(c, s.trace, visit);
  }

  lemma TurnKeepsAccounts(c: Context, anyHealthy: bool, w: World, s: Loop)
    requires s.offset < |c.upstreams| == |c.answers| && s.reply.None? && Accounts(c, w, s)
    requires |s.jitters| == Max(s.attempts - 1, 0)
    ensures Accounts(c, w, Turn(c, anyHealthy, s))
  {
    hide Accounts, Look, AllowRetry, Attempt;
    var index := Index(c, s.offset);
    LookKeepsAccounts(c, w, s, c.upstreams[index]);
    var (seen, healthy) := if anyHealthy then Look(c, s.world, c.upstreams[index]) else (s.world, true);
    var looked := s.(world := seen);
    assert Accounts(c, w, looked);
    BudgetKeepsAccounts(c, w, looked);
    var (asked, allowed) := AllowRetry(c, seen);
    if !healthy {
      VisitKeepsAccounts(c, w, looked, Skipped(index));
    } else if s.attempts == 0 {
      AttemptKeepsAccounts(c, w, looked, index);
    } else if allowed {
      var slept := s.(world := BackOff(c, asked, s.attempts), jitters := s.jitters + [c.jitter(s.attempts)]);
      AttemptKeepsAccounts(c, w, slept, index);
    } else {
      VisitKeepsAccounts(c, w, s.(world := asked), Refused(index));
    }
  }

  lemma {:induction false} WalkKeeps(c: Context, anyHealthy: bool, w: World, s: Loop)
    requires |c.answers| == |c.upstreams| && Shape(c, s) && Accounts(c, w, s)
    ensures var final := Walk(c, anyHealthy, s);
            Shape(c, final) && Accounts(c, w, final) && Halted(c, final)
    decreases |c.upstreams| - s.offset
  {
    hide Path, Accounts, Turn, Attempts, LastFailure;
    if !Halted(c, s) {
      TurnAdvances(c, anyHealthy, s);
      TurnKeepsShape(c, anyHealthy, s);
      TurnKeepsAccounts(c, anyHealthy, w, s);
      WalkKeeps(c, anyHealthy, w, Turn(c, anyHealthy, s));
    }
  }

  lemma {:induction false} ScanCounts(c: Context, w: World, i: nat)
    requires i <= |c.upstreams|
    ensures var (next, _) := AnyHealthy(c, w, i);
            next == w.(health := next.health, reading := next.reading) && next.reading >= w.reading
    decreases |c.upstreams| - i
  {
    hide Health.Looked;
    if i < |c.upstreams| {
      ScanCounts(c, Look(c, w, c.upstreams[i]).0, i + 1);
    }
  }

  lemma FinalKeeps(c: Context, w: World)
    requires |c.answers| == |c.upstreams|
    ensures var s := FinalLoop(c, w);
            Shape(c, s) && Accounts(c, w, s) && Halted(c, s)
  {
    ScanCounts(c, w, 0);
    var (s, anyHealthy) := Entered(c, w);
    hide AnyHealthy;
    WalkKeeps(c, anyHealthy, w, s);
  }

  // --- The shape of the attempts ---

  /** Offsets within one turn of the pool visit different upstream positions. */
  lemma IndicesDiffer(c: Context, j: nat, k: nat)
    requires j < k < |c.upstreams|
    ensures Index(c, j) != Index(c, k)
  {
    if Index(c, j) == Index(c, k) {
      Division.SameRemainder(c.start + j, c.start + k, |c.upstreams|);
    }
  }

  /** No position is visited twice, attempts stay within the cap and the pool, only the last visit can end
      the loop, and without a reply the loop stopped for one of three reasons. */
  lemma LoopShape(c: Context, w: World)
    requires |c.answers| == |c.upstreams|
    ensures var s := FinalLoop(c, w);
            && (forall j, k | 0 <= j < k < |s.trace| :: s.trace[j].index != s.trace[k].index)
            && s.attempts == Attempts(s.trace) <= Min(MaxAttempts(c), |c.upstreams|)
            && (forall k | 0 <= k < |s.trace| - 1 :: s.trace[k].Tried? ==> !IsGood(s.trace[k].outcome))
            && (s.reply.None? ==> s.attempts == MaxAttempts(c) || Broke(s) || |s.trace| == |c.upstreams|)
  {
    hide FinalLoop;
    FinalKeeps(c, w);
    var s := FinalLoop(c, w);
    forall j, k | 0 <= j < k < |s.trace|
      ensures s.trace[j].index != s.trace[k].index
    {
      IndicesDiffer(c, j, k);
    }
  }

  /** The counters move by exactly what the client and the upstreams saw: one request under the status the
      client receives, one error per failed attempt under its own label, one retry per attempt after the
      first, no connection left over; and an error reply is the error of the last attempt. */
  lemma Bookkeeping(c: Context, w: World)
    requires |c.answers| == |c.upstreams|
    ensures var s := FinalLoop(c, w);
            var (after, reply) := Finished(s);
            && after.requests == w.requests + multiset{ClientStatus(reply)}
            && after.errors == w.errors + Failures(s.trace)
            && after.retries == w.retries + Max(Attempts(s.trace) - 1, 0)
            && after.active == w.active
            && (reply.Served? <==> s.trace != [] && EndsWell(s.trace[|s.trace| - 1]))
            && (reply.Served? ==> s.trace[|s.trace| - 1].outcome == Answered(reply.status))
            && (reply.Failed? ==>
                  reply.error == if LastFailure(s.trace).Some? then LastFailure(s.trace).value else UpstreamFailure)
  {
    hide FinalLoop, Attempts, Failures, LastFailure;
    FinalKeeps(c, w);
  }

  // --- How long a request takes ---

  /** The sleeps of a request that makes `a` attempts add up to at most one and a half times
      base x (2^(a-1) - 1) milliseconds, and to no less than that while the arithmetic is exact. */
  lemma SleepsBounded(c: Context, w: World)
    requires WellFormed(c)
    ensures var s := FinalLoop(c, w);
            var a, slept := s.attempts, s.world.slept - w.slept;
            && (a == 0 ==> slept == 0)
            && (a > 0 ==> 2 * slept <= 3 * (c.backoffBase * (Backoff.Pow2(a - 1) - 1)))
            && (a > 0 && Backoff.NeverOverflows(c.backoffBase, a - 1) ==>
                  c.backoffBase * (Backoff.Pow2(a - 1) - 1) <= slept)
  {
    hide FinalLoop, Attempts, Failures, LastFailure, Backoff.Slept, Backoff.Pow2, Backoff.IsJitter;
    FinalKeeps(c, w);
    var s := FinalLoop(c, w);
    Backoff.SleptBounds(c.backoffBase, s.jitters);
    if s.attempts == 0 {
      Backoff.SleptNothing(c.backoffBase, s.jitters);
    }
  }

  /** The longest that so many attempts can wait. */
  function Timeouts(attempts: nat, timeout: real): real {
    attempts as real * timeout
  }

  lemma TimeoutsGrow(fewer: nat, more: nat, timeout: real)
    requires fewer <= more && timeout >= 0.0
    ensures Timeouts(0, timeout) == 0.0 && Timeouts(fewer, timeout) <= Timeouts(more, timeout)
    ensures Timeouts(fewer + 1, timeout) == Timeouts(fewer, timeout) + timeout
  {
    assert (more - fewer) as real * timeout >= 0.0;
  }

  /** An attempt waits at most the timeout, and exactly that long when it times out. */
  lemma WaitWithin(c: Context, visit: Visit)
    requires WellFormed(c)
    requires visit.Tried? ==> visit.index < |c.answers| && visit.outcome == OutcomeAt(c, visit.index)
    ensures 0.0 <= WaitOf(c, visit) <= if visit.Tried? then c.requestTimeout else 0.0
    ensures visit.Tried? && visit.outcome.TimedOut? ==> WaitOf(c, visit) == c.requestTimeout
  {
    hide Backoff.IsJitter;
    assert visit.Tried? ==> TakesTime(c.answers[visit.index]);
  }

  lemma LimitNonNegative(c: Context)
    requires WellFormed(c)
    ensures c.requestTimeout >= 0.0 && |c.answers| == |c.upstreams|
  {
  }

  lemma {:induction false} WaitsBounded(c: Context, trace: seq<Visit>)
    requires WellFormed(c)
    requires forall k | 0 <= k < |trace| && trace[k].Tried? ::
               trace[k].index < |c.answers| && trace[k].outcome == OutcomeAt(c, trace[k].index)
    ensures 0.0 <= Waited(c, trace) <= Timeouts(Attempts(trace), c.requestTimeout)
    ensures (forall k | 0 <= k < |trace| && trace[k].Tried? :: trace[k].outcome.TimedOut?) ==>
              Waited(c, trace) == Timeouts(Attempts(trace), c.requestTimeout)
  {
    hide WellFormed, OutcomeAt, WaitOf, Timeouts;
    LimitNonNegative(c);
    if trace == [] {
      TimeoutsGrow(0, 0, c.requestTimeout);
    } else {
      var rest, last := trace[..|trace| - 1], trace[|trace| - 1];
      WaitsBounded(c, rest);
      WaitWithin(c, last);
      TimeoutsGrow(Attempts(rest), Attempts(rest), c.requestTimeout);
    }
  }

  /** The seconds that a request spends waiting for upstreams and sleeping before retries. */
  function Seconds(w: World, after: World): real {
    after.waited - w.waited + (after.slept - w.slept) as real / 1000.0
  }

  /** A request takes at most a timeout per attempt and its sleeps, and exactly that when no upstream answers in
      time. */
  lemma Latency(c: Context, w: World)
    requires WellFormed(c)
    ensures var s := FinalLoop(c, w);
            var most := Timeouts(s.attempts, c.requestTimeout) + (s.world.slept - w.slept) as real / 1000.0;
            && Seconds(w, s.world) <= most
            && ((forall k | 0 <= k < |s.trace| && s.trace[k].Tried? :: s.trace[k].outcome.TimedOut?) ==>
                  Seconds(w, s.world) == most)
  {
    hide FinalLoop, Attempts, Failures, LastFailure, Waited, Timeouts, WellFormed, OutcomeAt, Backoff.Slept;
    LimitNonNegative(c);
    FinalKeeps(c, w);
    WaitsBounded(c, FinalLoop(c, w).trace);
  }

  /** What `a` attempts and the sleeps between them can take at most. */
  function LongestSeconds(a: nat, timeout: real, base: nat): real {
    if a == 0 then 0.0
    else Timeouts(a, timeout) + (3 * (base * (Backoff.Pow2(a - 1) - 1))) as real / 2000.0
  }

  lemma WithinLongest(attempts: nat, most: nat, waited: real, slept: nat, timeout: real, base: nat)
    requires attempts <= most && timeout >= 0.0 && waited <= Timeouts(attempts, timeout)
    requires if attempts == 0 then slept == 0 else 2 * slept <= 3 * (base * (Backoff.Pow2(attempts - 1) - 1))
    ensures waited + slept as real / 1000.0 <= LongestSeconds(most, timeout, base)
  {
    hide Backoff.Pow2, Timeouts;
    TimeoutsGrow(0, 0, timeout);
    TimeoutsGrow(attempts, most, timeout);
    if attempts > 0 {
      Backoff.ProductGrows(base, attempts - 1, most - 1);
    } else if most > 0 {
      SleepsNonNegative(base, most - 1);
    }
  }

  lemma SleepsNonNegative(base: nat, retries: nat)
    ensures base * (Backoff.Pow2(retries) - 1) >= 0
  {
  }

  /** However its upstreams behave, a request is over within a time that the configuration and the size
      of its pool fix. */
  lemma LatencyBounded(c: Context, w: World)
    requires WellFormed(c)
    ensures Seconds(w, FinalLoop(c, w).world)
         <= LongestSeconds(Min(MaxAttempts(c), |c.upstreams|), c.requestTimeout, c.backoffBase)
  {
    hide FinalLoop, Attempts, LastFailure, WellFormed, MaxAttempts, Timeouts, LongestSeconds, Backoff.Slept,
         Backoff.Pow2;
    LimitNonNegative(c);
    FinalKeeps(c, w);
    Latency(c, w);
    SleepsBounded(c, w);
    var s, most := FinalLoop(c, w), Min(MaxAttempts(c), |c.upstreams|);
    WithinLongest(s.attempts, most, s.world.waited - w.waited, s.world.slept - w.slept, c.requestTimeout,
                  c.backoffBase);
  }

  // --- Failover ---

  /** The position at `offset` is still to come and its upstream is not cooling down. */
  ghost predicate Awaits(c: Context, s: Loop, offset: nat)
    requires c.upstreams != []
  {
    && s.offset <= offset < |c.upstreams|
    && !Health.Cooling(c.rules, s.world.health, c.upstreams[Index(c, offset)], c.clock(s.world.reading))
  }

  /** Looking at any upstream leaves a healthy one healthy. */
  lemma LookKeepsHealthy(c: Context, w: World, looked: Health.Upstream, u: Health.Upstream)
    requires WellFormed(c) && !Health.Cooling(c.rules, w.health, u, c.clock(w.reading))
    ensures var (next, healthy) := Look(c, w, looked);
            && !Health.Cooling(c.rules, next.health, u, c.clock(next.reading))
            && (looked == u ==> healthy)
  {
    assert c.clock(w.reading) <= c.clock(w.reading + 1);
  }

  lemma AttemptKeepsHealthy(c: Context, s: Loop, index: nat, u: Health.Upstream)
    requires WellFormed(c) && index < |c.upstreams|
    requires !Health.Cooling(c.rules, s.world.health, u, c.clock(s.world.reading))
    requires c.upstreams[index] == u ==> IsGood(OutcomeAt(c, index))
    ensures var next := Attempt(c, s, index);
            !Health.Cooling(c.rules, next.world.health, u, c.clock(next.world.reading))
  {
    assert c.clock(s.world.reading) <= c.clock(s.world.reading + 1);
  }

  /** A mark fades as readings go by. */
  lemma CoolingFades(c: Context, ledger: Health.Ledger, u: Health.Upstream, i: nat, j: nat)
    requires WellFormed(c) && i <= j && !Health.Cooling(c.rules, ledger, u, c.clock(i))
    ensures !Health.Cooling(c.rules, ledger, u, c.clock(j))
  {
    assert c.clock(i) <= c.clock(j);
  }

  /** A turn at the awaited position never skips it. */
  lemma TurnVisits(c: Context, anyHealthy: bool, s: Loop)
    requires WellFormed(c) && s.offset < |c.upstreams| && (anyHealthy ==> Awaits(c, s, s.offset))
    ensures |Turn(c, anyHealthy, s).trace| == |s.trace| + 1 && !Turn(c, anyHealthy, s).trace[|s.trace|].Skipped?
  {
    hide Turn, Look, Health.Cooling, Backoff.IsJitter;
    var u := c.upstreams[Index(c, s.offset)];
    TurnAdvances(c, anyHealthy, s);
    if anyHealthy {
      LookKeepsHealthy(c, s.world, u, u);
    }
  }

  /** Before that, the position stays awaited unless its own upstream fails. */
  lemma TurnAwaits(c: Context, s: Loop, offset: nat)
    requires WellFormed(c) && c.upstreams != [] && s.offset < offset && Awaits(c, s, offset)
    requires c.upstreams[Index(c, s.offset)] == c.upstreams[Index(c, offset)] ==>
               IsGood(OutcomeAt(c, Index(c, s.offset)))
    ensures Awaits(c, Turn(c, true, s), offset)
  {
    hide Health.Looked, Health.Cooling, RetryBudget.Judge, RetryBudget.After, Attempt, Backoff.IsJitter, Advances;
    TurnAdvances(c, true, s);
    assert Turn(c, true, s).offset == s.offset + 1 by { TurnStepsOn(c, true, s); }
    var u, index := c.upstreams[Index(c, offset)], Index(c, s.offset);
    LookKeepsHealthy(c, s.world, c.upstreams[index], u);
    var (seen, healthy) := Look(c, s.world, c.upstreams[index]);
    if healthy {
      var before := s.(world := seen);
      if s.attempts > 0 {
        var (asked, allowed) := AllowRetry(c, seen);
        CoolingFades(c, seen.health, u, seen.reading, asked.reading);
        before := s.(world := BackOff(c, asked, s.attempts), jitters := s.jitters + [c.jitter(s.attempts)]);
      }
      AttemptKeepsHealthy(c, before, index, u);
    }
  }

  lemma TurnStepsOn(c: Context, anyHealthy: bool, s: Loop)
    requires s.offset < |c.upstreams| == |c.answers|
    ensures Turn(c, anyHealthy, s).offset == s.offset + 1
  {
    hide Turn;
    TurnAdvances(c, anyHealthy, s);
  }

  /** The offset at which the loop visits position `i`. */
  lemma OffsetOf(c: Context, i: nat) returns (offset: nat)
    requires i < |c.upstreams|
    ensures offset < |c.upstreams| && Index(c, offset) == i
  {
    var n := |c.upstreams|;
    var first := c.start % n;
    Division.Split(c.start, n);
    offset := if first <= i then i - first else i + n - first;
    if first <= i {
      Division.AddMultiple(i, c.start / n, n);
      Division.QuotientAndRemainder(i, n, 0, i);
    } else {
      assert c.start + offset == (c.start / n + 1) * n + i;
      Division.AddMultiple(i, c.start / n + 1, n);
      Division.QuotientAndRemainder(i, n, 0, i);
    }
  }

  /** A walk that awaits a good upstream ends with a good answer, unless the budget refuses on the way. */
  lemma {:induction false} WalkReplies(c: Context, anyHealthy: bool, s: Loop, offset: nat)
    requires WellFormed(c) && Shape(c, s) && |c.upstreams| <= MaxAttempts(c)
    requires s.offset <= offset < |c.upstreams| && !Broke(s) && s.reply.None? && (anyHealthy ==> Awaits(c, s, offset))
    requires forall i | 0 <= i < |c.upstreams| && c.upstreams[i] == c.upstreams[Index(c, offset)] ::
               IsGood(OutcomeAt(c, i))
    ensures var final := Walk(c, anyHealthy, s);
            Broke(final) || final.reply.Some?
    decreases |c.upstreams| - s.offset
  {
    hide Turn, Attempts, LastFailure, Awaits, Backoff.IsJitter;
    var next := Turn(c, anyHealthy, s);
    TurnAdvances(c, anyHealthy, s);
    TurnKeepsShape(c, anyHealthy, s);
    if s.offset == offset {
      TurnVisits(c, anyHealthy, s);
    } else if !Halted(c, next) {
      if anyHealthy {
        TurnAwaits(c, s, offset);
      }
      WalkReplies(c, anyHealthy, next, offset);
    }
  }

  lemma {:induction false} ScanKeepsHealthy(c: Context, w: World, i: nat, u: Health.Upstream)
    requires WellFormed(c) && i <= |c.upstreams| && !Health.Cooling(c.rules, w.health, u, c.clock(w.reading))
    ensures var (next, anyHealthy) := AnyHealthy(c, w, i);
            && !Health.Cooling(c.rules, next.health, u, c.clock(next.reading))
            && (u in c.upstreams[i..] ==> anyHealthy)
    decreases |c.upstreams| - i
  {
    hide Look, Health.Cooling, Backoff.IsJitter;
    if i < |c.upstreams| {
      LookKeepsHealthy(c, w, c.upstreams[i], u);
      ScanKeepsHealthy(c, Look(c, w, c.upstreams[i]).0, i + 1, u);
    }
  }

  /** The first healthy upstream that the scan finds is still healthy when the scan ends. */
  lemma {:induction false} ScanFinds(c: Context, w: World, i: nat) returns (found: nat)
    requires WellFormed(c) && i <= |c.upstreams| && AnyHealthy(c, w, i).1
    ensures found < |c.upstreams|
    ensures var (next, _) := AnyHealthy(c, w, i);
            !Health.Cooling(c.rules, next.health, c.upstreams[found], c.clock(next.reading))
    decreases |c.upstreams| - i
  {
    var (next, healthy) := Look(c, w, c.upstreams[i]);
    if healthy {
      found := i;
      assert next.health == Health.Looked(c.rules, w.health, c.upstreams[i], c.clock(w.reading)).0;
    } else {
      found := ScanFinds(c, next, i + 1);
    }
  }

  lemma EnteredShape(c: Context, w: World)
    requires |c.answers| == |c.upstreams|
    ensures Shape(c, Entered(c, w).0) && Entered(c, w).0.offset == 0
    ensures !Broke(Entered(c, w).0) && Entered(c, w).0.reply.None? && Entered(c, w).0.attempts == 0
    ensures Entered(c, w).1 == AnyHealthy(c, w, 0).1
    ensures Entered(c, w).0.world.health == AnyHealthy(c, w, 0).0.health
    ensures Entered(c, w).0.world.reading == AnyHealthy(c, w, 0).0.reading + 1
  {
    hide AnyHealthy;
  }

  /** Failover: if the retries may cover the pool, and position `g` answers well whenever its upstream is
      asked, then the request is served, wherever the balancer starts it, provided that upstream is healthy
      at the start, or no upstream is; only a refusal of the retry budget can get in the way. */
  lemma Failover(c: Context, w: World, g: nat)
    requires WellFormed(c) && g < |c.upstreams| <= MaxAttempts(c)
    requires forall i | 0 <= i < |c.upstreams| && c.upstreams[i] == c.upstreams[g] :: IsGood(OutcomeAt(c, i))
    requires !Health.Cooling(c.rules, w.health, c.upstreams[g], c.clock(w.reading)) || !AnyHealthy(c, w, 0).1
    ensures Broke(FinalLoop(c, w)) || Finished(FinalLoop(c, w)).1.Served?
    ensures Finished(FinalLoop(c, w)).1.Served? ==> !IsServerError(Finished(FinalLoop(c, w)).1.status)
  {
    hide AnyHealthy, Walk, Entered, Health.Cooling, Backoff.IsJitter, Attempts, LastFailure;
    var (s, anyHealthy) := Entered(c, w);
    EnteredShape(c, w);
    var offset := OffsetOf(c, g);
    if anyHealthy {
      var scanned := AnyHealthy(c, w, 0).0;
      ScanKeepsHealthy(c, w, 0, c.upstreams[g]);
      CoolingFades(c, scanned.health, c.upstreams[g], scanned.reading, scanned.reading + 1);
    }
    WalkReplies(c, anyHealthy, s, offset);
    FinalKeeps(c, w);
  }

  // --- When the budget cannot refuse ---

  lemma QuotaGrows(policy: RetryBudget.Policy, fewer: nat, more: nat)
    requires fewer <= more
    ensures RetryBudget.Quota(policy, fewer) <= RetryBudget.Quota(policy, more)
  {
    var one := policy.percent / 100.0;
    assert fewer as real * policy.percent / 100.0 == fewer as real * one;
    assert more as real * policy.percent / 100.0 == more as real * one;
    if one >= 0.0 {
      assert (more - fewer) as real * one >= 0.0;
    } else {
      assert fewer as real * one <= 0.0 && more as real * one <= 0.0;
    }
  }

  /** A decision between two readings: the requests that stay in the window to the last of them pay for more
      retries than the window of the first one holds. */
  lemma Funded(policy: RetryBudget.Policy, b: RetryBudget.Budget, first: real, now: real, stamp: real, last: real)
    requires first <= now <= last
    requires |RetryBudget.Fresh(b.retries, first - policy.window)|
           < RetryBudget.Quota(policy, Max(|RetryBudget.Fresh(b.requests, last - policy.window)|, 1))
    ensures RetryBudget.Judge(policy, b, now) != RetryBudget.Refused
  {
    hide RetryBudget.Fresh, RetryBudget.Quota;
    RetryBudgetHistory.FreshShrinks(b.requests, now - policy.window, last - policy.window);
    RetryBudgetHistory.FreshShrinks(b.retries, first - policy.window, now - policy.window);
    var total := |RetryBudget.Fresh(b.requests, now - policy.window)|;
    if total > 0 {
      QuotaGrows(policy, Max(|RetryBudget.Fresh(b.requests, last - policy.window)|, 1), total);
    }
  }

  /** It adds at most one retry to the window, and takes no request out of it. */
  lemma DecisionMoves(policy: RetryBudget.Policy, b: RetryBudget.Budget, first: real, now: real, stamp: real,
                      last: real)
    requires first <= now <= last
    ensures var next := RetryBudget.After(policy, b, RetryBudget.Retry(now, stamp));
            && RetryBudget.Fresh(next.requests, last - policy.window)
               == RetryBudget.Fresh(b.requests, last - policy.window)
            && |RetryBudget.Fresh(next.retries, first - policy.window)|
               <= |RetryBudget.Fresh(b.retries, first - policy.window)| + 1
  {
    hide RetryBudget.Fresh, RetryBudget.Quota;
    var cutoff := now - policy.window;
    RetryBudgetHistory.FreshTwice(b.requests, cutoff, last - policy.window);
    RetryBudgetHistory.FreshShrinks(b.retries, first - policy.window, cutoff);
    var next := RetryBudget.After(policy, b, RetryBudget.Retry(now, stamp));
    RetryBudgetHistory.FreshShrinks(next.retries, first - policy.window, first - policy.window);
  }

  /** A reading that nothing in the request comes after: the scan takes at most one for each upstream, the
      request's record one, and a turn four. */
  function LastReading(c: Context, w: World): real {
    c.clock(w.reading + 5 * |c.upstreams| + 1)
  }

  /** The requests that stay in the window to the end, the request itself among them if it started late enough. */
  function StayingRequests(c: Context, w: World): nat {
    |RetryBudget.Fresh(w.budget.requests + [c.clock(w.reading)], LastReading(c, w) - c.policy.window)|
  }

  /** The retries in the window on arrival. */
  function RetriesOnArrival(c: Context, w: World): nat {
    |RetryBudget.Fresh(w.budget.retries, c.clock(w.reading) - c.policy.window)|
  }

  /** The requests in the window pay for the retries in it and for one on every other upstream of the pool. */
  predicate HasRoom(c: Context, w: World) {
    RetriesOnArrival(c, w) + |c.upstreams| - 1 <= RetryBudget.Quota(c.policy, Max(StayingRequests(c, w), 1))
  }

  /** What a turn leaves of that room. */
  ghost predicate Stocked(c: Context, w: World, s: Loop) {
    && w.reading <= s.world.reading <= w.reading + |c.upstreams| + 1 + 4 * s.offset
    && |RetryBudget.Fresh(s.world.budget.requests, LastReading(c, w) - c.policy.window)| >= StayingRequests(c, w)
    && |RetryBudget.Fresh(s.world.budget.retries, c.clock(w.reading) - c.policy.window)|
       <= RetriesOnArrival(c, w) + Max(s.attempts - 1, 0)
  }

  /** A turn that left the budget alone, or asked it at reading `r`. */
  predicate Decided(c: Context, s: Loop, next: Loop, visit: Visit, r: nat) {
    if next.world.budget == s.world.budget && !visit.Refused? then true
    else
      && s.attempts > 0
      && next.attempts == (if visit.Refused? then s.attempts else s.attempts + 1)
      && next.world.budget
         == RetryBudget.After(c.policy, s.world.budget, RetryBudget.Retry(c.clock(r), c.clock(r + 1)))
      && (visit.Refused? <==> RetryBudget.Judge(c.policy, s.world.budget, c.clock(r)) == RetryBudget.Refused)
  }

  /** A turn takes up to four readings, and asks the budget at most once. */
  lemma TurnDecides(c: Context, anyHealthy: bool, s: Loop) returns (r: nat)
    requires s.offset < |c.upstreams| == |c.answers|
    ensures s.world.reading <= r <= s.world.reading + 1
    ensures var next := Turn(c, anyHealthy, s);
            && |next.trace| == |s.trace| + 1
            && s.world.reading <= next.world.reading <= s.world.reading + 4
            && s.attempts <= next.attempts <= s.attempts + 1
            && Decided(c, s, next, next.trace[|s.trace|], r)
  {
    hide Health.Looked, Health.Failed, Health.Succeeded, RetryBudget.Judge, RetryBudget.After, LeastConnections.Done,
         LeastConnections.Started, OutcomeAt, WaitAt;
    r := s.world.reading + if anyHealthy then 1 else 0;
  }

  lemma ClockOrder(c: Context, i: nat, j: nat)
    requires WellFormed(c) && i <= j
    ensures c.clock(i) <= c.clock(j)
  {
  }

  lemma TurnFunded(c: Context, anyHealthy: bool, w: World, s: Loop)
    requires WellFormed(c) && HasRoom(c, w) && Stocked(c, w, s)
    requires s.offset < |c.upstreams| && s.attempts <= s.offset
    ensures Stocked(c, w, Turn(c, anyHealthy, s))
    ensures |Turn(c, anyHealthy, s).trace| == |s.trace| + 1 && !Turn(c, anyHealthy, s).trace[|s.trace|].Refused?
  {
    hide Turn, WellFormed, RetryBudget.Fresh, RetryBudget.Quota, RetryBudget.Judge, RetryBudget.After;
    LimitNonNegative(c);
    TurnAdvances(c, anyHealthy, s);
    var r := TurnDecides(c, anyHealthy, s);
    var end := w.reading + 5 * |c.upstreams| + 1;
    ClockOrder(c, w.reading, r);
    ClockOrder(c, r, end);
    var first, now, stamp, last := c.clock(w.reading), c.clock(r), c.clock(r + 1), LastReading(c, w);
    DecisionMoves(c.policy, s.world.budget, first, now, stamp, last);
    if s.attempts > 0 {
      QuotaGrows(c.policy, Max(StayingRequests(c, w), 1),
                 Max(|RetryBudget.Fresh(s.world.budget.requests, last - c.policy.window)|, 1));
      Funded(c.policy, s.world.budget, first, now, stamp, last);
    }
  }

  lemma {:induction false} WalkFunded(c: Context, anyHealthy: bool, w: World, s: Loop)
    requires WellFormed(c) && HasRoom(c, w) && Stocked(c, w, s) && Shape(c, s) && !Broke(s)
    ensures !Broke(Walk(c, anyHealthy, s))
    decreases |c.upstreams| - s.offset
  {
    hide Turn, Stocked, HasRoom, WellFormed, Attempts, LastFailure;
    LimitNonNegative(c);
    if !Halted(c, s) {
      TurnAdvances(c, anyHealthy, s);
      TurnFunded(c, anyHealthy, w, s);
      TurnKeepsShape(c, anyHealthy, s);
      WalkFunded(c, anyHealthy, w, Turn(c, anyHealthy, s));
    }
  }

  lemma {:induction false} ScanReadings(c: Context, w: World, i: nat)
    requires i <= |c.upstreams|
    ensures w.reading <= AnyHealthy(c, w, i).0.reading <= w.reading + |c.upstreams| - i
    decreases |c.upstreams| - i
  {
    hide Health.Looked;
    if i < |c.upstreams| {
      ScanReadings(c, Look(c, w, c.upstreams[i]).0, i + 1);
    }
  }

  /** Its record, taken after the scan, keeps the request in the window at least as long as its arrival would. */
  lemma EnteredStocked(c: Context, w: World)
    requires WellFormed(c)
    ensures Stocked(c, w, Entered(c, w).0)
  {
    hide WellFormed, RetryBudget.Fresh;
    LimitNonNegative(c);
    ScanCounts(c, w, 0);
    ScanReadings(c, w, 0);
    var recorded, cutoff := c.clock(AnyHealthy(c, w, 0).0.reading), LastReading(c, w) - c.policy.window;
    ClockOrder(c, w.reading, AnyHealthy(c, w, 0).0.reading);
    hide AnyHealthy;
    RetryBudgetHistory.FreshPush(w.budget.requests, c.clock(w.reading), cutoff);
    RetryBudgetHistory.FreshPush(w.budget.requests, recorded, cutoff);
  }

  /** Failover without conditions on the way: when, on arrival, the requests that stay in the window pay for a
      retry on every other upstream besides the retries it holds, the request is served. */
  lemma FailoverFunded(c: Context, w: World, g: nat)
    requires WellFormed(c) && g < |c.upstreams| <= MaxAttempts(c)
    requires forall i | 0 <= i < |c.upstreams| && c.upstreams[i] == c.upstreams[g] :: IsGood(OutcomeAt(c, i))
    requires !Health.Cooling(c.rules, w.health, c.upstreams[g], c.clock(w.reading)) || !AnyHealthy(c, w, 0).1
    requires |c.upstreams| == 1 || HasRoom(c, w)
    ensures Finished(FinalLoop(c, w)).1.Served? && !IsServerError(Finished(FinalLoop(c, w)).1.status)
  {
    hide Health.Cooling, Backoff.IsJitter, Attempts, LastFailure, HasRoom, Stocked, Walk;
    Failover(c, w, g);
    EnteredShape(c, w);
    EnteredStocked(c, w);
    var (s, anyHealthy) := Entered(c, w);
    hide AnyHealthy, Entered;
    if |c.upstreams| > 1 {
      WalkFunded(c, anyHealthy, w, s);
    } else {
      FinalKeeps(c, w);
      NeverAlone(c, w);
    }
  }

  /** A pool of one leaves no one to retry on. */
  lemma NeverAlone(c: Context, w: World)
    requires |c.answers| == |c.upstreams| == 1
    ensures !Broke(FinalLoop(c, w))
  {
    hide FinalLoop, LastFailure;
    FinalKeeps(c, w);
    var trace := FinalLoop(c, w).trace;
    if trace != [] {
      assert trace == [] + [trace[0]];
      TraceGrows([], trace[0]);
    }
  }

  /** The least that room takes: the quota of a single request, as when no other is in the window. */
  lemma RoomOfOne(c: Context, w: World)
    requires |w.budget.retries| + |c.upstreams| - 1 <= RetryBudgetHistory.Factor(c.policy)
    ensures HasRoom(c, w)
  {
    hide RetryBudget.Fresh, RetryBudget.Quota;
    var cutoff := c.clock(w.reading) - c.policy.window;
    RetryBudgetHistory.FreshShrinks(w.budget.retries, cutoff, cutoff);
    QuotaGrows(c.policy, 1, Max(StayingRequests(c, w), 1));
    QuotaOfOne(c.policy);
  }

  lemma QuotaOfOne(policy: RetryBudget.Policy)
    ensures RetryBudget.Quota(policy, 1) == RetryBudgetHistory.Factor(policy)
  {
    assert 1 as real * policy.percent / 100.0 == policy.percent / 100.0;
  }

  // --- At least one attempt ---

  lemma {:induction false} WalkAttempts(c: Context, anyHealthy: bool, s: Loop, offset: nat)
    requires WellFormed(c) && Shape(c, s) && 0 < MaxAttempts(c)
    requires s.offset <= offset < |c.upstreams| && s.attempts == 0 && (anyHealthy ==> Awaits(c, s, offset))
    ensures Walk(c, anyHealthy, s).attempts > 0
    decreases |c.upstreams| - s.offset
  {
    hide Turn, LastFailure, Awaits, Backoff.IsJitter;
    var next := Turn(c, anyHealthy, s);
    NoAttemptNoEnd(c, s);
    TurnAdvances(c, anyHealthy, s);
    TurnKeepsShape(c, anyHealthy, s);
    if next.attempts > 0 {
      WalkOnlyAdds(c, anyHealthy, next);
    } else if s.offset == offset {
      TurnVisits(c, anyHealthy, s);
    } else {
      if anyHealthy {
        assert next.trace[|s.trace|].Skipped?;
        SkipAwaits(c, s, offset);
      }
      WalkAttempts(c, anyHealthy, next, offset);
    }
  }

  lemma NoAttemptNoEnd(c: Context, s: Loop)
    requires |c.answers| == |c.upstreams| && Shape(c, s) && s.attempts == 0
    ensures s.reply.None? && !Broke(s)
  {
    if s.trace != [] {
      TraceGrows(s.trace[..|s.trace| - 1], s.trace[|s.trace| - 1]);
    }
  }

  lemma SkipAwaits(c: Context, s: Loop, offset: nat)
    requires WellFormed(c) && c.upstreams != [] && s.offset < offset && Awaits(c, s, offset)
    requires !Look(c, s.world, c.upstreams[Index(c, s.offset)]).1
    ensures Awaits(c, Turn(c, true, s), offset)
  {
    hide Health.Looked, Health.Cooling, RetryBudget.Judge, RetryBudget.After, Attempt, Backoff.IsJitter;
    LookKeepsHealthy(c, s.world, c.upstreams[Index(c, s.offset)], c.upstreams[Index(c, offset)]);
  }

  lemma {:induction false} WalkOnlyAdds(c: Context, anyHealthy: bool, s: Loop)
    requires |c.answers| == |c.upstreams|
    ensures Walk(c, anyHealthy, s).attempts >= s.attempts
    decreases |c.upstreams| - s.offset
  {
    hide Turn;
    if !Halted(c, s) {
      TurnAdvances(c, anyHealthy, s);
      WalkOnlyAdds(c, anyHealthy, Turn(c, anyHealthy, s));
    }
  }

  /** Without interference a request is sent to at least one upstream exactly when there is one and the cap
      has not wrapped to zero. */
  lemma TriesSomething(c: Context, w: World)
    requires WellFormed(c)
    ensures FinalLoop(c, w).attempts > 0 <==> c.upstreams != [] && MaxAttempts(c) > 0
  {
    hide AnyHealthy, Entered, Health.Cooling, Backoff.IsJitter, Attempts, LastFailure, Turn;
    var (s, anyHealthy) := Entered(c, w);
    EnteredShape(c, w);
    if c.upstreams != [] && MaxAttempts(c) > 0 {
      var offset := 0;
      if anyHealthy {
        var found := ScanFinds(c, w, 0);
        offset := OffsetOf(c, found);
        var scanned := AnyHealthy(c, w, 0).0;
        CoolingFades(c, scanned.health, c.upstreams[found], scanned.reading, scanned.reading + 1);
      }
      WalkAttempts(c, anyHealthy, s, offset);
    }
  }

  // --- What the health tracker hears ---

  /** The ledger after a sequence of events. */
  function Heard(rules: Health.Rules, ledger: Health.Ledger, events: seq<Health.Event>): Health.Ledger {
    if events == [] then ledger
    else Health.After(rules, Heard(rules, ledger, events[..|events| - 1]), events[|events| - 1])
  }

  /** A verdict on an upstream: did it answer well? */
  datatype Report = Report(u: Health.Upstream, good: bool)

  function ReportOfEvent(event: Health.Event): seq<Report> {
    match event
    case Failure(u, _) => [Report(u, false)]
    case Success(u, _) => [Report(u, true)]
    case Look(_, _) => []
  }

  function ReportsHeard(events: seq<Health.Event>): seq<Report> {
    if events == [] then [] else ReportsHeard(events[..|events| - 1]) + ReportOfEvent(events[|events| - 1])
  }

  function ReportOfVisit(c: Context, visit: Visit): seq<Report> {
    if visit.Tried? && visit.index < |c.upstreams| then [Report(c.upstreams[visit.index], IsGood(visit.outcome))]
    else []
  }

  function ReportsMade(c: Context, trace: seq<Visit>): seq<Report> {
    if trace == [] then [] else ReportsMade(c, trace[..|trace| - 1]) + ReportOfVisit(c, trace[|trace| - 1])
  }

  /** `events` explain the ledger `after`, and the reports among them are those of the attempts. */
  ghost predicate Explains(c: Context, w: World, events: seq<Health.Event>, after: World, trace: seq<Visit>) {
    after.health == Heard(c.rules, w.health, events) && ReportsHeard(events) == ReportsMade(c, trace)
  }

  lemma HearOne(c: Context, w: World, events: seq<Health.Event>, event: Health.Event)
    ensures Heard(c.rules, w.health, events + [event]) == Health.After(c.rules, Heard(c.rules, w.health, events), event)
    ensures ReportsHeard(events + [event]) == ReportsHeard(events) + ReportOfEvent(event)
  {
    assert (events + [event])[..|events|] == events;
  }

  lemma LookExplained(c: Context, w: World, events: seq<Health.Event>, before: World, trace: seq<Visit>,
                      u: Health.Upstream) returns (longer: seq<Health.Event>)
    requires Explains(c, w, events, before, trace)
    ensures Explains(c, w, longer, Look(c, before, u).0, trace)
  {
    hide Heard, ReportsHeard, ReportsMade, Health.Looked;
    var event := Health.Look(u, c.clock(before.reading));
    HearOne(c, w, events, event);
    longer := events + [event];
    assert ReportOfEvent(event) == [];
  }

  lemma AttemptExplained(c: Context, w: World, events: seq<Health.Event>, s: Loop, index: nat)
      returns (longer: seq<Health.Event>)
    requires index < |c.upstreams| == |c.answers| && Explains(c, w, events, s.world, s.trace)
    ensures Explains(c, w, longer, Attempt(c, s, index).world, Attempt(c, s, index).trace)
  {
    hide Heard, ReportsHeard, ReportsMade, Health.Failed, Health.Succeeded, LeastConnections.Started,
         LeastConnections.Done;
    var u, now, visit := c.upstreams[index], c.clock(s.world.reading), Tried(index, OutcomeAt(c, index));
    var event := if IsGood(OutcomeAt(c, index)) then Health.Success(u, now) else Health.Failure(u, now);
    HearOne(c, w, events, event);
    longer := events + [event];
    MadeOne(c, s.trace, visit);
  }

  lemma MadeOne(c: Context, trace: seq<Visit>, visit: Visit)
    ensures ReportsMade(c, trace + [visit]) == ReportsMade(c, trace) + ReportOfVisit(c, visit)
  {
    assert (trace + [visit])[..|trace|] == trace;
  }

  lemma TurnExplained(c: Context, anyHealthy: bool, w: World, events: seq<Health.Event>, s: Loop)
      returns (longer: seq<Health.Event>)
    requires s.offset < |c.upstreams| == |c.answers| && Explains(c, w, events, s.world, s.trace)
    ensures Explains(c, w, longer, Turn(c, anyHealthy, s).world, Turn(c, anyHealthy, s).trace)
  {
    hide Heard, ReportsHeard, ReportsMade, Health.Looked, RetryBudget.Judge, RetryBudget.After, Attempt, Backoff.Delay;
    var index := Index(c, s.offset);
    var (seen, healthy) := if anyHealthy then Look(c, s.world, c.upstreams[index]) else (s.world, true);
    longer := events;
    if anyHealthy {
      longer := LookExplained(c, w, events, s.world, s.trace, c.upstreams[index]);
    }
    if !healthy {
      MadeOne(c, s.trace, Skipped(index));
      assert ReportsMade(c, s.trace) + [] == ReportsMade(c, s.trace);
    } else if s.attempts == 0 {
      longer := AttemptExplained(c, w, longer, s.(world := seen), index);
    } else {
      var (asked, allowed) := AllowRetry(c, seen);
      if allowed {
        var slept := s.(world := BackOff(c, asked, s.attempts), jitters := s.jitters + [c.jitter(s.attempts)]);
        longer := AttemptExplained(c, w, longer, slept, index);
      } else {
        MadeOne(c, s.trace, Refused(index));
        assert ReportsMade(c, s.trace) + [] == ReportsMade(c, s.trace);
      }
    }
  }

  lemma {:induction false} WalkExplained(c: Context, anyHealthy: bool, w: World, events: seq<Health.Event>, s: Loop)
      returns (longer: seq<Health.Event>)
    requires |c.upstreams| == |c.answers| && Explains(c, w, events, s.world, s.trace)
    ensures Explains(c, w, longer, Walk(c, anyHealthy, s).world, Walk(c, anyHealthy, s).trace)
    decreases |c.upstreams| - s.offset
  {
    hide Turn, Explains;
    longer := events;
    if !Halted(c, s) {
      TurnAdvances(c, anyHealthy, s);
      longer := TurnExplained(c, anyHealthy, w, events, s);
      longer := WalkExplained(c, anyHealthy, w, longer, Turn(c, anyHealthy, s));
    }
  }

  lemma {:induction false} ScanExplained(c: Context, w: World, events: seq<Health.Event>, before: World, i: nat)
      returns (longer: seq<Health.Event>)
    requires i <= |c.upstreams| && Explains(c, w, events, before, [])
    ensures Explains(c, w, longer, AnyHealthy(c, before, i).0, [])
    decreases |c.upstreams| - i
  {
    hide Explains, Look;
    longer := events;
    if i < |c.upstreams| {
      longer := LookExplained(c, w, events, before, [], c.upstreams[i]);
      if !Look(c, before, c.upstreams[i]).1 {
        longer := ScanExplained(c, w, longer, Look(c, before, c.upstreams[i]).0, i + 1);
      }
    }
  }

  /** The health ledger that a request leaves is the one it found after some events whose reports are, in
      order, one per attempt: the upstream that was tried, and whether it answered well. */
  lemma HealthHearsAttempts(c: Context, w: World)
    requires |c.answers| == |c.upstreams|
    ensures exists events :: Explains(c, w, events, FinalLoop(c, w).world, FinalLoop(c, w).trace)
  {
    hide AnyHealthy, Walk;
    assert Explains(c, w, [], w, []);
    var scanned := ScanExplained(c, w, [], w, 0);
    var (s, anyHealthy) := Entered(c, w);
    assert Explains(c, w, scanned, s.world, s.trace);
    var events := WalkExplained(c, anyHealthy, w, scanned, s);
    assert Explains(c, w, events, FinalLoop(c, w).world, FinalLoop(c, w).trace);
  }
}
