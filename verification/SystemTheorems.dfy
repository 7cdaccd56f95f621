/** What holds in every state that the proxy can reach, however its steps interleave. */
module SystemTheorems {
  import opened Prelude
  import opened ProxyLoop
  import opened ProxySystem
  import opened SystemInvariants
  import Division
  import Health
  import RetryBudget
  import RetryBudgetHistory
  import LeastConnections
  import RetryLoop

  // --- Counters of the metrics ---

  /** Each metric is the sum of what the requests have done, label by label. */
  ghost predicate Totals(s: State) {
    && s.retriesTotal == Sum(s.jobs, GrantsOf)
    && s.errorsTotal == Gather(s.jobs, FailuresOf)
    && s.requestsTotal == Gather(s.jobs, RepliedWith)
  }

  /** The metrics move by what the step does to the request `job`. */
  predicate Counts(s: State, job: Job, t: State, next: Job) {
    && t.retriesTotal + job.grants == s.retriesTotal + next.grants
    && t.errorsTotal + FailuresOf(job) == s.errorsTotal + FailuresOf(next)
    && t.requestsTotal + RepliedWith(job) == s.requestsTotal + RepliedWith(next)
  }

  lemma SameTrace(job: Job, next: Job)
    ensures job.trace == next.trace ==> FailuresOf(job) == FailuresOf(next)
  {
  }

  /** Skips and refusals are no failures. */
  lemma QuietVisit(job: Job, visit: Visit)
    requires !visit.Tried?
    ensures FailuresOf(Visited(job, visit)) == FailuresOf(job)
  {
    hide RetryLoop.Failures;
    RetryLoop.TraceGrows(job.trace, visit);
  }

  lemma GiveUpCounts(s: State, j: nat, job: Job)
    requires j < |s.jobs| && !s.jobs[j].phase.Replied?
    requires FailuresOf(job) == FailuresOf(s.jobs[j]) && job.grants == s.jobs[j].grants
    ensures var t := GiveUp(s, j, job);
            j < |t.jobs| && Counts(s, s.jobs[j], t, t.jobs[j])
  {
    hide RetryLoop.Failures;
  }

  lemma VisitedKeeps(job: Job, visit: Visit)
    ensures Visited(job, visit).grants == job.grants
  {
  }

  lemma AskCounts(c: Constants, s: State, j: nat, now: real, stamp: real)
    requires Enabled(s, Ask(j, now, stamp))
    ensures var t := AfterAsk(c, s, j, now, stamp);
            j < |t.jobs| && Counts(s, s.jobs[j], t, t.jobs[j])
  {
    hide RetryBudget.Judge, RetryBudget.After, GiveUp, Visited, RetryLoop.Failures, Position;
    var job := s.jobs[j];
    QuietVisit(job, Refused(Position(job)));
    VisitedKeeps(job, Refused(Position(job)));
    GiveUpCounts(Judged(c, s, job, now, stamp), j, Visited(job, Refused(Position(job))));
  }

  lemma ScanCounts(c: Constants, s: State, j: nat, now: real)
    requires Enabled(s, Scan(j, now))
    ensures var t := AfterScan(c, s, j, now);
            j < |t.jobs| && Counts(s, s.jobs[j], t, t.jobs[j])
  {
    hide Health.Looked;
  }

  lemma HeadCounts(c: Constants, s: State, j: nat, now: real)
    requires Enabled(s, Head(j, now))
    ensures var t := AfterHead(c, s, j, now);
            j < |t.jobs| && Counts(s, s.jobs[j], t, t.jobs[j])
  {
    hide Health.Looked, RetryLoop.Failures, GiveUp, Position, FailuresOf;
    var job := s.jobs[j];
    QuietVisit(job, Skipped(Position(job)));
    GiveUpCounts(s, j, job);
    SameTrace(job, job.(phase := if job.attempts > 0 then Asking else Launching));
  }

  lemma SettleCounts(c: Constants, s: State, j: nat, now: real)
    requires Enabled(s, Settle(j, now))
    ensures var t := AfterSettle(c, s, j, now);
            j < |t.jobs| && Counts(s, s.jobs[j], t, t.jobs[j])
  {
    hide Health.Failed, Health.Succeeded, RetryLoop.Failures, Position, LabelOf;
    RetryLoop.TraceGrows(s.jobs[j].trace, Tried(Position(s.jobs[j]), s.jobs[j].phase.outcome));
  }

  lemma StepCounts(c: Constants, s: State, step: Step)
    requires Enabled(s, step) && Owner(step).Some?
    ensures var t, j := Apply(c, s, step), Owner(step).value;
            j < |s.jobs| == |t.jobs| && Counts(s, s.jobs[j], t, t.jobs[j])
  {
    hide AfterScan, AfterHead, AfterAsk, AfterSettle, Works, FailuresOf, Position, Moved, LeastConnections.Started,
         LeastConnections.Done;
    StepMoves(c, s, step);
    SameTrace(s.jobs[Owner(step).value], Apply(c, s, step).jobs[Owner(step).value]);
    match step
    case Scan(j, now) => ScanCounts(c, s, j, now);
    case Head(j, now) => HeadCounts(c, s, j, now);
    case Ask(j, now, stamp) => AskCounts(c, s, j, now, stamp);
    case Settle(j, now) => SettleCounts(c, s, j, now);
    case _ =>
  }

  lemma OtherStepsCountNothing(c: Constants, s: State, step: Step)
    requires Enabled(s, step) && Owner(step).None?
    ensures var t := Apply(c, s, step);
            t.retriesTotal == s.retriesTotal && t.errorsTotal == s.errorsTotal && t.requestsTotal == s.requestsTotal
  {
    hide Health.Looked, Health.Failed, Health.Succeeded;
  }

  lemma Cancel<T>(a: multiset<T>, b: multiset<T>, x: multiset<T>)
    requires a + x == b + x
    ensures a == b
  {
    forall e: T
      ensures a[e] == b[e]
    {
      assert (a + x)[e] == (b + x)[e];
    }
  }

  lemma StepKeepsTotals(c: Constants, s: State, step: Step)
    requires Enabled(s, step) && Totals(s)
    ensures Totals(Apply(c, s, step))
  {
    hide Apply, Enabled, Sum, Gather, Moved, FailuresOf, RepliedWith;
    var t := Apply(c, s, step);
    StepMoves(c, s, step);
    if Owner(step).Some? {
      var j := Owner(step).value;
      var job, next := s.jobs[j], t.jobs[j];
      StepCounts(c, s, step);
      SumPut(s.jobs, j, next, GrantsOf);
      GatherPut(s.jobs, j, next, FailuresOf);
      GatherPut(s.jobs, j, next, RepliedWith);
      Cancel(t.errorsTotal, Gather(t.jobs, FailuresOf), FailuresOf(job));
      Cancel(t.requestsTotal, Gather(t.jobs, RepliedWith), RepliedWith(job));
    } else {
      OtherStepsCountNothing(c, s, step);
      SumAppend(s.jobs, NEW_JOB, GrantsOf);
      GatherAppend(s.jobs, NEW_JOB, FailuresOf);
      GatherAppend(s.jobs, NEW_JOB, RepliedWith);
      NewJobCounts();
    }
  }

  lemma NewJobCounts()
    ensures FailuresOf(NEW_JOB) == multiset{} && RepliedWith(NEW_JOB) == multiset{} && GrantsOf(NEW_JOB) == 0
  {
  }

  // --- Connection counts ---

  /** 1 for a request with an attempt in flight on position `i` of that pool. */
  function InFlightAt(g: nat, k: nat, i: nat): Job -> nat {
    (job: Job) => if job.phase.Flying? && job.router == g && job.route == k && Position(job) == i then 1 else 0
  }

  /** 1 for a request that was dropped while such an attempt was in flight. */
  function AbandonedAt(g: nat, k: nat, i: nat): Job -> nat {
    (job: Job) => if job.phase == Dropped(true) && job.router == g && job.route == k && Position(job) == i then 1 else 0
  }

  ghost predicate ConservedAt(s: State, g: nat, k: nat, i: nat)
    requires Generations(s) && g < |s.routers| && k < |s.routers[g]| && i < |s.routers[g][k].upstreams|
  {
    s.routers[g][k].active[i] == Sum(s.jobs, InFlightAt(g, k, i)) + Sum(s.jobs, AbandonedAt(g, k, i))
  }

  /** Every count of every balancer is the attempts in flight plus the attempts that were dropped. */
  ghost predicate Conserved(s: State)
    requires Generations(s)
  {
    forall g, k, i | 0 <= g < |s.routers| && 0 <= k < |s.routers[g]| && 0 <= i < |s.routers[g][k].upstreams| ::
      ConservedAt(s, g, k, i)
  }

  lemma OnlyFlightsTouchPools(c: Constants, s: State, step: Step)
    requires Enabled(s, step) && Owner(step).Some? && !step.Launch? && !step.Land?
    ensures Apply(c, s, step).routers == s.routers
  {
    hide Health.Looked, Health.Failed, Health.Succeeded, RetryBudget.Judge, RetryBudget.After;
  }

  /** Away from take-off and landing, a request holds what it held. */
  lemma HoldsOn(s: State, step: Step, job: Job, next: Job, g: nat, k: nat, i: nat)
    requires Moved(s, step, job, next) && !step.Launch? && !step.Land?
    ensures InFlightAt(g, k, i)(next) + AbandonedAt(g, k, i)(next)
         == InFlightAt(g, k, i)(job) + AbandonedAt(g, k, i)(job)
  {
    assert job.phase.Flying? ==> step.Drop?;
    assert !job.phase.Dropped?;
    assert next.phase.Dropped? ==> step.Drop?;
    assert !next.phase.Flying?;
    assert step.Drop? ==> Position(next) == Position(job);
  }

  lemma FlightMovesCount(c: Constants, s: State, step: Step, g: nat, k: nat, i: nat)
    requires Enabled(s, step) && (step.Launch? || step.Land?) && Generations(s)
    requires g < |s.routers| && k < |s.routers[g]| && i < |s.routers[g][k].upstreams|
    requires InFlightAt(g, k, i)(s.jobs[step.j]) <= s.routers[g][k].active[i]
    ensures var t := Apply(c, s, step);
            && g < |t.routers| && k < |t.routers[g]| && i < |t.routers[g][k].active| && step.j < |t.jobs|
            && t.routers[g][k].active[i] + InFlightAt(g, k, i)(s.jobs[step.j]) + AbandonedAt(g, k, i)(s.jobs[step.j])
               == s.routers[g][k].active[i] + InFlightAt(g, k, i)(t.jobs[step.j]) + AbandonedAt(g, k, i)(t.jobs[step.j])
  {
    hide AfterScan, AfterRecord, AfterHead, AfterAsk, AfterSettle;
    var job := s.jobs[step.j];
    if job.router == g && job.route == k && Position(job) == i {
      assert PoolOf(s, job) == s.routers[g][k];
    }
  }

  /** A count moves exactly with the request that the step belongs to. */
  lemma StepActive(c: Constants, s: State, step: Step, g: nat, k: nat, i: nat)
    requires Enabled(s, step) && Owner(step).Some? && Generations(s)
    requires g < |s.routers| && k < |s.routers[g]| && i < |s.routers[g][k].upstreams|
    requires InFlightAt(g, k, i)(s.jobs[Owner(step).value]) <= s.routers[g][k].active[i]
    ensures var t, j := Apply(c, s, step), Owner(step).value;
            && j < |s.jobs| == |t.jobs|
            && g < |t.routers| && k < |t.routers[g]| && i < |t.routers[g][k].active|
            && t.routers[g][k].active[i] + InFlightAt(g, k, i)(s.jobs[j]) + AbandonedAt(g, k, i)(s.jobs[j])
               == s.routers[g][k].active[i] + InFlightAt(g, k, i)(t.jobs[j]) + AbandonedAt(g, k, i)(t.jobs[j])
  {
    hide Apply, Enabled, Moved, InFlightAt, AbandonedAt;
    StepMoves(c, s, step);
    if step.Launch? || step.Land? {
      FlightMovesCount(c, s, step, g, k, i);
    } else {
      var j := Owner(step).value;
      OnlyFlightsTouchPools(c, s, step);
      HoldsOn(s, step, s.jobs[j], Apply(c, s, step).jobs[j], g, k, i);
    }
  }

  lemma StepKeepsConserved(c: Constants, s: State, step: Step)
    requires Enabled(s, step) && Generations(s) && JobsOk(s) && Conserved(s)
    ensures Generations(Apply(c, s, step)) && Conserved(Apply(c, s, step))
  {
    var t := Apply(c, s, step);
    StepExtends(c, s, step);
    forall g, k, i | 0 <= g < |t.routers| && 0 <= k < |t.routers[g]| && 0 <= i < |t.routers[g][k].upstreams|
      ensures ConservedAt(t, g, k, i)
    {
      if Owner(step).Some? {
        OwnedStepConserves(c, s, step, g, k, i);
      } else {
        OtherStepConserves(c, s, step, g, k, i);
      }
    }
  }

  lemma OwnedStepConserves(c: Constants, s: State, step: Step, g: nat, k: nat, i: nat)
    requires Enabled(s, step) && Owner(step).Some? && Generations(s) && Conserved(s)
    requires Generations(Apply(c, s, step)) && Extends(s, Apply(c, s, step))
    requires |s.routers| == |Apply(c, s, step).routers|
    requires var t := Apply(c, s, step); g < |t.routers| && k < |t.routers[g]| && i < |t.routers[g][k].upstreams|
    ensures ConservedAt(Apply(c, s, step), g, k, i)
  {
    hide Apply, Enabled, Sum, Moved, InFlightAt, AbandonedAt;
    var t, j := Apply(c, s, step), Owner(step).value;
    StepMoves(c, s, step);
    assert ConservedAt(s, g, k, i);
    SumPut(s.jobs, j, t.jobs[j], InFlightAt(g, k, i));
    SumPut(s.jobs, j, t.jobs[j], AbandonedAt(g, k, i));
    StepActive(c, s, step, g, k, i);
  }

  lemma OtherStepConserves(c: Constants, s: State, step: Step, g: nat, k: nat, i: nat)
    requires Enabled(s, step) && Owner(step).None? && Generations(s) && JobsOk(s) && Conserved(s)
    requires Generations(Apply(c, s, step))
    requires var t := Apply(c, s, step); g < |t.routers| && k < |t.routers[g]| && i < |t.routers[g][k].upstreams|
    ensures ConservedAt(Apply(c, s, step), g, k, i)
  {
    hide Sum, Enabled;
    if g < |s.routers| {
      assert ConservedAt(s, g, k, i);
      SumAppend(s.jobs, NEW_JOB, InFlightAt(g, k, i));
      SumAppend(s.jobs, NEW_JOB, AbandonedAt(g, k, i));
    } else {
      assert forall j | 0 <= j < |s.jobs| :: JobOk(s, s.jobs[j]);
      SumZero(s.jobs, InFlightAt(g, k, i));
      SumZero(s.jobs, AbandonedAt(g, k, i));
    }
  }

  // --- The retry budget ---

  /** The budget replays its history; the logs hold one entry per counted request and per recorded grant;
      and a grant goes unrecorded only when it is late. */
  ghost predicate Budgeted(c: Constants, s: State) {
    var logs := RetryBudget.Logs(c.policy, s.events, |s.events|);
    && RetryBudget.Ordered(s.events)
    && (forall e | 0 <= e < |s.events| :: RetryBudget.End(s.events[e]) <= s.now)
    && s.budget == RetryBudget.Replay(c.policy, s.events, |s.events|)
    && |logs.requests| == Sum(s.jobs, Counted)
    && |logs.retries| + s.unrecorded == Sum(s.jobs, GrantsOf)
    && s.unrecorded <= s.late
    && (forall j | 0 <= j < |s.jobs| && s.jobs[j].recordedAt.Some? :: s.jobs[j].recordedAt.value in logs.requests)
  }

  lemma {:induction false} LongerHistory(policy: RetryBudget.Policy, events: seq<RetryBudget.Event>,
                                         event: RetryBudget.Event, k: nat)
    requires k <= |events|
    ensures RetryBudget.Replay(policy, events + [event], k) == RetryBudget.Replay(policy, events, k)
    ensures RetryBudget.Logs(policy, events + [event], k) == RetryBudget.Logs(policy, events, k)
  {
    hide RetryBudget.After, RetryBudget.Logged;
    if k > 0 {
      LongerHistory(policy, events, event, k - 1);
      assert (events + [event])[k - 1] == events[k - 1];
    }
  }

  lemma OneMoreEvent(policy: RetryBudget.Policy, events: seq<RetryBudget.Event>, event: RetryBudget.Event)
    ensures var n, longer := |events|, events + [event];
            && |longer| == n + 1
            && RetryBudget.Replay(policy, longer, n + 1)
               == RetryBudget.After(policy, RetryBudget.Replay(policy, events, n), event)
            && RetryBudget.Logs(policy, longer, n + 1)
               == RetryBudget.Logged(policy, RetryBudget.Logs(policy, events, n), event)
  {
    hide RetryBudget.After, RetryBudget.Logged;
    LongerHistory(policy, events, event, |events|);
  }

  lemma OtherStepsSkipBudget(c: Constants, s: State, step: Step)
    requires Enabled(s, step) && !step.Record? && !step.Ask?
    ensures var t := Apply(c, s, step);
            && t.events == s.events && t.budget == s.budget && t.unrecorded == s.unrecorded
            && t.late == s.late && s.now <= t.now
  {
    hide Health.Looked, Health.Failed, Health.Succeeded, LeastConnections.Started, LeastConnections.Done;
  }

  lemma OtherStepKeepsBudget(c: Constants, s: State, step: Step)
    requires Enabled(s, step) && !step.Record? && !step.Ask? && Budgeted(c, s)
    ensures Budgeted(c, Apply(c, s, step))
  {
    hide Apply, Enabled, Sum, RetryBudget.Replay, RetryBudget.Logs;
    var t := Apply(c, s, step);
    OtherStepsSkipBudget(c, s, step);
    StepMoves(c, s, step);
    if Owner(step).Some? {
      var j := Owner(step).value;
      assert t.jobs[j].recordedAt == s.jobs[j].recordedAt && t.jobs[j].grants == s.jobs[j].grants;
      SumPut(s.jobs, j, t.jobs[j], Counted);
      SumPut(s.jobs, j, t.jobs[j], GrantsOf);
    } else {
      SumAppend(s.jobs, NEW_JOB, Counted);
      SumAppend(s.jobs, NEW_JOB, GrantsOf);
    }
  }

  lemma RecordKeepsBudget(c: Constants, s: State, j: nat, now: real)
    requires Enabled(s, Record(j, now)) && Budgeted(c, s) && JobsOk(s)
    ensures Budgeted(c, Apply(c, s, Record(j, now)))
  {
    hide Sum, RetryBudget.Replay, RetryBudget.Logs, Route, Snapshot;
    var t := Apply(c, s, Record(j, now));
    assert JobOk(s, s.jobs[j]);
    OneMoreEvent(c.policy, s.events, RetryBudget.Request(now));
    SumPut(s.jobs, j, t.jobs[j], Counted);
    SumPut(s.jobs, j, t.jobs[j], GrantsOf);
  }

  /** The budget judges like its full logs, and finds the asking request in them unless it asks too late. */
  lemma AskVerdict(c: Constants, s: State, j: nat, now: real, stamp: real)
    requires Enabled(s, Ask(j, now, stamp)) && Budgeted(c, s)
    ensures var logs := RetryBudget.Logs(c.policy, s.events, |s.events|);
            && RetryBudget.Judge(c.policy, s.budget, now) == RetryBudget.Judge(c.policy, logs, now)
            && (RetryBudget.Judge(c.policy, s.budget, now) == RetryBudget.Unrecorded ==>
                  now - s.jobs[j].recordedAt.value >= c.policy.window)
    ensures RetryBudget.Ordered(s.events + [RetryBudget.Retry(now, stamp)])
  {
    hide RetryBudget.Replay, RetryBudget.Logs, RetryBudget.Fresh, RetryBudget.Quota, Sum;
    var event := RetryBudget.Retry(now, stamp);
    var longer, logs := s.events + [event], RetryBudget.Logs(c.policy, s.events, |s.events|);
    LongerHistory(c.policy, s.events, event, |s.events|);
    RetryBudgetHistory.SameVerdict(c.policy, longer, |s.events|);
    if now - s.jobs[j].recordedAt.value < c.policy.window {
      RetryBudgetHistory.FreshHolds(logs.requests, s.jobs[j].recordedAt.value, now - c.policy.window);
    }
  }

  lemma AskKeepsBudget(c: Constants, s: State, j: nat, now: real, stamp: real)
    requires Enabled(s, Ask(j, now, stamp)) && Budgeted(c, s)
    ensures Budgeted(c, Apply(c, s, Ask(j, now, stamp)))
  {
    hide Sum, RetryBudget.Replay, RetryBudget.Logs, RetryBudget.Judge, RetryBudget.After;
    var t := Apply(c, s, Ask(j, now, stamp));
    AskVerdict(c, s, j, now, stamp);
    OneMoreEvent(c.policy, s.events, RetryBudget.Retry(now, stamp));
    SumPut(s.jobs, j, t.jobs[j], Counted);
    SumPut(s.jobs, j, t.jobs[j], GrantsOf);
  }

  // --- Every reachable state ---

  ghost predicate Sound(c: Constants, s: State) {
    Generations(s) && JobsOk(s) && Totals(s) && Conserved(s) && Budgeted(c, s)
  }

  lemma InitSound(c: Constants, pools: seq<seq<Health.Upstream>>, maxRetries: nat)
    ensures Sound(c, Init(pools, maxRetries))
  {
  }

  lemma StepSound(c: Constants, s: State, step: Step)
    requires Enabled(s, step) && Sound(c, s)
    ensures Sound(c, Apply(c, s, step))
  {
    hide Apply, Enabled, Generations, JobsOk, Totals, Conserved, Budgeted;
    StepKeepsJobs(c, s, step);
    StepKeepsTotals(c, s, step);
    StepKeepsConserved(c, s, step);
    match step
    case Record(j, now) => RecordKeepsBudget(c, s, j, now);
    case Ask(j, now, stamp) => AskKeepsBudget(c, s, j, now, stamp);
    case _ => OtherStepKeepsBudget(c, s, step);
  }

  /** A state that some run of a freshly started proxy ends in. */
  ghost predicate Reachable(c: Constants, s: State) {
    exists pools, maxRetries: nat, steps ::
      IsRun(c, Init(pools, maxRetries), steps) && End(c, Init(pools, maxRetries), steps) == s
  }

  lemma {:induction false} RunSound(c: Constants, s: State, steps: seq<Step>)
    requires Sound(c, s) && IsRun(c, s, steps)
    ensures Sound(c, End(c, s, steps))
  {
    hide Sound, Apply, Enabled;
    if steps != [] {
      var last := |steps| - 1;
      RunSound(c, s, steps[..last]);
      StepSound(c, End(c, s, steps[..last]), steps[last]);
    }
  }

  lemma ReachableSound(c: Constants, s: State)
    requires Reachable(c, s)
    ensures Sound(c, s)
  {
    hide Sound, IsRun, End, Init;
    var pools, maxRetries: nat, steps :|
      IsRun(c, Init(pools, maxRetries), steps) && End(c, Init(pools, maxRetries), steps) == s;
    InitSound(c, pools, maxRetries);
    RunSound(c, Init(pools, maxRetries), steps);
  }

  // --- The theorems ---

  /** Connection counts are conserved through retries, reloads and cancellation, in every generation: each is
      the attempts in flight plus those dropped in flight, so it never underflows, and without drops it is
      exactly the load. */
  lemma ConnectionsConserved(c: Constants, s: State, g: nat, k: nat, i: nat)
    requires Reachable(c, s) && g < |s.routers| && k < |s.routers[g]| && i < |s.routers[g][k].upstreams|
    ensures i < |s.routers[g][k].active|
    ensures s.routers[g][k].active[i] == Sum(s.jobs, InFlightAt(g, k, i)) + Sum(s.jobs, AbandonedAt(g, k, i))
    ensures (forall j | 0 <= j < |s.jobs| :: !s.jobs[j].phase.Dropped?) ==>
              s.routers[g][k].active[i] == Sum(s.jobs, InFlightAt(g, k, i))
  {
    hide Reachable, JobsOk, Totals, Budgeted, Sum;
    ReachableSound(c, s);
    assert ConservedAt(s, g, k, i);
    if forall j | 0 <= j < |s.jobs| :: !s.jobs[j].phase.Dropped? {
      SumZero(s.jobs, AbandonedAt(g, k, i));
    }
  }

  /** System-wide amplification: all attempts that upstreams ever see are at most the counted requests times
      one plus the budget's factor, and one more per grant that left no record; and only a retry decided a whole
      window or more after its request can be granted like that. */
  lemma AmplificationBounded(c: Constants, s: State)
    requires Reachable(c, s)
    ensures Sum(s.jobs, AttemptsOf) <= (1 + RetryBudgetHistory.Factor(c.policy)) * Sum(s.jobs, Counted) + s.unrecorded
    ensures c.policy.percent <= 100.0 ==> Sum(s.jobs, AttemptsOf) <= 2 * Sum(s.jobs, Counted) + s.unrecorded
    ensures s.unrecorded <= s.late
  {
    hide Reachable, Generations, Totals, Conserved, Sum, RetryBudget.Logs, RetryBudget.Replay, Route, Bounded,
         Explained, Snapshot;
    ReachableSound(c, s);
    forall j | 0 <= j < |s.jobs|
      ensures AttemptsOf(s.jobs[j]) <= Counted(s.jobs[j]) + GrantsOf(s.jobs[j])
    {
      assert JobOk(s, s.jobs[j]);
    }
    SumBound(s.jobs, AttemptsOf, Counted, GrantsOf);
    RetryBudgetHistory.RetriesWithinFactor(c.policy, s.events, |s.events|);
    FactorOfPercent(c.policy, Sum(s.jobs, Counted));
  }

  lemma FactorOfPercent(policy: RetryBudget.Policy, requests: nat)
    ensures policy.percent <= 100.0 ==>
              RetryBudgetHistory.Factor(policy) <= 1 && RetryBudgetHistory.Factor(policy) * requests <= requests
    ensures (1 + RetryBudgetHistory.Factor(policy)) * requests
         == requests + RetryBudgetHistory.Factor(policy) * requests
  {
    if policy.percent <= 100.0 {
      assert RetryBudgetHistory.Factor(policy) <= 1;
      Division.Monotone(RetryBudgetHistory.Factor(policy), 1, requests);
    }
  }

  /** The finer bound: the retries are the configured share of the requests, and one for the rounding of each
      window between the first recorded grant and the last. */
  lemma AmplificationShare(c: Constants, s: State)
    requires Reachable(c, s) && c.policy.window > 0.0 && c.policy.percent >= 0.0
    ensures var times := RetryBudgetHistory.GrantTimes(c.policy, s.events, |s.events|);
            var requests := Sum(s.jobs, Counted);
            Sum(s.jobs, AttemptsOf) as real
              <= requests as real + s.unrecorded as real
                 + if times == [] then 0.0
                   else RetryBudgetHistory.Share(c.policy, requests) + 1.0
                        + RetryBudgetHistory.Windows(c.policy, times[0], times[|times| - 1])
  {
    hide Reachable, Generations, Totals, Conserved, Sum, RetryBudget.Logs, RetryBudget.Replay, Route, Bounded,
         Explained, Snapshot, RetryBudgetHistory.Share, RetryBudgetHistory.Windows, RetryBudgetHistory.GrantTimes;
    ReachableSound(c, s);
    forall j | 0 <= j < |s.jobs|
      ensures AttemptsOf(s.jobs[j]) <= Counted(s.jobs[j]) + GrantsOf(s.jobs[j])
    {
      assert JobOk(s, s.jobs[j]);
    }
    SumBound(s.jobs, AttemptsOf, Counted, GrantsOf);
    RetryBudgetHistory.RetriesWithinShare(c.policy, s.events, |s.events|);
  }

  function RetriesOf(job: Job): nat { Max(job.attempts - 1, 0) }

  lemma {:induction false} SumSame(jobs: seq<Job>, f: Job -> nat, g: Job -> nat)
    requires forall j | 0 <= j < |jobs| :: f(jobs[j]) == g(jobs[j])
    ensures Sum(jobs, f) == Sum(jobs, g)
  {
    if jobs != [] {
      SumSame(jobs[..|jobs| - 1], f, g);
    }
  }

  function RepliedTo(job: Job): nat { if job.phase.Replied? then 1 else 0 }

  function UnreadOne(job: Job): nat { if job.phase.Unread? then 1 else 0 }

  lemma {:induction false} EitherOne(jobs: seq<Job>)
    requires forall j | 0 <= j < |jobs| :: jobs[j].phase.Replied? || jobs[j].phase.Unread?
    ensures Sum(jobs, RepliedTo) + Sum(jobs, UnreadOne) == |jobs|
  {
    if jobs != [] {
      EitherOne(jobs[..|jobs| - 1]);
    }
  }

  /** At any moment the metrics are what requests did, label by label: one error for each failed attempt, and one
      request for each answer under the status that the client received. Once every request has been answered,
      retries are the attempts after each first one, and each request was counted once, save those whose body
      could not be read. */
  lemma MetricsConserved(c: Constants, s: State)
    requires Reachable(c, s)
    ensures s.retriesTotal == Sum(s.jobs, GrantsOf)
    ensures s.errorsTotal == Gather(s.jobs, FailuresOf)
    ensures s.requestsTotal == Gather(s.jobs, RepliedWith)
    ensures (forall j | 0 <= j < |s.jobs| :: s.jobs[j].phase.Replied? || s.jobs[j].phase.Unread?) ==>
              s.retriesTotal == Sum(s.jobs, RetriesOf) && |s.requestsTotal| + Sum(s.jobs, UnreadOne) == |s.jobs|
  {
    hide Reachable, Generations, Conserved, Budgeted, Sum, Gather, Route, Bounded, Explained, Snapshot;
    ReachableSound(c, s);
    if forall j | 0 <= j < |s.jobs| :: s.jobs[j].phase.Replied? || s.jobs[j].phase.Unread? {
      assert forall j | 0 <= j < |s.jobs| :: JobOk(s, s.jobs[j]);
      SumSame(s.jobs, GrantsOf, RetriesOf);
      GatherSize(s.jobs, RepliedWith, RepliedTo);
      EitherOne(s.jobs);
    }
  }

  /** No request, under any interference, visits one pool position twice, the one it is at included, or makes more
      attempts than its cap. */
  lemma VisitsDistinct(c: Constants, s: State, j: nat, a: nat, b: nat)
    requires Reachable(c, s) && j < |s.jobs| && a < b <= |s.jobs[j].trace|
    ensures var job := s.jobs[j];
            && RetryLoop.Attempts(job.trace) <= job.attempts <= Cap(s, job)
            && (b < |job.trace| ==> job.trace[a].index != job.trace[b].index)
            && (b == |job.trace| && Trying(job.phase) ==> job.trace[a].index != Position(job))
  {
    hide Reachable, Generations, Conserved, Budgeted, Totals, Progress, Explained, Snapshot, RetryLoop.Attempts,
         RetryLoop.LastFailure;
    ReachableSound(c, s);
    var job := s.jobs[j];
    assert JobOk(s, job);
    if b < job.pool && (job.start + a) % job.pool == (job.start + b) % job.pool {
      Division.SameRemainder(job.start + a, job.start + b, job.pool);
    }
  }

  /** Why a client received its answer, under any interference. Without a matching route it is 404. Otherwise it is
      the good answer that the last visit got; or, when the budget refused that visit, the cap was reached or no
      offset was left, the status of the error that the last attempt ended with, 502 if there was none. */
  lemma RepliesExplained(c: Constants, s: State, j: nat)
    requires Reachable(c, s) && j < |s.jobs| && s.jobs[j].phase.Replied?
    ensures var job, status := s.jobs[j], s.jobs[j].phase.status;
            var failure := RetryLoop.LastFailure(job.trace);
            && job.attempts == RetryLoop.Attempts(job.trace) && job.lastError == failure
            && (forall k | 0 <= k < |job.trace| && Ends(job.trace[k]) :: k == |job.trace| - 1)
            && (if job.recordedAt.None? then status == 404 && job.trace == []
                else if ServedWell(job) then job.trace[|job.trace| - 1].outcome == Answered(status)
                else
                  && (WasRefused(job) || job.attempts == Cap(s, job) || |job.trace| == job.pool)
                  && status == if failure == Some(UpstreamTimeout) then 504 else 502)
  {
    hide Reachable, Generations, Conserved, Budgeted, Totals, Progress, Snapshot, RetryLoop.Attempts,
         RetryLoop.LastFailure;
    ReachableSound(c, s);
    assert JobOk(s, s.jobs[j]);
  }

  lemma {:induction false} NoneTried(trace: seq<Visit>)
    ensures RetryLoop.Attempts(trace) == 0 <==> forall k | 0 <= k < |trace| :: !trace[k].Tried?
  {
    if trace != [] {
      NoneTried(trace[..|trace| - 1]);
    }
  }

  /** When an answered request was never sent to an upstream, under any interference: exactly when its cap is zero, or
      it skipped its whole pool. */
  lemma NoAttemptIff(c: Constants, s: State, j: nat)
    requires Reachable(c, s) && j < |s.jobs| && s.jobs[j].phase.Replied? && s.jobs[j].recordedAt.Some?
    ensures var job := s.jobs[j];
            job.attempts == 0
            <==> Cap(s, job) == 0
                 || (|job.trace| == job.pool && forall k | 0 <= k < |job.trace| :: job.trace[k].Skipped?)
  {
    hide Reachable, Generations, Conserved, Budgeted, Totals, Progress, Snapshot, RetryLoop.Attempts,
         RetryLoop.LastFailure, Cap;
    ReachableSound(c, s);
    assert JobOk(s, s.jobs[j]);
    NoneTried(s.jobs[j].trace);
  }

  /** A reload stores the router before the config and requests load them the other way round, so no request
      pairs a config with an older router, from its route on and after its answer; without a route there is none. */
  lemma NoOlderRouter(c: Constants, s: State, j: nat)
    requires Reachable(c, s) && j < |s.jobs|
    requires var job := s.jobs[j];
             !job.phase.Arrived? && !job.phase.Configured? && !(job.phase.Replied? && job.recordedAt.None?)
    ensures s.jobs[j].config <= s.jobs[j].router
  {
    hide Reachable, Generations, Conserved, Budgeted, Totals, Progress, Route, Bounded, Explained;
    ReachableSound(c, s);
    assert JobOk(s, s.jobs[j]);
  }

  /** A reload takes effect with the next request that loads it: its cap, and its pool with no connection counted. */
  lemma ReloadReaches(c: Constants, s: State, j: nat, pools: seq<seq<Health.Upstream>>, maxRetries: nat, route: nat)
    requires At(s, j, Arrived) && |s.routers| == |s.configs| && route < |pools|
    ensures var stored := Apply(c, Apply(c, s, StoreRouter(pools)), StoreConfig(maxRetries));
            var loaded := Apply(c, Apply(c, stored, LoadConfig(j)), LoadRouter(j, route));
            && Cap(loaded, loaded.jobs[j]) == (maxRetries + 1) % 0x1_0000_0000_0000_0000
            && HasPool(loaded, loaded.jobs[j])
            && PoolOf(loaded, loaded.jobs[j]).upstreams == pools[route]
            && (forall i | 0 <= i < |PoolOf(loaded, loaded.jobs[j]).active| ::
                  PoolOf(loaded, loaded.jobs[j]).active[i] == 0)
  {
    hide AfterScan, AfterRecord, AfterHead, AfterAsk, AfterLaunch, AfterLand, AfterSettle;
  }

  /** A request that has loaded its snapshot keeps its cap and its upstreams through every step of others. */
  lemma SnapshotStays(c: Constants, s: State, step: Step, j: nat)
    requires Enabled(s, step) && Generations(s) && JobsOk(s) && Works(s, j) && Owner(step) != Some(j)
    ensures var t := Apply(c, s, step);
            && Works(t, j) && t.jobs[j] == s.jobs[j] && Cap(t, t.jobs[j]) == Cap(s, s.jobs[j])
            && PoolOf(t, t.jobs[j]).upstreams == PoolOf(s, s.jobs[j]).upstreams
  {
    hide Apply, Enabled, Moved, JobsOk;
    StepMoves(c, s, step);
    StepExtends(c, s, step);
  }

  /** What the active health checker does to an upstream: a success makes it healthy at any later look, a failure counts
      once and marks it at the threshold; no other upstream notices. */
  lemma CheckHeard(c: Constants, s: State, u: Health.Upstream, ok: bool, now: real, later: real)
    requires Enabled(s, CheckUpstream(u, ok, now))
    ensures var ledger, next := s.health, Apply(c, s, CheckUpstream(u, ok, now)).health;
            && (ok ==> Health.Looked(c.rules, next, u, later).1)
            && (!ok ==>
                  && u in next
                  && var failures := if u in ledger then ledger[u].failures + 1 else 1;
                     && next[u].failures == Min(failures, c.rules.threshold)
                     && (failures >= c.rules.threshold ==>
                           (Health.Looked(c.rules, next, u, later).1 <==> Elapsed(now, later) >= c.rules.cooldown)))
            && (forall v | v != u :: (v in next <==> v in ledger) && (v in ledger ==> next[v] == ledger[v]))
  {
  }
}
