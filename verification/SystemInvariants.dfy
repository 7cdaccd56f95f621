/** Invariants of every run of the proxy: what each request has done, and what the shared counters say. */
module SystemInvariants {
  import opened Prelude
  import opened ProxyLoop
  import opened ProxySystem
  import RetryLoop
  import Health
  import RetryBudget
  import LeastConnections

  // --- Sums over the requests ---

  function Sum(jobs: seq<Job>, f: Job -> nat): nat {
    if jobs == [] then 0 else Sum(jobs[..|jobs| - 1], f) + f(jobs[|jobs| - 1])
  }

  lemma {:induction false} SumPut(jobs: seq<Job>, j: nat, job: Job, f: Job -> nat)
    requires j < |jobs|
    ensures Sum(jobs[j := job], f) == Sum(jobs, f) - f(jobs[j]) + f(job)
    ensures Sum(jobs, f) >= f(jobs[j])
  {
    var last := |jobs| - 1;
    if j == last {
      assert jobs[j := job][..last] == jobs[..last];
    } else {
      SumPut(jobs[..last], j, job, f);
      assert jobs[j := job][..last] == jobs[..last][j := job];
    }
  }

  lemma SumAppend(jobs: seq<Job>, job: Job, f: Job -> nat)
    ensures Sum(jobs + [job], f) == Sum(jobs, f) + f(job)
  {
    assert (jobs + [job])[..|jobs|] == jobs;
  }

  lemma {:induction false} SumZero(jobs: seq<Job>, f: Job -> nat)
    requires forall j | 0 <= j < |jobs| :: f(jobs[j]) == 0
    ensures Sum(jobs, f) == 0
  {
    if jobs != [] {
      SumZero(jobs[..|jobs| - 1], f);
    }
  }

  /** Pointwise bounds add up. */
  lemma {:induction false} SumBound(jobs: seq<Job>, f: Job -> nat, g: Job -> nat, h: Job -> nat)
    requires forall j | 0 <= j < |jobs| :: f(jobs[j]) <= g(jobs[j]) + h(jobs[j])
    ensures Sum(jobs, f) <= Sum(jobs, g) + Sum(jobs, h)
  {
    if jobs != [] {
      SumBound(jobs[..|jobs| - 1], f, g, h);
    }
  }

  function AttemptsOf(job: Job): nat { job.attempts }

  function GrantsOf(job: Job): nat { job.grants }

  function Counted(job: Job): nat { if job.recordedAt.Some? then 1 else 0 }

  /** The error labels of its failed attempts. */
  function FailuresOf(job: Job): multiset<ErrorLabel> { RetryLoop.Failures(job.trace) }

  /** The status that its client has received. */
  function RepliedWith(job: Job): multiset<nat> {
    if job.phase.Replied? then multiset{job.phase.status} else multiset{}
  }

  // --- Labels gathered from the requests ---

  function Gather<T>(jobs: seq<Job>, f: Job -> multiset<T>): multiset<T> {
    if jobs == [] then multiset{} else Gather(jobs[..|jobs| - 1], f) + f(jobs[|jobs| - 1])
  }

  lemma BothGain<T>(a: multiset<T>, x: multiset<T>, b: multiset<T>, y: multiset<T>, more: multiset<T>)
    requires a + x == b + y
    ensures (a + more) + x == (b + more) + y
  {
    assert (a + more) + x == (a + x) + more;
  }

  lemma {:induction false} GatherPut<T>(jobs: seq<Job>, j: nat, job: Job, f: Job -> multiset<T>)
    requires j < |jobs|
    ensures Gather(jobs[j := job], f) + f(jobs[j]) == Gather(jobs, f) + f(job)
  {
    var last := |jobs| - 1;
    if j == last {
      assert jobs[j := job][..last] == jobs[..last];
    } else {
      GatherPut(jobs[..last], j, job, f);
      assert jobs[j := job][..last] == jobs[..last][j := job];
      BothGain(Gather(jobs[..last][j := job], f), f(jobs[j]), Gather(jobs[..last], f), f(job), f(jobs[last]));
    }
  }

  lemma GatherAppend<T>(jobs: seq<Job>, job: Job, f: Job -> multiset<T>)
    ensures Gather(jobs + [job], f) == Gather(jobs, f) + f(job)
  {
    assert (jobs + [job])[..|jobs|] == jobs;
  }

  /** As many labels as the requests have together. */
  lemma {:induction false} GatherSize<T>(jobs: seq<Job>, f: Job -> multiset<T>, size: Job -> nat)
    requires forall j | 0 <= j < |jobs| :: |f(jobs[j])| == size(jobs[j])
    ensures |Gather(jobs, f)| == Sum(jobs, size)
  {
    if jobs != [] {
      GatherSize(jobs[..|jobs| - 1], f, size);
    }
  }

  // --- One request ---

  predicate BeforeLoop(phase: Phase) {
    phase.Arrived? || phase.Configured? || phase.Routed? || phase.Scanning? || phase.Counting?
  }

  /** The phases in which the current offset has passed the cap, the pool's end and the health check. */
  predicate Chosen(phase: Phase) {
    phase.Asking? || phase.Sleeping? || phase.Launching?
  }

  /** An attempt has begun that the trace does not show yet. */
  predicate Trying(phase: Phase) {
    phase.Flying? || phase.Landed? || phase == Dropped(true)
  }

  /** How grants and attempts relate in each phase. */
  predicate Progress(job: Job) {
    var retried := job.recordedAt.Some? && job.grants == job.attempts;
    var counted := job.recordedAt.Some? && job.grants == Max(job.attempts - 1, 0);
    var untried := job.recordedAt.None? && job.attempts == job.grants == job.offset == 0;
    match job.phase
    case Heading => counted
    case Asking => counted && 0 < job.attempts
    case Sleeping => retried && 0 < job.attempts
    case Launching => retried
    case Flying => counted && 0 < job.attempts
    case Landed(_) => counted && 0 < job.attempts
    case Replied(_) => counted || untried
    case Dropped(flying) => if flying then counted && 0 < job.attempts else retried || untried
    case _ => untried
  }

  function Cap(s: State, job: Job): nat {
    if job.config < |s.configs| then (s.configs[job.config] + 1) % WORD else 0
  }

  /** Visits that end the loop. */
  predicate Ends(visit: Visit) {
    visit.Refused? || RetryLoop.EndsWell(visit)
  }

  /** The trace is one visit for each offset so far, in turn, within the pool; only its last visit can end the
      loop; and the loop's variables are readings of it. */
  predicate Route(job: Job) {
    && |job.trace| == job.offset <= job.pool
    && (forall k | 0 <= k < |job.trace| :: job.trace[k].index == (job.start + k) % job.pool)
    && (forall k | 0 <= k < |job.trace| && Ends(job.trace[k]) :: k == |job.trace| - 1 && job.phase.Replied?)
    && job.attempts == RetryLoop.Attempts(job.trace) + (if Trying(job.phase) then 1 else 0)
    && job.lastError == RetryLoop.LastFailure(job.trace)
  }

  /** Attempts stay within the cap, and a chosen offset within the pool. */
  predicate Bounded(s: State, job: Job) {
    && job.attempts <= Cap(s, job)
    && (Chosen(job.phase) ==> job.attempts < Cap(s, job))
    && (Chosen(job.phase) || Trying(job.phase) ==> job.offset < job.pool)
  }

  predicate ServedWell(job: Job) {
    job.trace != [] && RetryLoop.EndsWell(job.trace[|job.trace| - 1])
  }

  predicate WasRefused(job: Job) {
    job.trace != [] && job.trace[|job.trace| - 1].Refused?
  }

  /** Why a request was answered as it was: no route matched; an upstream answered well; or the budget refused,
      the cap was reached or the pool used up, and the answer is the last error's. */
  predicate Explained(s: State, job: Job) {
    match job.phase
    case Replied(status) =>
      if job.recordedAt.None? then status == 404 && job.trace == []
      else if ServedWell(job) then job.trace[|job.trace| - 1].outcome == Answered(status)
      else
        && status == ClientStatus(ErrorReply(job))
        && (WasRefused(job) || job.attempts == Cap(s, job) || job.offset == job.pool)
        && (WasRefused(job) ==> job.attempts > 0)
    case _ => true
  }

  /** The snapshot is complete; its router is at least as new as its config. */
  predicate Snapshot(s: State, job: Job) {
    && (!job.phase.Arrived? ==> job.config < |s.configs|)
    && (!job.phase.Arrived? && !job.phase.Configured? && !(job.phase.Replied? && job.recordedAt.None?) ==>
          HasPool(s, job) && job.config <= job.router)
  }

  predicate JobOk(s: State, job: Job) {
    Progress(job) && Route(job) && Bounded(s, job) && Explained(s, job) && Snapshot(s, job)
  }

  /** Generations are only added: the router first, then its config. */
  ghost predicate Generations(s: State) {
    && 0 < |s.configs| <= |s.routers| <= |s.configs| + 1
    && forall g, k | 0 <= g < |s.routers| && 0 <= k < |s.routers[g]| ::
         |s.routers[g][k].active| == |s.routers[g][k].upstreams|
  }

  ghost predicate JobsOk(s: State) {
    forall j | 0 <= j < |s.jobs| :: JobOk(s, s.jobs[j])
  }

  /** Nothing a snapshot refers to goes away or changes its size. */
  ghost predicate Extends(s: State, t: State) {
    && s.configs <= t.configs && |s.routers| <= |t.routers|
    && forall g | 0 <= g < |s.routers| ::
         && |s.routers[g]| == |t.routers[g]|
         && forall k | 0 <= k < |s.routers[g]| :: s.routers[g][k].upstreams == t.routers[g][k].upstreams
  }

  lemma JobStaysOk(s: State, t: State, job: Job)
    requires Extends(s, t) && JobOk(s, job)
    ensures JobOk(t, job)
  {
  }

  /** The request that a step belongs to. */
  function Owner(step: Step): Option<nat> {
    match step
    case StoreRouter(_) => None
    case StoreConfig(_) => None
    case CheckUpstream(_, _, _) => None
    case Arrive => None
    case LoadConfig(j) => Some(j)
    case LoadRouter(j, _) => Some(j)
    case NoRoute(j) => Some(j)
    case FailBody(j) => Some(j)
    case PickStart(j, _) => Some(j)
    case Scan(j, _) => Some(j)
    case Record(j, _) => Some(j)
    case Head(j, _) => Some(j)
    case Ask(j, _, _) => Some(j)
    case Wake(j) => Some(j)
    case Launch(j) => Some(j)
    case Land(j, _) => Some(j)
    case Settle(j, _) => Some(j)
    case Drop(j) => Some(j)
  }

  /** How a step moves the request it belongs to, whatever the shared state answers. */
  predicate Moved(s: State, step: Step, job: Job, next: Job) {
    match step
    case LoadConfig(_) =>
      job.phase.Arrived? && s.configs != [] && next == job.(phase := Configured, config := |s.configs| - 1)
    case LoadRouter(_, route) =>
      && job.phase.Configured? && s.routers != [] && HasPool(s, next)
      && next == job.(phase := Routed, router := |s.routers| - 1, route := route, pool := next.pool)
    case NoRoute(_) => job.phase.Configured? && next == job.(phase := Replied(404))
    case FailBody(_) => job.phase.Routed? && next == job.(phase := Unread)
    case PickStart(_, start) => job.phase.Routed? && next == job.(phase := Scanning(0), start := start)
    case Scan(_, _) =>
      && job.phase.Scanning?
      && (next == job.(phase := Scanning(job.phase.i + 1))
          || next == job.(phase := Counting, anyHealthy := next.anyHealthy))
    case Record(_, now) => job.phase.Counting? && next == job.(phase := Heading, recordedAt := Some(now))
    case Head(_, _) =>
      && job.phase.Heading?
      && (if job.offset >= job.pool || job.attempts >= Cap(s, job)
          then next == job.(phase := Replied(ClientStatus(ErrorReply(job))))
          else next == job.(phase := if job.attempts > 0 then Asking else Launching)
               || next == Visited(job, Skipped(Position(job))))
    case Ask(_, _, _) =>
      && job.phase.Asking?
      && (next == job.(phase := Sleeping, grants := job.grants + 1)
          || next == Visited(job, Refused(Position(job))).(phase := Replied(ClientStatus(ErrorReply(job)))))
    case Wake(_) => job.phase.Sleeping? && next == job.(phase := Launching)
    case Launch(_) => job.phase.Launching? && next == job.(phase := Flying, attempts := job.attempts + 1)
    case Land(_, outcome) => job.phase.Flying? && next == job.(phase := Landed(outcome))
    case Settle(_, _) =>
      && job.phase.Landed?
      && var tried := Visited(job, Tried(Position(job), job.phase.outcome));
         next == if IsGood(job.phase.outcome) then tried.(phase := Replied(job.phase.outcome.status))
                 else tried.(phase := Heading, lastError := Some(ErrorOf(job.phase.outcome)))
    case Drop(_) =>
      && (job.phase.Routed? || job.phase.Sleeping? || job.phase.Flying?)
      && next == job.(phase := Dropped(job.phase.Flying?))
    case _ => false
  }

  /** The step changes no request but `j`, which it moves. */
  predicate MovesOnly(s: State, step: Step, j: nat, t: State) {
    && j < |s.jobs| && |t.jobs| == |s.jobs| && t.jobs == s.jobs[j := t.jobs[j]]
    && Moved(s, step, s.jobs[j], t.jobs[j])
  }

  lemma ScanMoves(c: Constants, s: State, j: nat, now: real)
    requires Enabled(s, Scan(j, now))
    ensures MovesOnly(s, Scan(j, now), j, AfterScan(c, s, j, now))
  {
    hide Health.Looked;
  }

  lemma HeadMoves(c: Constants, s: State, j: nat, now: real)
    requires Enabled(s, Head(j, now))
    ensures MovesOnly(s, Head(j, now), j, AfterHead(c, s, j, now))
  {
    hide Health.Looked, StatusLabel, ClientStatus, Position;
  }

  lemma AskMoves(c: Constants, s: State, j: nat, now: real, stamp: real)
    requires Enabled(s, Ask(j, now, stamp))
    ensures MovesOnly(s, Ask(j, now, stamp), j, AfterAsk(c, s, j, now, stamp))
  {
    hide RetryBudget.Judge, RetryBudget.After, StatusLabel, ClientStatus, Position;
  }

  lemma SettleMoves(c: Constants, s: State, j: nat, now: real)
    requires Enabled(s, Settle(j, now))
    ensures MovesOnly(s, Settle(j, now), j, AfterSettle(c, s, j, now))
  {
    hide Health.Failed, Health.Succeeded, StatusLabel, ErrorOf, LabelOf, Position;
  }

  /** A step changes at most the request it belongs to. */
  lemma StepMoves(c: Constants, s: State, step: Step)
    requires Enabled(s, step)
    ensures var t := Apply(c, s, step);
            match Owner(step)
            case Some(j) => MovesOnly(s, step, j, t)
            case None => t.jobs == if step.Arrive? then s.jobs + [NEW_JOB] else s.jobs
  {
    hide AfterScan, AfterHead, AfterAsk, AfterSettle, Health.Failed, Health.Succeeded, LeastConnections.Started,
         LeastConnections.Done, Position;
    match step
    case Scan(j, now) => ScanMoves(c, s, j, now);
    case Head(j, now) => HeadMoves(c, s, j, now);
    case Ask(j, now, stamp) => AskMoves(c, s, j, now, stamp);
    case Settle(j, now) => SettleMoves(c, s, j, now);
    case _ =>
  }

  lemma LaunchOrLandExtends(s: State, job: Job, active: LeastConnections.Counts)
    requires Generations(s) && HasPool(s, job) && |active| == |PoolOf(s, job).active|
    ensures Extends(s, PutActive(s, job, active)) && Generations(PutActive(s, job, active))
  {
  }

  /** Reloads add a generation; other steps leave the routers to take-offs and landings. */
  lemma ReloadsAdd(c: Constants, s: State, step: Step)
    requires Enabled(s, step) && !step.Launch? && !step.Land?
    ensures var t := Apply(c, s, step);
            && t.routers == (if step.StoreRouter? then s.routers + [NewRouter(step.pools)] else s.routers)
            && t.configs == (if step.StoreConfig? then s.configs + [step.maxRetries] else s.configs)
  {
    hide Health.Looked, Health.Failed, Health.Succeeded, RetryBudget.Judge, RetryBudget.After, NewRouter, Works,
         HasPool, IsGood, ErrorOf, LabelOf, StatusLabel, ClientStatus, ErrorReply, Position, Visited;
  }

  lemma FlightExtends(c: Constants, s: State, step: Step)
    requires Enabled(s, step) && Generations(s) && (step.Launch? || step.Land?)
    ensures Extends(s, Apply(c, s, step)) && Generations(Apply(c, s, step))
  {
    hide PutActive, Extends, Generations, Position;
    var job := s.jobs[step.j];
    var active := PoolOf(s, job).active;
    LaunchOrLandExtends(s, job, LeastConnections.Started(active, Position(job)));
    LaunchOrLandExtends(s, job, LeastConnections.Done(active, Position(job)));
    var t := Apply(c, s, step);
    if step.Launch? {
      OnlyJobsDiffer(s, PutActive(s, job, LeastConnections.Started(active, Position(job))), t);
    } else {
      OnlyJobsDiffer(s, PutActive(s, job, LeastConnections.Done(active, Position(job))), t);
    }
  }

  lemma OnlyJobsDiffer(s: State, t: State, u: State)
    requires Extends(s, t) && Generations(t) && u.routers == t.routers && u.configs == t.configs
    ensures Extends(s, u) && Generations(u)
  {
  }

  lemma StepExtends(c: Constants, s: State, step: Step)
    requires Enabled(s, step) && Generations(s)
    ensures Extends(s, Apply(c, s, step)) && Generations(Apply(c, s, step))
  {
    hide Apply;
    if step.Launch? || step.Land? {
      FlightExtends(c, s, step);
    } else {
      ReloadsAdd(c, s, step);
    }
  }

  lemma MovedProgress(s: State, step: Step, job: Job, next: Job)
    requires Moved(s, step, job, next) && Progress(job)
    ensures Progress(next)
  {
  }

  function Begun(phase: Phase): nat {
    if Trying(phase) then 1 else 0
  }

  lemma KeptRoute(job: Job, next: Job)
    requires Route(job) && !job.phase.Replied?
    requires next.trace == job.trace && next.offset == job.offset && next.lastError == job.lastError
    requires job.trace == [] || (next.start == job.start && next.pool == job.pool)
    requires next.attempts + Begun(job.phase) == job.attempts + Begun(next.phase)
    ensures Route(next)
  {
    hide RetryLoop.Attempts, RetryLoop.LastFailure, RetryLoop.Failures, Trying;
  }

  lemma VisitRoute(job: Job, next: Job, visit: Visit)
    requires Route(job) && !job.phase.Replied? && job.offset < job.pool
    requires next.trace == job.trace + [visit] && next.offset == job.offset + 1 && visit.index == Position(job)
    requires next.start == job.start && next.pool == job.pool && (Ends(visit) ==> next.phase.Replied?)
    requires !Trying(next.phase)
    requires next.attempts == job.attempts - Begun(job.phase) + (if visit.Tried? then 1 else 0)
    requires next.lastError
          == if visit.Tried? && !IsGood(visit.outcome) then Some(ErrorOf(visit.outcome)) else job.lastError
    ensures Route(next)
  {
    hide RetryLoop.Attempts, RetryLoop.LastFailure, RetryLoop.Failures, Trying;
    RetryLoop.TraceGrows(job.trace, visit);
  }

  lemma TraceIsOffset(job: Job)
    requires Route(job)
    ensures |job.trace| == job.offset
  {
  }

  lemma EarlyRoute(s: State, step: Step, job: Job, next: Job)
    requires Moved(s, step, job, next) && Progress(job) && Route(job) && BeforeLoop(job.phase)
    ensures Route(next)
  {
    hide Route;
    TraceIsOffset(job);
    KeptRoute(job, next);
  }

  lemma LoopRoute(s: State, step: Step, job: Job, next: Job)
    requires Moved(s, step, job, next) && Route(job) && Bounded(s, job) && !BeforeLoop(job.phase)
    ensures Route(next)
  {
    hide Route, Cap, ErrorReply, ClientStatus;
    TraceIsOffset(job);
    if next.offset == job.offset {
      KeptRoute(job, next);
    } else {
      VisitRoute(job, next, next.trace[|job.trace|]);
    }
  }

  lemma MovedRoute(s: State, step: Step, job: Job, next: Job)
    requires Moved(s, step, job, next) && Progress(job) && Route(job) && Bounded(s, job)
    ensures Route(next)
  {
    hide Moved, Progress, Route, Bounded;
    if BeforeLoop(job.phase) {
      EarlyRoute(s, step, job, next);
    } else {
      LoopRoute(s, step, job, next);
    }
  }

  lemma MovedBounded(s: State, step: Step, job: Job, next: Job)
    requires Moved(s, step, job, next) && Progress(job) && Bounded(s, job)
    ensures Bounded(s, next)
  {
    hide ErrorReply, ClientStatus, Position;
  }

  lemma MovedExplained(s: State, step: Step, job: Job, next: Job)
    requires Moved(s, step, job, next) && Progress(job) && Route(job) && Bounded(s, job)
    ensures Explained(s, next)
  {
    hide RetryLoop.Attempts, RetryLoop.LastFailure, RetryLoop.Failures;
  }

  lemma MovedSnapshot(s: State, step: Step, job: Job, next: Job)
    requires Moved(s, step, job, next) && Progress(job) && Snapshot(s, job) && Generations(s)
    ensures Snapshot(s, next)
  {
  }

  /** Every step keeps every request in order. */
  lemma StepKeepsJobs(c: Constants, s: State, step: Step)
    requires Enabled(s, step) && Generations(s) && JobsOk(s)
    ensures JobsOk(Apply(c, s, step)) && Generations(Apply(c, s, step))
  {
    hide Enabled, Apply, Extends, Progress, Route, Bounded, Explained, Snapshot, Moved, Generations;
    var t := Apply(c, s, step);
    StepMoves(c, s, step);
    StepExtends(c, s, step);
    forall j | 0 <= j < |t.jobs|
      ensures JobOk(t, t.jobs[j])
    {
      if Owner(step) == Some(j) {
        var job, next := s.jobs[j], t.jobs[j];
        MovedProgress(s, step, job, next);
        MovedRoute(s, step, job, next);
        MovedBounded(s, step, job, next);
        MovedExplained(s, step, job, next);
        MovedSnapshot(s, step, job, next);
        JobStaysOk(s, t, next);
      } else if j == |s.jobs| {
        NewJobOk(t);
      } else {
        JobStaysOk(s, t, s.jobs[j]);
      }
    }
  }

  lemma NewJobOk(s: State)
    ensures JobOk(s, NEW_JOB)
  {
  }
}
