/** The proxy as a state machine: any number of requests, the reloader, the active health checker and
    cancellation, interleaved in any order. A step is one section under a mutex, one atomic operation, or
    one wait that comes to its end; counters of metrics move with the step they belong to. */
module ProxySystem {
  import opened Prelude
  import opened ProxyLoop
  import Health
  import RetryBudget
  import LeastConnections

  /** What the process is started with; a reload changes neither. */
  datatype Constants = Constants(rules: Health.Rules, policy: RetryBudget.Policy)

  /** A route of one router generation, with the connection counts of its own balancer. */
  datatype Pool = Pool(upstreams: seq<Health.Upstream>, active: LeastConnections.Counts)

  /** Where a request stands. It waits, and can be dropped, in `Routed` (for its body), `Sleeping` and `Flying`;
      `Dropped` remembers whether an attempt was under way. `Replied` tells the status that the client receives
      and the request counter hears of; a request whose body cannot be read is `Unread`: the client receives 502,
      and nothing is counted. */
  datatype Phase =
    | Arrived | Configured | Routed | Scanning(i: nat) | Counting | Heading | Asking | Sleeping | Launching
    | Flying | Landed(outcome: Outcome) | Replied(status: nat) | Unread | Dropped(flying: bool)

  /** A request: its snapshot (`config`, `router`, `route`, `pool` upstreams), the loop's variables, when it was
      counted, how many retries it was granted, and what it did at each offset so far. */
  datatype Job = Job(
    phase: Phase,
    config: nat,
    router: nat,
    route: nat,
    pool: nat,
    start: nat,
    anyHealthy: bool,
    offset: nat,
    attempts: nat,
    lastError: Option<ProxyError>,
    recordedAt: Option<real>,
    grants: nat,
    trace: seq<Visit>)

  const NEW_JOB := Job(Arrived, 0, 0, 0, 0, 0, false, 0, 0, None, None, 0, [])

  /** `configs` and `routers` hold every generation stored so far, the last one current; a config is its
      `max_retries`. `events` is the history of the retry budget, `unrecorded` counts grants that left no
      record, and `late` the decisions taken a whole window or more after their request was counted. */
  datatype State = State(
    now: real,
    configs: seq<nat>,
    routers: seq<seq<Pool>>,
    health: Health.Ledger,
    budget: RetryBudget.Budget,
    jobs: seq<Job>,
    retriesTotal: nat,
    errorsTotal: multiset<ErrorLabel>,
    requestsTotal: multiset<nat>,
    events: seq<RetryBudget.Event>,
    unrecorded: nat,
    late: nat)

  datatype Step =
    | StoreRouter(pools: seq<seq<Health.Upstream>>)
    | StoreConfig(maxRetries: nat)
    | CheckUpstream(u: Health.Upstream, ok: bool, now: real)
    | Arrive
    | LoadConfig(j: nat)
    | LoadRouter(j: nat, route: nat)
    | NoRoute(j: nat)
    | FailBody(j: nat)
    | PickStart(j: nat, start: nat)
    | Scan(j: nat, now: real)
    | Record(j: nat, now: real)
    | Head(j: nat, now: real)
    | Ask(j: nat, now: real, stamp: real)
    | Wake(j: nat)
    | Launch(j: nat)
    | Land(j: nat, outcome: Outcome)
    | Settle(j: nat, now: real)
    | Drop(j: nat)

  function NewRouter(pools: seq<seq<Health.Upstream>>): seq<Pool> {
    seq(|pools|, i requires 0 <= i < |pools| => Pool(pools[i], seq(|pools[i]|, k => 0)))
  }

  function Init(pools: seq<seq<Health.Upstream>>, maxRetries: nat): State {
    State(0.0, [maxRetries], [NewRouter(pools)], map[], RetryBudget.EMPTY, [], 0, multiset{}, multiset{}, [], 0, 0)
  }

  /** The pool position that the loop is at. */
  function Position(job: Job): nat {
    if job.pool == 0 then 0 else (job.start + job.offset) % job.pool
  }

  predicate HasPool(s: State, job: Job) {
    && job.router < |s.routers| && job.route < |s.routers[job.router]|
    && job.pool == |s.routers[job.router][job.route].upstreams|
  }

  function PoolOf(s: State, job: Job): Pool
    requires HasPool(s, job)
  {
    s.routers[job.router][job.route]
  }

  /** Request `j` exists and stands at `phase`. */
  predicate At(s: State, j: nat, phase: Phase) {
    j < |s.jobs| && s.jobs[j].phase == phase
  }

  /** Request `j` exists and has its whole snapshot. */
  predicate Works(s: State, j: nat) {
    j < |s.jobs| && HasPool(s, s.jobs[j]) && s.jobs[j].config < |s.configs|
  }

  predicate Enabled(s: State, step: Step) {
    match step
    case StoreRouter(_) => |s.routers| == |s.configs|
    case StoreConfig(_) => |s.routers| == |s.configs| + 1
    case CheckUpstream(_, _, now) => s.now <= now
    case Arrive => true
    case LoadConfig(j) => At(s, j, Arrived) && s.configs != []
    case LoadRouter(j, route) => At(s, j, Configured) && s.routers != [] && route < |s.routers[|s.routers| - 1]|
    case NoRoute(j) => At(s, j, Configured)
    case FailBody(j) => At(s, j, Routed)
    case PickStart(j, _) => At(s, j, Routed) && Works(s, j) && s.jobs[j].pool > 0
    case Scan(j, now) => Works(s, j) && s.jobs[j].phase.Scanning? && s.now <= now
    case Record(j, now) => At(s, j, Counting) && s.now <= now
    case Head(j, now) => At(s, j, Heading) && Works(s, j) && s.now <= now
    case Ask(j, now, stamp) => At(s, j, Asking) && s.now <= now <= stamp && s.jobs[j].recordedAt.Some?
    case Wake(j) => At(s, j, Sleeping)
    case Launch(j) => At(s, j, Launching) && Works(s, j)
    case Land(j, _) => At(s, j, Flying) && Works(s, j)
    case Settle(j, now) => Works(s, j) && s.jobs[j].phase.Landed? && s.now <= now && s.jobs[j].pool > 0
    case Drop(j) => At(s, j, Routed) || At(s, j, Sleeping) || At(s, j, Flying)
  }

  function Put(s: State, j: nat, job: Job): State
    requires j < |s.jobs|
  {
    s.(jobs := s.jobs[j := job])
  }

  /** The balancer counts of the job's pool become `active`. */
  function PutActive(s: State, job: Job, active: LeastConnections.Counts): State
    requires HasPool(s, job)
  {
    var pool := PoolOf(s, job).(active := active);
    s.(routers := s.routers[job.router := s.routers[job.router][job.route := pool]])
  }

  /** The reply after the loop: the last error, or a failure if nothing was tried. */
  function ErrorReply(job: Job): Reply {
    Failed(if job.lastError.Some? then job.lastError.value else UpstreamFailure)
  }

  /** The loop is over without a good answer. */
  function GiveUp(s: State, j: nat, job: Job): State
    requires j < |s.jobs|
  {
    var reply := ErrorReply(job);
    Put(s, j, job.(phase := Replied(ClientStatus(reply)))).(
      requestsTotal := s.requestsTotal + multiset{StatusLabel(reply)})
  }

  /** The loop is done with its offset. */
  function Visited(job: Job, visit: Visit): Job {
    job.(offset := job.offset + 1, trace := job.trace + [visit])
  }

  function UpstreamOf(s: State, job: Job): Health.Upstream
    requires HasPool(s, job) && job.pool > 0
  {
    PoolOf(s, job).upstreams[Position(job)]
  }

  // --- One function per kind of step ---

  /** `is_healthy` on the next upstream of the scan. */
  function AfterScan(c: Constants, s: State, j: nat, now: real): State
    requires Enabled(s, Scan(j, now))
  {
    var job, i := s.jobs[j], s.jobs[j].phase.i;
    if i >= job.pool then Put(s, j, job.(phase := Counting, anyHealthy := false))
    else
      var (health, healthy) := Health.Looked(c.rules, s.health, PoolOf(s, job).upstreams[i], now);
      var next := if healthy then job.(phase := Counting, anyHealthy := true) else job.(phase := Scanning(i + 1));
      Put(s, j, next).(now := now, health := health)
  }

  /** `record_request`. */
  function AfterRecord(s: State, j: nat, now: real): State
    requires Enabled(s, Record(j, now))
  {
    Put(s, j, s.jobs[j].(phase := Heading, recordedAt := Some(now))).(
      now := now,
      budget := s.budget.(requests := s.budget.requests + [now]),
      events := s.events + [RetryBudget.Request(now)])
  }

  /** The top of the loop body: the cap, the end of the pool, and the health of the next upstream. */
  function AfterHead(c: Constants, s: State, j: nat, now: real): State
    requires Enabled(s, Head(j, now))
  {
    var job := s.jobs[j];
    if job.offset >= job.pool || job.attempts >= (s.configs[job.config] + 1) % WORD then GiveUp(s, j, job)
    else
      var ready := job.(phase := if job.attempts > 0 then Asking else Launching);
      if !job.anyHealthy then Put(s, j, ready)
      else
        var (health, healthy) := Health.Looked(c.rules, s.health, UpstreamOf(s, job), now);
        Put(s, j, if healthy then ready else Visited(job, Skipped(Position(job)))).(now := now, health := health)
  }

  /** The section of `allow_retry`. */
  function Judged(c: Constants, s: State, job: Job, now: real, stamp: real): State
    requires job.recordedAt.Some?
  {
    var event := RetryBudget.Retry(now, stamp);
    s.(
      now := stamp,
      budget := RetryBudget.After(c.policy, s.budget, event),
      events := s.events + [event],
      unrecorded := s.unrecorded
        + (if RetryBudget.Judge(c.policy, s.budget, now) == RetryBudget.Unrecorded then 1 else 0),
      late := s.late + (if now - job.recordedAt.value >= c.policy.window then 1 else 0))
  }

  /** `allow_retry`, and the retry counter. */
  function AfterAsk(c: Constants, s: State, j: nat, now: real, stamp: real): State
    requires Enabled(s, Ask(j, now, stamp))
  {
    var job := s.jobs[j];
    var judged := Judged(c, s, job, now, stamp);
    if RetryBudget.Judge(c.policy, s.budget, now) == RetryBudget.Refused
    then GiveUp(judged, j, Visited(job, Refused(Position(job))))
    else Put(judged, j, job.(phase := Sleeping, grants := job.grants + 1)).(retriesTotal := s.retriesTotal + 1)
  }

  /** `attempts_made += 1` and `record_start`. */
  function AfterLaunch(s: State, j: nat): State
    requires Enabled(s, Launch(j))
  {
    var job := s.jobs[j];
    var flying := job.(phase := Flying, attempts := job.attempts + 1);
    Put(PutActive(s, job, LeastConnections.Started(PoolOf(s, job).active, Position(job))), j, flying)
  }

  /** The response or the error arrives: `record_done`. */
  function AfterLand(s: State, j: nat, outcome: Outcome): State
    requires Enabled(s, Land(j, outcome))
  {
    var job := s.jobs[j];
    Put(PutActive(s, job, LeastConnections.Done(PoolOf(s, job).active, Position(job))), j,
        job.(phase := Landed(outcome)))
  }

  /** The outcome is recorded: `record_success` and a reply, or `record_failure` and the next offset. */
  function AfterSettle(c: Constants, s: State, j: nat, now: real): State
    requires Enabled(s, Settle(j, now))
  {
    var job, outcome := s.jobs[j], s.jobs[j].phase.outcome;
    var tried := Visited(job, Tried(Position(job), outcome));
    if IsGood(outcome) then
      Put(s, j, tried.(phase := Replied(outcome.status))).(
        now := now, health := Health.Succeeded(s.health, UpstreamOf(s, job)),
        requestsTotal := s.requestsTotal + multiset{StatusLabel(Served(outcome.status))})
    else
      Put(s, j, tried.(phase := Heading, lastError := Some(ErrorOf(outcome)))).(
        now := now, health := Health.Failed(c.rules, s.health, UpstreamOf(s, job), now),
        errorsTotal := s.errorsTotal + multiset{LabelOf(outcome)})
  }

  function Apply(c: Constants, s: State, step: Step): State
    requires Enabled(s, step)
  {
    match step
    case StoreRouter(pools) => s.(routers := s.routers + [NewRouter(pools)])
    case StoreConfig(maxRetries) => s.(configs := s.configs + [maxRetries])
    case CheckUpstream(u, ok, now) =>
      s.(now := now, health := if ok then Health.Succeeded(s.health, u) else Health.Failed(c.rules, s.health, u, now))
    case Arrive => s.(jobs := s.jobs + [NEW_JOB])
    case LoadConfig(j) => Put(s, j, s.jobs[j].(phase := Configured, config := |s.configs| - 1))
    case LoadRouter(j, route) =>
      var last := |s.routers| - 1;
      Put(s, j, s.jobs[j].(phase := Routed, router := last, route := route, pool := |s.routers[last][route].upstreams|))
    case NoRoute(j) =>
      Put(s, j, s.jobs[j].(phase := Replied(404))).(requestsTotal := s.requestsTotal + multiset{404})
    case FailBody(j) => Put(s, j, s.jobs[j].(phase := Unread))
    case PickStart(j, start) => Put(s, j, s.jobs[j].(phase := Scanning(0), start := start))
    case Scan(j, now) => AfterScan(c, s, j, now)
    case Record(j, now) => AfterRecord(s, j, now)
    case Head(j, now) => AfterHead(c, s, j, now)
    case Ask(j, now, stamp) => AfterAsk(c, s, j, now, stamp)
    case Wake(j) => Put(s, j, s.jobs[j].(phase := Launching))
    case Launch(j) => AfterLaunch(s, j)
    case Land(j, outcome) => AfterLand(s, j, outcome)
    case Settle(j, now) => AfterSettle(c, s, j, now)
    case Drop(j) => Put(s, j, s.jobs[j].(phase := Dropped(s.jobs[j].phase.Flying?)))
  }

  // --- Runs ---

  /** A run: every step enabled where it is taken. */
  ghost predicate IsRun(c: Constants, s: State, steps: seq<Step>)
    decreases |steps|, 0
  {
    steps == [] || (IsRun(c, s, steps[..|steps| - 1]) && Enabled(End(c, s, steps[..|steps| - 1]), steps[|steps| - 1]))
  }

  /** The state after a run. */
  ghost function End(c: Constants, s: State, steps: seq<Step>): State
    requires IsRun(c, s, steps)
    decreases |steps|, 1
  {
    if steps == [] then s else Apply(c, End(c, s, steps[..|steps| - 1]), steps[|steps| - 1])
  }
}
