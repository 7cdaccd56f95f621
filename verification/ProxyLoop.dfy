/** The retry and failover loop of `proxy_request` (src/proxy.rs), for one request that nobody interferes
    with: first as a function of the shared state, then as the method over the shared objects. */
module ProxyLoop {
  import opened Prelude
  import Health
  import RetryBudget
  import LeastConnections
  import Backoff

  /** What one forwarding attempt comes back with. */
  datatype Outcome = Answered(status: nat) | Disconnected | TimedOut

  predicate IsServerError(status: nat) {
    500 <= status < 600
  }

  predicate IsGood(outcome: Outcome) {
    outcome.Answered? && !IsServerError(outcome.status)
  }

  /** What an upstream does with a forwarded request: a response or a broken connection after so many seconds,
      or nothing ever. */
  datatype Answer = Responds(status: nat, after: real) | Breaks(after: real) | Silent

  /** `timeout` around the upstream call: what comes back, and the seconds waited for it. */
  function Awaited(limit: real, answer: Answer): (Outcome, real) {
    match answer
    case Responds(status, after) => if after <= limit then (Answered(status), after) else (TimedOut, limit)
    case Breaks(after) => if after <= limit then (Disconnected, after) else (TimedOut, limit)
    case Silent => (TimedOut, limit)
  }

  predicate TakesTime(answer: Answer) {
    answer.Silent? || answer.after >= 0.0
  }

  /** The errors that forwarding produces. */
  datatype ProxyError = UpstreamFailure | UpstreamTimeout

  /** The `error_type` labels of the error counter. */
  datatype ErrorLabel = Label5xx | LabelTimeout | LabelConnection

  function ErrorOf(outcome: Outcome): ProxyError {
    if outcome.TimedOut? then UpstreamTimeout else UpstreamFailure
  }

  function LabelOf(outcome: Outcome): ErrorLabel {
    match outcome
    case Answered(_) => Label5xx
    case Disconnected => LabelConnection
    case TimedOut => LabelTimeout
  }

  datatype Reply = Served(status: nat) | Failed(error: ProxyError)

  /** The `status` label under which a reply is counted. */
  function StatusLabel(reply: Reply): nat {
    match reply
    case Served(status) => status
    case Failed(error) => if error == UpstreamTimeout then 504 else 502
  }

  /** The status that the client receives (src/errors.rs). */
  function ClientStatus(reply: Reply): nat {
    match reply
    case Served(status) => status
    case Failed(UpstreamFailure) => 502
    case Failed(UpstreamTimeout) => 504
  }

  /** The snapshot a request works with, and its environment: how each upstream would answer, every clock
      reading in turn, and the jitter before each retry. `requestTimeout` is in seconds. */
  datatype Context = Context(
    rules: Health.Rules,
    policy: RetryBudget.Policy,
    maxRetries: nat,
    backoffBase: nat,
    upstreams: seq<Health.Upstream>,
    start: nat,
    requestTimeout: real,
    answers: seq<Answer>,
    clock: nat -> real,
    jitter: nat -> nat)

  ghost predicate WellFormed(c: Context) {
    && |c.answers| == |c.upstreams|
    && c.requestTimeout >= 0.0
    && (forall i | 0 <= i < |c.answers| :: TakesTime(c.answers[i]))
    && (forall i: nat, j: nat | i <= j :: c.clock(i) <= c.clock(j))
    && (forall k: nat | k > 0 :: Backoff.IsJitter(c.backoffBase, k, c.jitter(k)))
  }

  function OutcomeAt(c: Context, index: nat): Outcome
    requires index < |c.answers|
  {
    Awaited(c.requestTimeout, c.answers[index]).0
  }

  function WaitAt(c: Context, index: nat): real
    requires index < |c.answers|
  {
    Awaited(c.requestTimeout, c.answers[index]).1
  }

  function Index(c: Context, offset: nat): nat
    requires c.upstreams != []
  {
    (c.start + offset) % |c.upstreams|
  }

  /** `max_retries + 1` on a machine word. */
  function MaxAttempts(c: Context): nat {
    (c.maxRetries + 1) % WORD
  }

  /** Everything requests share, the number of clock readings taken, the milliseconds slept before retries and
      the seconds waited for upstreams. */
  datatype World = World(
    health: Health.Ledger,
    budget: RetryBudget.Budget,
    active: LeastConnections.Counts,
    retries: nat,
    errors: multiset<ErrorLabel>,
    requests: multiset<nat>,
    reading: nat,
    slept: nat,
    waited: real)

  /** What the loop did at one offset. */
  datatype Visit = Skipped(index: nat) | Refused(index: nat) | Tried(index: nat, outcome: Outcome)

  /** The loop between two offsets; `reply` is set by an early return, `jitters` are those slept so far. */
  datatype Loop = Loop(
    world: World,
    offset: nat,
    attempts: nat,
    lastError: Option<ProxyError>,
    reply: Option<Reply>,
    trace: seq<Visit>,
    jitters: seq<nat>)

  predicate Broke(s: Loop) {
    s.trace != [] && s.trace[|s.trace| - 1].Refused?
  }

  predicate Halted(c: Context, s: Loop) {
    s.offset >= |c.upstreams| || s.attempts >= MaxAttempts(c) || s.reply.Some? || Broke(s)
  }

  function Look(c: Context, w: World, u: Health.Upstream): (World, bool) {
    var (ledger, healthy) := Health.Looked(c.rules, w.health, u, c.clock(w.reading));
    (w.(health := ledger, reading := w.reading + 1), healthy)
  }

  /** `any` over `is_healthy`: upstreams are looked at from `i` on until one is healthy. */
  function AnyHealthy(c: Context, w: World, i: nat): (World, bool)
    requires i <= |c.upstreams|
    decreases |c.upstreams| - i
  {
    if i == |c.upstreams| then (w, false)
    else
      var (next, healthy) := Look(c, w, c.upstreams[i]);
      if healthy then (next, true) else AnyHealthy(c, next, i + 1)
  }

  function AllowRetry(c: Context, w: World): (World, bool) {
    var now, stamp := c.clock(w.reading), c.clock(w.reading + 1);
    var budget := RetryBudget.After(c.policy, w.budget, RetryBudget.Retry(now, stamp));
    (w.(budget := budget, reading := w.reading + 2), RetryBudget.Judge(c.policy, w.budget, now) != RetryBudget.Refused)
  }

  /** A retry that was allowed is counted and backs off; `attempts` have been made. */
  function BackOff(c: Context, w: World, attempts: nat): World
    requires attempts > 0
  {
    w.(retries := w.retries + 1, slept := w.slept + Backoff.Delay(c.backoffBase, attempts, c.jitter(attempts)))
  }

  /** One attempt on the upstream at `index`, and its bookkeeping. */
  function Attempt(c: Context, s: Loop, index: nat): Loop
    requires index < |c.upstreams| == |c.answers|
  {
    var u, outcome, w := c.upstreams[index], OutcomeAt(c, index), s.world.(waited := s.world.waited + WaitAt(c, index));
    var active := LeastConnections.Done(LeastConnections.Started(w.active, index), index);
    var tried := s.(offset := s.offset + 1, attempts := s.attempts + 1, trace := s.trace + [Tried(index, outcome)]);
    if IsGood(outcome) then
      var health := Health.Succeeded(w.health, u);
      var reply := Served(outcome.status);
      tried.(world := w.(active := active, health := health, requests := w.requests + multiset{StatusLabel(reply)}),
             reply := Some(reply))
    else
      var health := Health.Failed(c.rules, w.health, u, c.clock(w.reading));
      tried.(world := w.(active := active, health := health, errors := w.errors + multiset{LabelOf(outcome)},
                         reading := w.reading + 1),
             lastError := Some(ErrorOf(outcome)))
  }

  /** The loop body at one offset. */
  function Turn(c: Context, anyHealthy: bool, s: Loop): Loop
    requires s.offset < |c.upstreams| == |c.answers|
  {
    var index := Index(c, s.offset);
    var (seen, healthy) := if anyHealthy then Look(c, s.world, c.upstreams[index]) else (s.world, true);
    if !healthy then s.(world := seen, offset := s.offset + 1, trace := s.trace + [Skipped(index)])
    else if s.attempts == 0 then Attempt(c, s.(world := seen), index)
    else
      var (asked, allowed) := AllowRetry(c, seen);
      if !allowed then s.(world := asked, offset := s.offset + 1, trace := s.trace + [Refused(index)])
      else
        var slept := s.(world := BackOff(c, asked, s.attempts), jitters := s.jitters + [c.jitter(s.attempts)]);
        Attempt(c, slept, index)
  }

  /** How one turn moves the loop: one more visit, and what that visit changes. */
  ghost predicate Advances(c: Context, s: Loop, next: Loop)
    requires s.offset < |c.upstreams| == |c.answers|
  {
    && next.offset == s.offset + 1
    && |next.trace| == |s.trace| + 1
    && var visit := next.trace[|s.trace|];
    && next.trace == s.trace + [visit]
    && visit.index == Index(c, s.offset)
    && match visit
       case Skipped(_) =>
         && next.attempts == s.attempts && next.lastError == s.lastError
         && next.reply == s.reply && next.jitters == s.jitters
       case Refused(_) =>
         && s.attempts > 0
         && next.attempts == s.attempts && next.lastError == s.lastError
         && next.reply == s.reply && next.jitters == s.jitters
       case Tried(index, outcome) =>
         && outcome == OutcomeAt(c, index)
         && next.attempts == s.attempts + 1
         && next.jitters == (if s.attempts == 0 then s.jitters else s.jitters + [c.jitter(s.attempts)])
         && (if IsGood(outcome) then next.reply == Some(Served(outcome.status)) && next.lastError == s.lastError
             else next.reply == s.reply && next.lastError == Some(ErrorOf(outcome)))
  }

  lemma TurnAdvances(c: Context, anyHealthy: bool, s: Loop)
    requires s.offset < |c.upstreams| == |c.answers|
    ensures Advances(c, s, Turn(c, anyHealthy, s))
    ensures Turn(c, anyHealthy, s).trace[|s.trace|].Skipped?
            <==> anyHealthy && !Look(c, s.world, c.upstreams[Index(c, s.offset)]).1
  {
    hide Look, AllowRetry, LeastConnections.Done, LeastConnections.Started, Health.Failed, Health.Succeeded;
  }

  function Walk(c: Context, anyHealthy: bool, s: Loop): Loop
    requires |c.upstreams| == |c.answers|
    decreases |c.upstreams| - s.offset
  {
    if Halted(c, s) then s else Walk(c, anyHealthy, Turn(c, anyHealthy, s))
  }

  /** The loop's state on entry: the health scan is over and the request is recorded. */
  function Entered(c: Context, w: World): (Loop, bool) {
    var (scanned, anyHealthy) := AnyHealthy(c, w, 0);
    var now := c.clock(scanned.reading);
    var recorded := scanned.(budget := scanned.budget.(requests := scanned.budget.requests + [now]),
                             reading := scanned.reading + 1);
    (Loop(recorded, 0, 0, None, None, [], []), anyHealthy)
  }

  function Finished(s: Loop): (World, Reply) {
    match s.reply
    case Some(reply) => (s.world, reply)
    case None =>
      var reply := Failed(if s.lastError.Some? then s.lastError.value else UpstreamFailure);
      (s.world.(requests := s.world.requests + multiset{StatusLabel(reply)}), reply)
  }

  /** The loop's final state for a request that finds the world `w`. */
  function FinalLoop(c: Context, w: World): Loop
    requires |c.upstreams| == |c.answers|
  {
    var (s, anyHealthy) := Entered(c, w);
    Walk(c, anyHealthy, s)
  }

  // --- The method ---

  class AppState {
    const health: Health.HealthTracker
    const retryBudget: RetryBudget.RetryBudget
    const balancer: LeastConnections.LeastConnections
    var retriesTotal: nat
    var errorsTotal: multiset<ErrorLabel>
    var requestsTotal: multiset<nat>
    var readings: nat
    var millisSlept: nat
    var secondsWaited: real

    constructor (health: Health.HealthTracker, retryBudget: RetryBudget.RetryBudget,
                 balancer: LeastConnections.LeastConnections)
      ensures this.health == health && this.retryBudget == retryBudget && this.balancer == balancer
      ensures View() == World(health.state, retryBudget.View(), balancer.active[..], 0, multiset{}, multiset{}, 0, 0,
                              0.0)
    {
      this.health, this.retryBudget, this.balancer := health, retryBudget, balancer;
      retriesTotal, errorsTotal, requestsTotal, readings := 0, multiset{}, multiset{}, 0;
      millisSlept, secondsWaited := 0, 0.0;
    }

    function View(): World
      reads this, health, retryBudget, balancer.active
    {
      World(health.state, retryBudget.View(), balancer.active[..], retriesTotal, errorsTotal, requestsTotal, readings,
            millisSlept, secondsWaited)
    }

    method IsHealthy(c: Context, u: Health.Upstream) returns (healthy: bool)
      requires c.rules == health.rules
      modifies health, `readings
      ensures (View(), healthy) == Look(c, old(View()), u)
    {
      healthy := health.IsHealthy(u, c.clock(readings));
      readings := readings + 1;
    }

    method ScanHealth(c: Context) returns (anyHealthy: bool)
      requires c.rules == health.rules
      modifies health, `readings
      ensures (View(), anyHealthy) == AnyHealthy(c, old(View()), 0)
    {
      var i := 0;
      while i < |c.upstreams|
        invariant 0 <= i <= |c.upstreams|
        invariant AnyHealthy(c, View(), i) == AnyHealthy(c, old(View()), 0)
      {
        var healthy := IsHealthy(c, c.upstreams[i]);
        if healthy {
          return true;
        }
        i := i + 1;
      }
      anyHealthy := false;
    }

    /** The upstream call under its timeout. */
    method ForwardOnce(c: Context, index: nat) returns (outcome: Outcome)
      requires index < |c.answers|
      modifies `secondsWaited
      ensures outcome == OutcomeAt(c, index) && secondsWaited == old(secondsWaited) + WaitAt(c, index)
    {
      var answer := c.answers[index];
      if answer.Silent? || answer.after > c.requestTimeout {
        secondsWaited := secondsWaited + c.requestTimeout;
        return TimedOut;
      }
      secondsWaited := secondsWaited + answer.after;
      outcome := if answer.Responds? then Answered(answer.status) else Disconnected;
    }

    /** The health tracker and the counters hear what came back. */
    method Settle(c: Context, u: Health.Upstream, outcome: Outcome)
      requires c.rules == health.rules
      modifies health, `requestsTotal, `errorsTotal, `readings
      ensures var w := old(View());
              View() == if IsGood(outcome) then
                          w.(health := Health.Succeeded(w.health, u),
                             requests := w.requests + multiset{StatusLabel(Served(outcome.status))})
                        else
                          w.(health := Health.Failed(c.rules, w.health, u, c.clock(w.reading)),
                             errors := w.errors + multiset{LabelOf(outcome)}, reading := w.reading + 1)
    {
      hide Health.Failed, Health.Succeeded, LabelOf;
      if outcome.Answered? && !IsServerError(outcome.status) {
        health.RecordSuccess(u);
        requestsTotal := requestsTotal + multiset{outcome.status};
      } else {
        health.RecordFailure(u, c.clock(readings));
        readings := readings + 1;
        errorsTotal := errorsTotal + multiset{LabelOf(outcome)};
      }
    }

    /** The call with its connection counted while it is under way. */
    method Fly(c: Context, index: nat) returns (outcome: Outcome)
      requires index < |c.answers|
      modifies balancer.active, `secondsWaited
      ensures outcome == OutcomeAt(c, index)
      ensures var w := old(View());
              View() == w.(active := LeastConnections.Done(LeastConnections.Started(w.active, index), index),
                           waited := w.waited + WaitAt(c, index))
    {
      hide LeastConnections.Started, LeastConnections.Done, OutcomeAt, WaitAt;
      balancer.RecordStart(index);
      outcome := ForwardOnce(c, index);
      balancer.RecordDone(index);
    }

    /** One attempt; `next` is the loop state it leads to. */
    method TryUpstream(c: Context, index: nat, ghost s: Loop) returns (outcome: Outcome, ghost next: Loop)
      requires index < |c.upstreams| == |c.answers| && c.rules == health.rules && s.world == View()
      modifies this, health, balancer.active
      ensures outcome == OutcomeAt(c, index)
      ensures next == Attempt(c, s, index) && next.world == View()
      ensures next.trace == s.trace + [Tried(index, outcome)]
    {
      hide LeastConnections.Started, LeastConnections.Done, Health.Failed, Health.Succeeded, OutcomeAt, WaitAt, IsGood,
           ErrorOf, LabelOf, StatusLabel;
      outcome := Fly(c, index);
      Settle(c, c.upstreams[index], outcome);
      next := Attempt(c, s, index);
    }

    method AskBudget(c: Context) returns (allowed: bool)
      requires c.policy == retryBudget.policy
      modifies retryBudget, `readings
      ensures (View(), allowed) == AllowRetry(c, old(View()))
    {
      allowed := retryBudget.AllowRetry(c.clock(readings), c.clock(readings + 1));
      readings := readings + 2;
    }

    /** Counts an allowed retry and sleeps before it. */
    method WaitToRetry(c: Context, attempts: nat)
      requires attempts > 0
      modifies this
      ensures View() == BackOff(c, old(View()), attempts)
    {
      retriesTotal := retriesTotal + 1;
      var exponential := Min(c.backoffBase * Backoff.Pow2((attempts - 1) % 64), WORD - 1);
      var delay := (exponential + c.jitter(attempts)) % WORD;
      millisSlept := millisSlept + delay;
    }

    /** The loop body at `offset`: skip, stop, or try. */
    method VisitUpstream(c: Context, anyHealthy: bool, offset: nat, attempts: nat, ghost s: Loop)
        returns (visit: Visit, ghost next: Loop)
      requires offset < |c.upstreams| == |c.answers| && c.rules == health.rules && c.policy == retryBudget.policy
      requires s.world == View() && s.offset == offset && s.attempts == attempts
      modifies this, health, retryBudget, balancer.active
      ensures next == Turn(c, anyHealthy, s) && next.world == View()
      ensures next.trace == s.trace + [visit]
    {
      hide Look, AllowRetry, Attempt, BackOff;
      TurnAdvances(c, anyHealthy, s);
      var index := (c.start + offset) % |c.upstreams|;
      if anyHealthy {
        var healthy := IsHealthy(c, c.upstreams[index]);
        if !healthy {
          return Skipped(index), Turn(c, anyHealthy, s);
        }
      }
      ghost var before := s.(world := View());
      if attempts > 0 {
        var allowed := AskBudget(c);
        if !allowed {
          return Refused(index), Turn(c, anyHealthy, s);
        }
        WaitToRetry(c, attempts);
        before := s.(world := View(), jitters := s.jitters + [c.jitter(attempts)]);
      }
      var outcome;
      outcome, next := TryUpstream(c, index, before);
      visit := Tried(index, outcome);
    }

    /** What happens before the loop: the health scan, and the request's entry in the retry budget. */
    method EnterLoop(c: Context) returns (anyHealthy: bool, ghost s: Loop)
      requires c.rules == health.rules
      modifies health, retryBudget, `readings
      ensures (s, anyHealthy) == Entered(c, old(View())) && s == Loop(View(), 0, 0, None, None, [], [])
    {
      hide AnyHealthy;
      anyHealthy := ScanHealth(c);
      retryBudget.RecordRequest(c.clock(readings));
      readings := readings + 1;
      s := Loop(View(), 0, 0, None, None, [], []);
    }

    method ProxyRequest(c: Context) returns (reply: Reply)
      requires |c.answers| == |c.upstreams| && c.rules == health.rules && c.policy == retryBudget.policy
      modifies this, health, retryBudget, balancer.active
      ensures (View(), reply) == Finished(FinalLoop(c, old(View())))
    {
      hide Entered, Turn;
      ghost var final := FinalLoop(c, View());
      var anyHealthy;
      ghost var s;
      anyHealthy, s := EnterLoop(c);
      var n, attempts, lastError := |c.upstreams|, 0, None;
      var offset := 0;
      while offset < n
        invariant 0 <= offset <= n && s.offset == offset
        invariant s.world == View() && s.attempts == attempts && s.lastError == lastError
        invariant s.reply.None? && !Broke(s)
        invariant Walk(c, anyHealthy, s) == final
      {
        if attempts >= MaxAttempts(c) {
          break;
        }
        var visit;
        TurnAdvances(c, anyHealthy, s);
        visit, s := VisitUpstream(c, anyHealthy, offset, attempts, s);
        offset := offset + 1;
        match visit
        case Skipped(_) =>
        case Refused(_) => break;
        case Tried(_, outcome) =>
          attempts := attempts + 1;
          if IsGood(outcome) {
            return Served(outcome.status);
          }
          lastError := Some(ErrorOf(outcome));
      }
      reply := Failed(if lastError.Some? then lastError.value else UpstreamFailure);
      requestsTotal := requestsTotal + multiset{StatusLabel(reply)};
    }
  }
}
