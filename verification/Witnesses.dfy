/** Reachable states that show how far the proxy can go: one counted request with as many uncounted retries as its
    pool and its cap allow, and a request that is answered without a single attempt although its health scan found
    an upstream. */
module Witnesses {
  import opened Prelude
  import opened ProxyLoop
  import opened ProxySystem
  import opened SystemInvariants
  import opened SystemTheorems
  import Division
  import Health
  import LeastConnections
  import RetryBudget

  /** Upstreams told apart by the lengths of their names. */
  function Name(i: nat): (name: Health.Upstream)
    ensures |name| == i
  {
    if i == 0 then "" else Name(i - 1) + "u"
  }

  function Names(n: nat): seq<Health.Upstream> {
    seq(n, i requires 0 <= i < n => Name(i))
  }

  /** The only request so far has made `attempts` attempts, one at each offset before `offset` and all of them
      failures, and is where it can go on; it was counted at zero. */
  ghost predicate Alone(c: Constants, s: State, n: nat, phase: Phase, offset: nat, attempts: nat) {
    && |s.jobs| == 1
    && (var job := s.jobs[0];
        && job.phase == phase && job.config == job.router == job.route == job.start == 0 && job.pool == n
        && job.anyHealthy && job.offset == offset && job.attempts == attempts && job.recordedAt == Some(0.0))
    && s.configs == [n - 1]
    && |s.routers| == 1 && |s.routers[0]| == 1 && s.routers[0][0].upstreams == Names(n)
    && (forall u | u in s.health :: |u| < offset)
    && s.now <= c.policy.window
    && (s.budget.requests == [0.0] || s.budget.requests == [])
  }

  lemma Start(c: Constants, pools: seq<seq<Health.Upstream>>, maxRetries: nat)
    ensures Reachable(c, Init(pools, maxRetries))
  {
    assert IsRun(c, Init(pools, maxRetries), []);
    assert End(c, Init(pools, maxRetries), []) == Init(pools, maxRetries);
  }

  lemma GoOn(c: Constants, s: State, step: Step)
    requires Reachable(c, s) && Enabled(s, step)
    ensures Reachable(c, Apply(c, s, step))
  {
    hide Apply, Enabled, Init;
    var pools, maxRetries: nat, steps :|
      IsRun(c, Init(pools, maxRetries), steps) && End(c, Init(pools, maxRetries), steps) == s;
    var longer := steps + [step];
    assert longer[..|longer| - 1] == steps;
    assert End(c, Init(pools, maxRetries), longer) == Apply(c, s, step);
  }

  /** The proxy once its first request has been routed. */
  function Routing(n: nat): State
    requires 0 < n
  {
    Init([Names(n)], n - 1).(jobs := [NEW_JOB.(phase := Routed, pool := n)])
  }

  lemma ReachRouting(c: Constants, n: nat)
    requires 0 < n
    ensures Reachable(c, Routing(n))
  {
    hide Reachable, AfterScan, AfterRecord, AfterHead, AfterAsk, AfterLaunch, AfterLand, AfterSettle, Name;
    var s := Init([Names(n)], n - 1);
    Start(c, [Names(n)], n - 1);
    GoOn(c, s, Arrive);
    var s1 := s.(jobs := [NEW_JOB]);
    assert Apply(c, s, Arrive) == s1;
    GoOn(c, s1, LoadConfig(0));
    var s2 := s.(jobs := [NEW_JOB.(phase := Configured)]);
    assert Apply(c, s1, LoadConfig(0)) == s2;
    GoOn(c, s2, LoadRouter(0, 0));
    assert Apply(c, s2, LoadRouter(0, 0)) == Routing(n);
  }

  /** The way into the loop. */
  lemma Enter(c: Constants, n: nat) returns (s: State)
    requires 0 < n < WORD && c.policy.window >= 0.0
    ensures Reachable(c, s) && Alone(c, s, n, Heading, 0, 0) && s.unrecorded == 0
  {
    hide Reachable, RetryBudget.Judge, RetryBudget.After, Names;
    ReachRouting(c, n);
    s := Routing(n);
    assert |Names(n)| == n by { NamesCount(n); }
    GoOn(c, s, PickStart(0, 0));
    s := Apply(c, s, PickStart(0, 0));
    GoOn(c, s, Scan(0, 0.0));
    s := Apply(c, s, Scan(0, 0.0));
    GoOn(c, s, Record(0, 0.0));
    s := Apply(c, s, Record(0, 0.0));
  }

  lemma NamesCount(n: nat)
    ensures |Names(n)| == n
  {
  }

  lemma AtOffset(job: Job)
    requires job.start == 0 && job.offset < job.pool
    ensures Position(job) == job.offset
  {
    Division.QuotientAndRemainder(job.offset, job.pool, 0, job.offset);
  }

  lemma Choose(c: Constants, s: State, n: nat, a: nat) returns (t: State)
    requires 0 < n < WORD && a < n && Reachable(c, s) && Alone(c, s, n, Heading, a, a)
    ensures Reachable(c, t) && t.unrecorded == s.unrecorded
    ensures Alone(c, t, n, if a > 0 then Asking else Launching, a, a)
  {
    hide Reachable;
    AtOffset(s.jobs[0]);
    GoOn(c, s, Head(0, s.now));
    t := Apply(c, s, Head(0, s.now));
  }

  lemma Escapes(c: Constants, s: State, n: nat, a: nat) returns (t: State)
    requires Reachable(c, s) && Alone(c, s, n, Asking, a, a)
    ensures Reachable(c, t) && Alone(c, t, n, Launching, a, a) && t.unrecorded == s.unrecorded + 1
  {
    hide Reachable, RetryBudget.Judge, RetryBudget.After, Names, AfterScan, AfterRecord, AfterHead, AfterLaunch,
         AfterLand, AfterSettle, GiveUp, Works, Position;
    var w := c.policy.window;
    OutOfWindow(c.policy, s.budget);
    GoOn(c, s, Ask(0, w, w));
    t := Apply(c, s, Ask(0, w, w));
    GoOn(c, t, Wake(0));
    t := Apply(c, t, Wake(0));
  }

  /** A window after zero, a request counted at zero is no longer in it. */
  lemma OutOfWindow(policy: RetryBudget.Policy, b: RetryBudget.Budget)
    requires b.requests == [0.0] || b.requests == []
    ensures RetryBudget.Judge(policy, b, policy.window) == RetryBudget.Unrecorded
    ensures RetryBudget.After(policy, b, RetryBudget.Retry(policy.window, policy.window)).requests == []
  {
    assert RetryBudget.Fresh([], 0.0) == [];
    assert [0.0][..0] == [];
    assert RetryBudget.Fresh([0.0], 0.0) == [];
  }

  lemma Flies(c: Constants, s: State, n: nat, a: nat) returns (t: State)
    requires a < n && Reachable(c, s) && Alone(c, s, n, Launching, a, a)
    ensures Reachable(c, t) && Alone(c, t, n, Landed(Disconnected), a, a + 1) && t.unrecorded == s.unrecorded
  {
    hide Reachable, Names, LeastConnections.Started, LeastConnections.Done;
    AtOffset(s.jobs[0]);
    NamesCount(n);
    GoOn(c, s, Launch(0));
    t := Apply(c, s, Launch(0));
    GoOn(c, t, Land(0, Disconnected));
    t := Apply(c, t, Land(0, Disconnected));
  }

  lemma Fails(c: Constants, s: State, n: nat, a: nat) returns (t: State)
    requires a < n && Reachable(c, s) && Alone(c, s, n, Landed(Disconnected), a, a + 1)
    ensures Reachable(c, t) && Alone(c, t, n, Heading, a + 1, a + 1) && t.unrecorded == s.unrecorded
  {
    hide Reachable;
    AtOffset(s.jobs[0]);
    GoOn(c, s, Settle(0, s.now));
    t := Apply(c, s, Settle(0, s.now));
  }

  lemma {:induction false} Repeats(c: Constants, n: nat, a: nat) returns (s: State)
    requires 0 < n < WORD && a <= n && c.policy.window >= 0.0
    ensures Reachable(c, s) && Alone(c, s, n, Heading, a, a) && s.unrecorded == Max(a - 1, 0)
  {
    hide Reachable, Alone;
    if a == 0 {
      s := Enter(c, n);
    } else {
      s := Repeats(c, n, a - 1);
      s := Choose(c, s, n, a - 1);
      if a > 1 {
        s := Escapes(c, s, n, a - 1);
      }
      s := Flies(c, s, n, a - 1);
      s := Fails(c, s, n, a - 1);
    }
  }

  lemma SumOne(jobs: seq<Job>, f: Job -> nat)
    requires |jobs| == 1
    ensures Sum(jobs, f) == f(jobs[0])
  {
    assert Sum(jobs[..0], f) == 0;
  }

  /** Whatever the percentage, 0 included, and for every cap `n`: a proxy can reach a state in which one counted request
      has made `n` attempts, all its retries granted and none of them counted. */
  lemma NoFactorBounds(c: Constants, n: nat)
    requires 0 < n < WORD && c.policy.window >= 0.0
    ensures exists s :: Reachable(c, s) && Sum(s.jobs, Counted) == 1 && Sum(s.jobs, AttemptsOf) == n
                        && s.unrecorded == n - 1
  {
    hide Reachable, Sum;
    var s := Repeats(c, n, n);
    SumOne(s.jobs, Counted);
    SumOne(s.jobs, AttemptsOf);
  }

  // --- A scan that is outdated when the loop begins ---

  /** After `k` failed checks. */
  ghost predicate Marked(c: Constants, ledger: Health.Ledger, u: Health.Upstream, k: nat, now: real) {
    if k == 0 then ledger == map[]
    else
      && u in ledger && ledger[u].failures == Min(k, c.rules.threshold)
      && (k >= c.rules.threshold ==> ledger[u].markedAt == Some(now))
  }

  /** The active checker finds `u` failing `k` times. */
  lemma {:induction false} FailChecks(c: Constants, s: State, u: Health.Upstream, k: nat) returns (t: State)
    requires Reachable(c, s) && s.health == map[]
    ensures Reachable(c, t) && t == s.(health := t.health) && Marked(c, t.health, u, k, s.now)
  {
    hide Reachable;
    if k == 0 {
      t := s;
    } else {
      t := FailChecks(c, s, u, k - 1);
      GoOn(c, t, CheckUpstream(u, false, s.now));
      t := Apply(c, t, CheckUpstream(u, false, s.now));
    }
  }

  /** The request enters its loop with a scan that found its only upstream healthy. */
  lemma EnterMarked(c: Constants) returns (s: State)
    requires c.policy.window >= 0.0
    ensures Reachable(c, s) && Alone(c, s.(health := map[]), 1, Heading, 0, 0) && s.jobs[0].trace == []
    ensures s.jobs[0].lastError == None
    ensures Marked(c, s.health, Name(0), Max(c.rules.threshold, 1), s.now)
  {
    hide Reachable, Name;
    s := Enter(c, 1);
    NoNames(s.health);
    FreshJob(c, s);
    s := FailChecks(c, s, Name(0), Max(c.rules.threshold, 1));
  }

  lemma NoNames(ledger: Health.Ledger)
    requires forall u | u in ledger :: |u| < 0
    ensures ledger == map[]
  {
  }

  lemma FreshJob(c: Constants, s: State)
    requires Reachable(c, s) && Alone(c, s, 1, Heading, 0, 0)
    ensures s.jobs[0].trace == [] && s.jobs[0].lastError == None
  {
    hide Reachable, Conserved, Budgeted, Totals, Progress, Explained, Snapshot, Bounded;
    ReachableSound(c, s);
    assert JobOk(s, s.jobs[0]);
  }

  /** The loop skips it, and gives up. */
  lemma SkipsAll(c: Constants, s: State) returns (t: State)
    requires Reachable(c, s) && Alone(c, s.(health := map[]), 1, Heading, 0, 0) && s.jobs[0].trace == []
    requires s.jobs[0].lastError == None && c.rules.cooldown > 0.0
    requires Marked(c, s.health, Name(0), Max(c.rules.threshold, 1), s.now)
    ensures Reachable(c, t) && |t.jobs| == 1 && t.jobs[0].phase == Replied(502) && t.jobs[0].attempts == 0
    ensures t.jobs[0].anyHealthy && t.jobs[0].trace == [Skipped(0)] && Cap(t, t.jobs[0]) == 1
  {
    hide Reachable, Name, AfterScan, AfterRecord, AfterAsk, AfterLaunch, AfterLand, AfterSettle;
    AtOffset(s.jobs[0]);
    assert Names(1)[0] == Name(0);
    GoOn(c, s, Head(0, s.now));
    t := Apply(c, s, Head(0, s.now));
    GoOn(c, t, Head(0, t.now));
    t := Apply(c, t, Head(0, t.now));
  }

  /** A scan can find an upstream and the request still make no attempt, with a cap that allows one: for every threshold
      and every cooldown, a check between scan and loop is enough. */
  lemma ScanCanMislead(c: Constants)
    requires c.policy.window >= 0.0 && c.rules.cooldown > 0.0
    ensures exists s :: Reachable(c, s) && |s.jobs| == 1 && s.jobs[0].phase == Replied(502) && s.jobs[0].anyHealthy
                        && s.jobs[0].attempts == 0 && Cap(s, s.jobs[0]) == 1
  {
    hide Reachable, Alone, Marked;
    var s := EnterMarked(c);
    s := SkipsAll(c, s);
  }
}
