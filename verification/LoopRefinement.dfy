/** The retry loop as one request sees it is a run of the whole proxy: what `AppState.ProxyRequest` computes,
    the state machine can do, step by step, when nobody else moves in between. */
module LoopRefinement {
  import opened Prelude
  import opened ProxyLoop
  import opened ProxySystem
  import Health
  import RetryBudget
  import LeastConnections
  import Backoff

  // --- Building runs ---

  lemma EmptyRun(k: Constants, t: State)
    ensures IsRun(k, t, []) && End(k, t, []) == t
  {
  }

  lemma OneStep(k: Constants, t: State, step: Step)
    requires Enabled(t, step)
    ensures IsRun(k, t, [step]) && End(k, t, [step]) == Apply(k, t, step)
  {
    hide Apply, Enabled;
    EmptyRun(k, t);
    assert [step][..0] == [];
  }

  lemma {:induction false} Chain(k: Constants, t: State, a: seq<Step>, b: seq<Step>)
    requires IsRun(k, t, a) && IsRun(k, End(k, t, a), b)
    ensures IsRun(k, t, a + b) && End(k, t, a + b) == End(k, End(k, t, a), b)
  {
    hide Apply, Enabled;
    if b == [] {
      assert a + b == a;
    } else {
      var last := |b| - 1;
      Chain(k, t, a, b[..last]);
      assert (a + b)[..|a + b| - 1] == a + b[..last];
    }
  }

  // --- The correspondence ---

  /** The machine's shared state shows the world `w` to the request `j`, which works on the pool of `c`, label
      by label. */
  ghost predicate Shows(c: Context, w: World, t: State, j: nat) {
    && Works(t, j)
    && PoolOf(t, t.jobs[j]) == Pool(c.upstreams, w.active)
    && t.configs[t.jobs[j].config] == c.maxRetries
    && t.health == w.health && t.budget == w.budget
    && t.retriesTotal == w.retries && t.errorsTotal == w.errors && t.requestsTotal == w.requests
    && t.now <= c.clock(w.reading)
  }

  /** The request's own variables are those of the loop. */
  ghost predicate Mirrors(c: Context, anyHealthy: bool, s: Loop, job: Job) {
    && job.start == c.start && job.anyHealthy == anyHealthy && job.recordedAt.Some?
    && job.offset == s.offset && job.attempts == s.attempts && job.lastError == s.lastError && job.trace == s.trace
  }

  ghost predicate StandsAt(c: Context, anyHealthy: bool, s: Loop, t: State, j: nat, phase: Phase) {
    Shows(c, s.world, t, j) && Mirrors(c, anyHealthy, s, t.jobs[j]) && t.jobs[j].phase == phase
  }

  function ConstantsOf(c: Context): Constants {
    Constants(c.rules, c.policy)
  }

  /** Where a request is after a turn: answered, or back at the top of the loop. */
  ghost predicate Follows(c: Context, anyHealthy: bool, s: Loop, t: State, j: nat) {
    if Broke(s) || s.reply.Some? then Ended(c, s, t, j) else StandsAt(c, anyHealthy, s, t, j, Heading)
  }

  /** The request is answered as the loop's result says, after the same visits, and the world is the one the loop
      leaves. */
  ghost predicate Ended(c: Context, s: Loop, t: State, j: nat) {
    && Shows(c, Finished(s).0, t, j)
    && t.jobs[j].phase == Replied(ClientStatus(Finished(s).1))
    && t.jobs[j].trace == s.trace && t.jobs[j].attempts == s.attempts && t.jobs[j].lastError == s.lastError
  }

  // --- One attempt ---

  lemma LaunchShows(c: Context, anyHealthy: bool, s: Loop, t: State, j: nat)
    requires StandsAt(c, anyHealthy, s, t, j, Launching)
    ensures var (k, index) := (ConstantsOf(c), Position(t.jobs[j]));
            && Enabled(t, Launch(j))
            && StandsAt(c, anyHealthy,
                        s.(attempts := s.attempts + 1,
                           world := s.world.(active := LeastConnections.Started(s.world.active, index))),
                        Apply(k, t, Launch(j)), j, Flying)
            && Position(Apply(k, t, Launch(j)).jobs[j]) == index
  {
    hide LeastConnections.Started;
  }

  lemma LandShows(c: Context, anyHealthy: bool, s: Loop, t: State, j: nat, outcome: Outcome)
    requires StandsAt(c, anyHealthy, s, t, j, Flying)
    ensures var (k, index) := (ConstantsOf(c), Position(t.jobs[j]));
            && Enabled(t, Land(j, outcome))
            && StandsAt(c, anyHealthy, s.(world := s.world.(active := LeastConnections.Done(s.world.active, index))),
                        Apply(k, t, Land(j, outcome)), j, Landed(outcome))
            && Position(Apply(k, t, Land(j, outcome)).jobs[j]) == index
  {
    hide LeastConnections.Done;
  }

  /** The bookkeeping of an attempt that came back with `outcome`. */
  function SettledLoop(c: Context, s: Loop, index: nat, outcome: Outcome): Loop
    requires index < |c.upstreams|
  {
    var u, w := c.upstreams[index], s.world;
    var tried := s.(offset := s.offset + 1, trace := s.trace + [Tried(index, outcome)]);
    if IsGood(outcome) then
      tried.(world := w.(health := Health.Succeeded(w.health, u), requests := w.requests + multiset{outcome.status}),
             reply := Some(Served(outcome.status)))
    else
      tried.(world := w.(health := Health.Failed(c.rules, w.health, u, c.clock(w.reading)),
                         errors := w.errors + multiset{LabelOf(outcome)}, reading := w.reading + 1),
             lastError := Some(ErrorOf(outcome)))
  }

  lemma SettleShows(c: Context, anyHealthy: bool, s: Loop, t: State, j: nat, outcome: Outcome)
    requires WellFormed(c) && StandsAt(c, anyHealthy, s, t, j, Landed(outcome)) && c.upstreams != []
    ensures var (k, index, settle) := (ConstantsOf(c), Position(t.jobs[j]), Settle(j, c.clock(s.world.reading)));
            && Enabled(t, settle) && index < |c.upstreams|
            && StandsAt(c, anyHealthy, SettledLoop(c, s, index, outcome), Apply(k, t, settle), j,
                        if IsGood(outcome) then Replied(outcome.status) else Heading)
  {
    hide Health.Failed, Health.Succeeded;
    assert c.clock(s.world.reading) <= c.clock(s.world.reading + 1);
  }

  lemma TwoSteps(k: Constants, t: State, a: Step, b: Step) returns (steps: seq<Step>)
    requires Enabled(t, a) && Enabled(Apply(k, t, a), b)
    ensures IsRun(k, t, steps) && End(k, t, steps) == Apply(k, Apply(k, t, a), b) && |steps| == 2
  {
    hide Apply, Enabled, IsRun, End;
    OneStep(k, t, a);
    OneStep(k, Apply(k, t, a), b);
    Chain(k, t, [a], [b]);
    steps := [a] + [b];
  }

  lemma ThreeSteps(k: Constants, t: State, a: Step, b: Step, d: Step) returns (steps: seq<Step>)
    requires Enabled(t, a) && Enabled(Apply(k, t, a), b) && Enabled(Apply(k, Apply(k, t, a), b), d)
    ensures IsRun(k, t, steps) && End(k, t, steps) == Apply(k, Apply(k, Apply(k, t, a), b), d) && |steps| == 3
  {
    hide Apply, Enabled, IsRun, End;
    OneStep(k, t, a);
    var rest := TwoSteps(k, Apply(k, t, a), b, d);
    Chain(k, t, [a], rest);
    steps := [a] + rest;
  }

  lemma PlaceOf(c: Context, anyHealthy: bool, s: Loop, t: State, j: nat, phase: Phase)
    requires StandsAt(c, anyHealthy, s, t, j, phase) && c.upstreams != []
    ensures j < |t.jobs| && Position(t.jobs[j]) == Index(c, s.offset)
  {
  }

  lemma SettledFollows(c: Context, anyHealthy: bool, settled: Loop, attempt: Loop, t: State, j: nat)
    requires attempt.world == settled.world.(waited := attempt.world.waited)
    requires attempt == settled.(world := attempt.world) && !Broke(attempt)
    requires attempt.reply.Some? ==> attempt.reply.value.Served?
    requires StandsAt(c, anyHealthy, settled, t, j,
                      if attempt.reply.Some? then Replied(attempt.reply.value.status) else Heading)
    ensures Follows(c, anyHealthy, attempt, t, j)
  {
  }

  lemma AnswersAll(c: Context)
    requires WellFormed(c) && c.upstreams != []
    ensures |c.answers| == |c.upstreams| && forall offset: nat :: Index(c, offset) < |c.upstreams|
  {
  }

  /** Up to the seconds waited, which the machine does not keep. */
  lemma SettledIsAttempt(c: Context, s: Loop, s2: Loop, index: nat)
    requires index < |c.upstreams| == |c.answers| && s.reply.None?
    requires s2 == s.(attempts := s.attempts + 1, world := s.world.(
               active := LeastConnections.Done(LeastConnections.Started(s.world.active, index), index)))
    ensures var settled, attempt := SettledLoop(c, s2, index, OutcomeAt(c, index)), Attempt(c, s, index);
            && attempt.world == settled.world.(waited := attempt.world.waited)
            && attempt == settled.(world := attempt.world) && !Broke(attempt)
            && (attempt.reply.Some? <==> IsGood(OutcomeAt(c, index)))
            && (attempt.reply.Some? ==> attempt.reply.value == Served(OutcomeAt(c, index).status))
  {
    hide LeastConnections.Started, LeastConnections.Done, Health.Failed, Health.Succeeded;
  }

  /** The three steps together are the loop's attempt. */
  lemma AttemptIsRun(c: Context, anyHealthy: bool, s: Loop, t: State, j: nat) returns (steps: seq<Step>)
    requires WellFormed(c) && c.upstreams != [] && s.reply.None?
    requires StandsAt(c, anyHealthy, s, t, j, Launching)
    ensures IsRun(ConstantsOf(c), t, steps) && |steps| == 3
    ensures Follows(c, anyHealthy, Attempt(c, s, Index(c, s.offset)), End(ConstantsOf(c), t, steps), j)
  {
    hide Apply, Enabled, IsRun, End, StandsAt, Follows, Attempt, SettledLoop, OutcomeAt, WellFormed, Index, Position,
         Broke, LeastConnections.Started, LeastConnections.Done;
    var k, index := ConstantsOf(c), Index(c, s.offset);
    AnswersAll(c);
    PlaceOf(c, anyHealthy, s, t, j, Launching);
    var outcome := OutcomeAt(c, index);
    LaunchShows(c, anyHealthy, s, t, j);
    var s1 := s.(attempts := s.attempts + 1,
                 world := s.world.(active := LeastConnections.Started(s.world.active, index)));
    var t1 := Apply(k, t, Launch(j));
    LandShows(c, anyHealthy, s1, t1, j, outcome);
    var s2 := s1.(world := s1.world.(active := LeastConnections.Done(s1.world.active, index)));
    var t2 := Apply(k, t1, Land(j, outcome));
    var settle := Settle(j, c.clock(s2.world.reading));
    SettleShows(c, anyHealthy, s2, t2, j, outcome);
    steps := ThreeSteps(k, t, Launch(j), Land(j, outcome), settle);
    SettledIsAttempt(c, s, s2, index);
    SettledFollows(c, anyHealthy, SettledLoop(c, s2, index, outcome), Attempt(c, s, index), Apply(k, t2, settle), j);
  }

  /** Giving up after the loop's visits is the loop's answer without a reply. */
  lemma GiveUpEnds(c: Context, s: Loop, t: State, j: nat, job: Job)
    requires Shows(c, s.world, t, j) && s.reply.None?
    requires job == t.jobs[j].(phase := job.phase, offset := job.offset, trace := s.trace)
    requires job.attempts == s.attempts && job.lastError == s.lastError
    ensures Ended(c, s, GiveUp(t, j, job), j)
  {
  }

  // --- One turn ---

  /** The loop state once the next upstream has been looked at. */
  function LookedAt(c: Context, anyHealthy: bool, s: Loop): (Loop, bool)
    requires s.offset < |c.upstreams|
  {
    var (seen, healthy) :=
      if anyHealthy then Look(c, s.world, c.upstreams[Index(c, s.offset)]) else (s.world, true);
    (if healthy then s.(world := seen)
     else s.(world := seen, offset := s.offset + 1, trace := s.trace + [Skipped(Index(c, s.offset))]), healthy)
  }

  lemma HeadShows(c: Context, anyHealthy: bool, s: Loop, t: State, j: nat)
    requires WellFormed(c) && StandsAt(c, anyHealthy, s, t, j, Heading)
    requires s.offset < |c.upstreams| && s.attempts < MaxAttempts(c)
    ensures var (k, head) := (ConstantsOf(c), Head(j, c.clock(s.world.reading)));
            var (looked, healthy) := LookedAt(c, anyHealthy, s);
            && Enabled(t, head)
            && StandsAt(c, anyHealthy, looked, Apply(k, t, head), j,
                        if !healthy then Heading else if s.attempts > 0 then Asking else Launching)
  {
    hide Health.Looked, GiveUp, AfterScan, AfterRecord, AfterAsk, AfterLaunch, AfterLand, AfterSettle;
    assert c.clock(s.world.reading) <= c.clock(s.world.reading + 1);
  }

  /** The loop state once the budget has been asked. */
  function Asked(c: Context, s: Loop): (Loop, bool)
    requires s.attempts > 0 && c.upstreams != []
  {
    var (asked, allowed) := AllowRetry(c, s.world);
    (if allowed then s.(world := BackOff(c, asked, s.attempts), jitters := s.jitters + [c.jitter(s.attempts)])
     else s.(world := asked, offset := s.offset + 1, trace := s.trace + [Refused(Index(c, s.offset))]), allowed)
  }

  lemma AskShows(c: Context, anyHealthy: bool, s: Loop, t: State, j: nat)
    requires WellFormed(c) && StandsAt(c, anyHealthy, s, t, j, Asking) && s.attempts > 0 && c.upstreams != []
    requires s.reply.None?
    ensures var (k, r) := (ConstantsOf(c), s.world.reading);
            var ask := Ask(j, c.clock(r), c.clock(r + 1));
            var (asked, allowed) := Asked(c, s);
            && Enabled(t, ask)
            && (if allowed then StandsAt(c, anyHealthy, asked, Apply(k, t, ask), j, Sleeping)
                else Ended(c, asked, Apply(k, t, ask), j))
  {
    hide RetryBudget.Judge, RetryBudget.After, Backoff.Delay, GiveUp, Ended, AfterScan, AfterRecord, AfterHead,
         AfterLaunch, AfterLand, AfterSettle;
    var k, r, job := ConstantsOf(c), s.world.reading, t.jobs[j];
    assert c.clock(r) <= c.clock(r + 1) <= c.clock(r + 2);
    var (asked, allowed) := Asked(c, s);
    if !allowed {
      GiveUpEnds(c, asked, Judged(k, t, job, c.clock(r), c.clock(r + 1)), j, Visited(job, Refused(Position(job))));
    }
  }

  lemma WakeShows(c: Context, anyHealthy: bool, s: Loop, t: State, j: nat)
    requires StandsAt(c, anyHealthy, s, t, j, Sleeping)
    ensures Enabled(t, Wake(j)) && StandsAt(c, anyHealthy, s, Apply(ConstantsOf(c), t, Wake(j)), j, Launching)
  {
  }

  /** How a turn is put together from looking, asking and trying. */
  lemma TurnParts(c: Context, anyHealthy: bool, s: Loop)
    requires s.offset < |c.upstreams| == |c.answers|
    ensures var (turn, index) := (Turn(c, anyHealthy, s), Index(c, s.offset));
            var (looked, healthy) := LookedAt(c, anyHealthy, s);
            if !healthy then turn == looked
            else if s.attempts == 0 then turn == Attempt(c, looked, index)
            else
              var (asked, allowed) := Asked(c, looked);
              if allowed then turn == Attempt(c, asked, index) && asked.offset == s.offset && asked.reply == s.reply
              else turn == asked && Broke(turn)
  {
    hide Look, AllowRetry, Attempt;
  }

  /** One turn of the loop is a run of between one and six steps. */
  lemma TurnIsRun(c: Context, anyHealthy: bool, s: Loop, t: State, j: nat) returns (steps: seq<Step>)
    requires WellFormed(c) && StandsAt(c, anyHealthy, s, t, j, Heading) && s.reply.None?
    requires s.offset < |c.upstreams| && s.attempts < MaxAttempts(c)
    ensures IsRun(ConstantsOf(c), t, steps) && 1 <= |steps| <= 6
    ensures Follows(c, anyHealthy, Turn(c, anyHealthy, s), End(ConstantsOf(c), t, steps), j)
  {
    hide Apply, Enabled, IsRun, End, Attempt, Look, AllowRetry, Turn, Shows, Backoff.IsJitter;
    var k, head := ConstantsOf(c), Head(j, c.clock(s.world.reading));
    var (looked, healthy) := LookedAt(c, anyHealthy, s);
    TurnParts(c, anyHealthy, s);
    HeadShows(c, anyHealthy, s, t, j);
    OneStep(k, t, head);
    var t1 := Apply(k, t, head);
    if !healthy {
      steps := [head];
    } else if s.attempts == 0 {
      var rest := AttemptIsRun(c, anyHealthy, looked, t1, j);
      Chain(k, t, [head], rest);
      steps := [head] + rest;
    } else {
      var ask := Ask(j, c.clock(looked.world.reading), c.clock(looked.world.reading + 1));
      var (asked, allowed) := Asked(c, looked);
      AskShows(c, anyHealthy, looked, t1, j);
      if !allowed {
        steps := TwoSteps(k, t, head, ask);
      } else {
        var t2 := Apply(k, t1, ask);
        WakeShows(c, anyHealthy, asked, t2, j);
        var first := ThreeSteps(k, t, head, ask, Wake(j));
        var rest := AttemptIsRun(c, anyHealthy, asked, Apply(k, t2, Wake(j)), j);
        Chain(k, t, first, rest);
        steps := first + rest;
      }
    }
  }

  // --- The whole loop ---

  /** At the end of the pool or at the cap, the top of the loop gives up. */
  lemma GiveUpIsRun(c: Context, anyHealthy: bool, s: Loop, t: State, j: nat) returns (steps: seq<Step>)
    requires WellFormed(c) && StandsAt(c, anyHealthy, s, t, j, Heading) && s.reply.None?
    requires s.offset >= |c.upstreams| || s.attempts >= MaxAttempts(c)
    ensures IsRun(ConstantsOf(c), t, steps) && Ended(c, s, End(ConstantsOf(c), t, steps), j)
  {
    hide GiveUp, Ended, IsRun, End, AfterScan, AfterRecord, AfterAsk, AfterLaunch, AfterLand, AfterSettle, Position;
    var head := Head(j, c.clock(s.world.reading));
    GiveUpEnds(c, s, t, j, t.jobs[j]);
    OneStep(ConstantsOf(c), t, head);
    steps := [head];
  }

  lemma {:induction false} WalkIsRun(c: Context, anyHealthy: bool, s: Loop, t: State, j: nat) returns (steps: seq<Step>)
    requires WellFormed(c) && Follows(c, anyHealthy, s, t, j)
    ensures IsRun(ConstantsOf(c), t, steps)
    ensures Ended(c, Walk(c, anyHealthy, s), End(ConstantsOf(c), t, steps), j)
    decreases |c.upstreams| - s.offset
  {
    hide Apply, Enabled, IsRun, End, Turn, Shows, Ended, Mirrors, Backoff.IsJitter;
    var k := ConstantsOf(c);
    if Broke(s) || s.reply.Some? {
      EmptyRun(k, t);
      steps := [];
    } else if Halted(c, s) {
      steps := GiveUpIsRun(c, anyHealthy, s, t, j);
    } else {
      var first := TurnIsRun(c, anyHealthy, s, t, j);
      TurnAdvances(c, anyHealthy, s);
      var rest := WalkIsRun(c, anyHealthy, Turn(c, anyHealthy, s), End(k, t, first), j);
      Chain(k, t, first, rest);
      steps := first + rest;
    }
  }

  // --- The health scan ---

  lemma ScanShows(c: Context, w: World, t: State, j: nat, i: nat)
    requires WellFormed(c) && Shows(c, w, t, j) && t.jobs[j].phase == Scanning(i) && i < |c.upstreams|
    ensures var (k, scan) := (ConstantsOf(c), Scan(j, c.clock(w.reading)));
            var (next, healthy) := Look(c, w, c.upstreams[i]);
            && Enabled(t, scan)
            && Shows(c, next, Apply(k, t, scan), j)
            && Apply(k, t, scan).jobs[j]
               == (if healthy then t.jobs[j].(phase := Counting, anyHealthy := true)
                   else t.jobs[j].(phase := Scanning(i + 1)))
  {
    hide Health.Looked;
    assert c.clock(w.reading) <= c.clock(w.reading + 1);
  }

  lemma ScanEnds(c: Context, w: World, t: State, j: nat)
    requires Shows(c, w, t, j) && t.jobs[j].phase == Scanning(|c.upstreams|)
    ensures var (k, scan) := (ConstantsOf(c), Scan(j, c.clock(w.reading)));
            && Enabled(t, scan)
            && Shows(c, w, Apply(k, t, scan), j)
            && Apply(k, t, scan).jobs[j] == t.jobs[j].(phase := Counting, anyHealthy := false)
  {
  }

  lemma {:induction false} ScanIsRun(c: Context, w: World, t: State, j: nat, i: nat) returns (steps: seq<Step>)
    requires WellFormed(c) && Shows(c, w, t, j) && t.jobs[j].phase == Scanning(i) && i <= |c.upstreams|
    ensures IsRun(ConstantsOf(c), t, steps)
    ensures var (next, anyHealthy) := AnyHealthy(c, w, i);
            var end := End(ConstantsOf(c), t, steps);
            Shows(c, next, end, j) && end.jobs[j] == t.jobs[j].(phase := Counting, anyHealthy := anyHealthy)
    decreases |c.upstreams| - i
  {
    hide Apply, Enabled, IsRun, End, Look, Shows, Backoff.IsJitter;
    var k, scan := ConstantsOf(c), Scan(j, c.clock(w.reading));
    if i == |c.upstreams| {
      ScanEnds(c, w, t, j);
      OneStep(k, t, scan);
      steps := [scan];
    } else {
      ScanShows(c, w, t, j, i);
      OneStep(k, t, scan);
      var (next, healthy) := Look(c, w, c.upstreams[i]);
      if healthy {
        steps := [scan];
      } else {
        var rest := ScanIsRun(c, next, Apply(k, t, scan), j, i + 1);
        Chain(k, t, [scan], rest);
        steps := [scan] + rest;
      }
    }
  }

  lemma RecordShows(c: Context, w: World, t: State, j: nat)
    requires WellFormed(c) && Shows(c, w, t, j) && t.jobs[j].phase.Counting?
    requires var job := t.jobs[j];
             job.start == c.start && job.offset == job.attempts == 0 && job.lastError.None? && job.trace == []
    ensures var (k, record) := (ConstantsOf(c), Record(j, c.clock(w.reading)));
            var recorded := w.(budget := w.budget.(requests := w.budget.requests + [c.clock(w.reading)]),
                               reading := w.reading + 1);
            && Enabled(t, record)
            && StandsAt(c, t.jobs[j].anyHealthy, Loop(recorded, 0, 0, None, None, [], []),
                        Apply(k, t, record), j, Heading)
  {
    assert c.clock(w.reading) <= c.clock(w.reading + 1);
  }

  /** What the method computes for a request, from its health scan to its answer, is what the machine does when
      it takes that request's steps and no others: same answer, same health, budget, connection counts and
      metrics. So every theorem about reachable states speaks about the method too. */
  lemma RequestIsRun(c: Context, w: World, t: State, j: nat) returns (steps: seq<Step>)
    requires WellFormed(c) && Shows(c, w, t, j) && t.jobs[j].phase == Scanning(0)
    requires var job := t.jobs[j];
             job.start == c.start && job.offset == job.attempts == 0 && job.lastError.None? && job.trace == []
    ensures IsRun(ConstantsOf(c), t, steps)
    ensures Ended(c, FinalLoop(c, w), End(ConstantsOf(c), t, steps), j)
  {
    hide Apply, Enabled, IsRun, End, AnyHealthy, Walk, Shows, Ended, Mirrors, Backoff.IsJitter;
    var k := ConstantsOf(c);
    var scan := ScanIsRun(c, w, t, j, 0);
    var t1 := End(k, t, scan);
    var (scanned, anyHealthy) := AnyHealthy(c, w, 0);
    var record := Record(j, c.clock(scanned.reading));
    RecordShows(c, scanned, t1, j);
    OneStep(k, t1, record);
    Chain(k, t, scan, [record]);
    var (s, any) := Entered(c, w);
    var rest := WalkIsRun(c, anyHealthy, s, Apply(k, t1, record), j);
    Chain(k, t, scan + [record], rest);
    steps := scan + [record] + rest;
  }
}
