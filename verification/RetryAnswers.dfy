/** The retry loop seen from the upstreams: what each answer, by its status and its time, makes of the attempt, the
    reply, the error counter, the health reports and the wait. */
module RetryAnswers {
  import opened Prelude
  import opened ProxyLoop
  import opened RetryLoop
  import Health

  // --- What an answer means ---

  /** Position `i` answers before the timeout. */
  predicate InTime(c: Context, i: nat)
    requires i < |c.answers|
  {
    !c.answers[i].Silent? && c.answers[i].after <= c.requestTimeout
  }

  /** It does, and not with a status from 500 to 599. */
  predicate ServesWell(c: Context, i: nat)
    requires i < |c.answers|
  {
    InTime(c, i) && c.answers[i].Responds? && (c.answers[i].status < 500 || c.answers[i].status >= 600)
  }

  /** The label that an attempt on it adds to the error counter. */
  function ErrorsFor(c: Context, i: nat): multiset<ErrorLabel>
    requires i < |c.answers|
  {
    if !InTime(c, i) then multiset{LabelTimeout}
    else if c.answers[i].Breaks? then multiset{LabelConnection}
    else if 500 <= c.answers[i].status < 600 then multiset{Label5xx}
    else multiset{}
  }

  /** The seconds that an attempt on it takes. */
  function SecondsFor(c: Context, i: nat): real
    requires i < |c.answers|
  {
    if InTime(c, i) then c.answers[i].after else c.requestTimeout
  }

  predicate Asks(c: Context, visit: Visit) {
    visit.Tried? && visit.index < |c.answers|
  }

  function ErrorsBy(c: Context, trace: seq<Visit>): multiset<ErrorLabel> {
    if trace == [] then multiset{}
    else
      var last := trace[|trace| - 1];
      ErrorsBy(c, trace[..|trace| - 1]) + if Asks(c, last) then ErrorsFor(c, last.index) else multiset{}
  }

  function SecondsBy(c: Context, trace: seq<Visit>): real {
    if trace == [] then 0.0
    else
      var last := trace[|trace| - 1];
      SecondsBy(c, trace[..|trace| - 1]) + if Asks(c, last) then SecondsFor(c, last.index) else 0.0
  }

  function ReportsBy(c: Context, trace: seq<Visit>): seq<Report> {
    if trace == [] then []
    else
      var last := trace[|trace| - 1];
      ReportsBy(c, trace[..|trace| - 1])
      + if Asks(c, last) && last.index < |c.upstreams| then [Report(c.upstreams[last.index], ServesWell(c, last.index))]
        else []
  }

  // --- The loop's own words mean the same ---

  /** Each attempt of the trace has the outcome of its position. */
  ghost predicate Honest(c: Context, trace: seq<Visit>) {
    forall k | 0 <= k < |trace| && trace[k].Tried? ::
      trace[k].index < |c.answers| && trace[k].outcome == OutcomeAt(c, trace[k].index)
  }

  lemma OutcomeMeans(c: Context, i: nat)
    requires i < |c.answers|
    ensures var outcome, answer := OutcomeAt(c, i), c.answers[i];
            && (outcome.Answered? <==> InTime(c, i) && answer.Responds?)
            && (outcome.Answered? ==> outcome.status == answer.status)
            && (outcome.Disconnected? <==> InTime(c, i) && answer.Breaks?)
            && (outcome.TimedOut? <==> !InTime(c, i))
            && (IsGood(outcome) <==> ServesWell(c, i))
            && WaitAt(c, i) == SecondsFor(c, i)
            && FailureOf(Tried(i, outcome)) == ErrorsFor(c, i)
            && (!IsGood(outcome) ==> ClientStatus(Failed(ErrorOf(outcome))) == if InTime(c, i) then 502 else 504)
  {
  }

  lemma {:induction false} TraceMeans(c: Context, trace: seq<Visit>)
    requires Honest(c, trace) && |c.answers| == |c.upstreams|
    ensures Failures(trace) == ErrorsBy(c, trace)
    ensures Waited(c, trace) == SecondsBy(c, trace)
    ensures ReportsMade(c, trace) == ReportsBy(c, trace)
  {
    hide OutcomeAt, WaitAt, FailureOf, ErrorsFor, SecondsFor, ServesWell, IsGood;
    if trace != [] {
      var last := trace[|trace| - 1];
      TraceMeans(c, trace[..|trace| - 1]);
      if last.Tried? {
        OutcomeMeans(c, last.index);
        assert last == Tried(last.index, OutcomeAt(c, last.index));
      } else {
        NoFailure(last);
      }
    }
  }

  lemma NoFailure(visit: Visit)
    ensures !visit.Tried? ==> FailureOf(visit) == multiset{}
  {
  }

  lemma FinalHonest(c: Context, w: World)
    requires |c.answers| == |c.upstreams|
    ensures Honest(c, FinalLoop(c, w).trace)
    ensures forall k | 0 <= k < |FinalLoop(c, w).trace| :: FinalLoop(c, w).trace[k].index < |c.upstreams|
  {
    hide FinalLoop, OutcomeAt, Attempts, LastFailure, Failures;
    FinalKeeps(c, w);
  }

  // --- The theorems ---

  /** What an attempt brings back is what its position sent in time, with the status that it sent. */
  lemma OutcomesAreAnswers(c: Context, w: World, k: nat)
    requires |c.answers| == |c.upstreams| && k < |FinalLoop(c, w).trace| && FinalLoop(c, w).trace[k].Tried?
    ensures var visit := FinalLoop(c, w).trace[k];
            && visit.index == (c.start + k) % |c.upstreams|
            && var answer := c.answers[visit.index];
               visit.outcome == if answer.Silent? || answer.after > c.requestTimeout then TimedOut
                                else if answer.Responds? then Answered(answer.status)
                                else Disconnected
  {
    hide FinalLoop, OutcomeAt, Attempts, LastFailure, Failures;
    FinalKeeps(c, w);
    OutcomeMeans(c, FinalLoop(c, w).trace[k].index);
  }

  /** An attempt ends the loop exactly when its upstream answers in time and not with a status from 500 to 599; the
      client then receives that very status. */
  lemma EndsWithGoodAnswer(c: Context, w: World, k: nat)
    requires |c.answers| == |c.upstreams| && k < |FinalLoop(c, w).trace| && FinalLoop(c, w).trace[k].Tried?
    ensures var trace, reply := FinalLoop(c, w).trace, Finished(FinalLoop(c, w)).1;
            var i := trace[k].index;
            && i < |c.answers|
            && (ServesWell(c, i) ==> k == |trace| - 1 && reply == Served(c.answers[i].status))
            && (!ServesWell(c, i) && k == |trace| - 1 ==> reply.Failed?)
  {
    hide FinalLoop, OutcomeAt, Attempts, LastFailure, Failures, IsGood, ServesWell;
    FinalKeeps(c, w);
    OutcomeMeans(c, FinalLoop(c, w).trace[k].index);
  }

  lemma GoodStatus(c: Context, i: nat)
    requires i < |c.answers|
    ensures ServesWell(c, i) ==>
              InTime(c, i) && c.answers[i].Responds? && (c.answers[i].status < 500 || c.answers[i].status >= 600)
  {
  }

  predicate IsLastTried(trace: seq<Visit>, k: nat) {
    k < |trace| && trace[k].Tried? && forall l | k < l < |trace| :: !trace[l].Tried?
  }

  lemma {:induction false} LastTriedFailed(trace: seq<Visit>, k: nat)
    requires IsLastTried(trace, k) && !IsGood(trace[k].outcome)
    ensures LastFailure(trace) == Some(ErrorOf(trace[k].outcome))
    decreases |trace|
  {
    if k < |trace| - 1 {
      LastTriedFailed(trace[..|trace| - 1], k);
    }
  }

  lemma {:induction false} NoneFailed(trace: seq<Visit>)
    ensures (forall k | 0 <= k < |trace| :: !trace[k].Tried?) ==> LastFailure(trace) == None
  {
    if trace != [] {
      NoneFailed(trace[..|trace| - 1]);
    }
  }

  /** A request that is served receives the status that the last visited upstream sent in time, never one from 500
      to 599. */
  lemma ServedIsAnswer(c: Context, w: World)
    requires |c.answers| == |c.upstreams| && Finished(FinalLoop(c, w)).1.Served?
    ensures var s, status := FinalLoop(c, w), Finished(FinalLoop(c, w)).1.status;
            && (status < 500 || status >= 600)
            && s.trace != [] && s.trace[|s.trace| - 1].Tried?
            && var i := s.trace[|s.trace| - 1].index;
               i < |c.answers| && InTime(c, i) && c.answers[i].Responds? && c.answers[i].status == status
  {
    hide FinalLoop, OutcomeAt, Attempts, Failures, LastFailure, ServesWell, InTime, StatusLabel;
    FinalKeeps(c, w);
    FinalHonest(c, w);
    var trace := FinalLoop(c, w).trace;
    OutcomeMeans(c, trace[|trace| - 1].index);
    GoodStatus(c, trace[|trace| - 1].index);
  }

  /** A request that is not receives 504 if its last attempt was not answered in time, and 502 if that failed otherwise
      or there was none. */
  lemma FailedIsAnswer(c: Context, w: World)
    requires |c.answers| == |c.upstreams| && Finished(FinalLoop(c, w)).1.Failed?
    ensures var trace, status := FinalLoop(c, w).trace, ClientStatus(Finished(FinalLoop(c, w)).1);
            && ((forall k | 0 <= k < |trace| :: !trace[k].Tried?) ==> status == 502)
            && (forall k | 0 <= k < |trace| && IsLastTried(trace, k) ::
                  trace[k].index < |c.answers| && status == if InTime(c, trace[k].index) then 502 else 504)
  {
    hide FinalLoop, OutcomeAt, Attempts, Failures, LastFailure, ErrorOf, InTime, StatusLabel;
    var s, trace := FinalLoop(c, w), FinalLoop(c, w).trace;
    FinalKeeps(c, w);
    FinalHonest(c, w);
    NoneFailed(trace);
    forall k | 0 <= k < |trace| && IsLastTried(trace, k)
      ensures ClientStatus(Finished(s).1) == if InTime(c, trace[k].index) then 502 else 504
    {
      OutcomeMeans(c, trace[k].index);
      LastTriedFailed(trace, k);
    }
  }

  /** The request counter hears one status, the one that the client receives. */
  lemma RequestCounted(c: Context, w: World)
    requires |c.answers| == |c.upstreams|
    ensures var (after, reply) := Finished(FinalLoop(c, w));
            after.requests
            == w.requests
               + multiset{match reply case Served(status) => status
                                      case Failed(UpstreamTimeout) => 504
                                      case Failed(UpstreamFailure) => 502}
  {
    hide FinalLoop, Attempts, Failures, LastFailure;
    FinalKeeps(c, w);
  }

  /** The error counter grows by a timeout for each attempt that the upstream did not answer in time, a connection
      error for each broken connection, and a 5xx for each status from 500 to 599; and the wait is the sum of the
      times that the answers took, cut off at the timeout. */
  lemma CountersAreAnswers(c: Context, w: World)
    requires |c.answers| == |c.upstreams|
    ensures var s := FinalLoop(c, w);
            && Finished(s).0.errors == w.errors + ErrorsBy(c, s.trace)
            && s.world.waited == w.waited + SecondsBy(c, s.trace)
  {
    hide FinalLoop, OutcomeAt, Attempts, LastFailure, Failures, Waited, ReportsMade, ErrorsBy, SecondsBy;
    FinalKeeps(c, w);
    FinalHonest(c, w);
    TraceMeans(c, FinalLoop(c, w).trace);
  }

  /** The health tracker hears of each attempt in order: a success exactly for an answer in time whose status is not
      from 500 to 599. */
  lemma ReportsAreAnswers(c: Context, w: World)
    requires |c.answers| == |c.upstreams|
    ensures exists events :: && FinalLoop(c, w).world.health == Heard(c.rules, w.health, events)
                             && ReportsHeard(events) == ReportsBy(c, FinalLoop(c, w).trace)
  {
    hide FinalLoop, Heard, ReportsHeard, ReportsMade, ReportsBy;
    HealthHearsAttempts(c, w);
    FinalHonest(c, w);
    TraceMeans(c, FinalLoop(c, w).trace);
    var events :| Explains(c, w, events, FinalLoop(c, w).world, FinalLoop(c, w).trace);
    assert ReportsHeard(events) == ReportsBy(c, FinalLoop(c, w).trace);
  }
}
