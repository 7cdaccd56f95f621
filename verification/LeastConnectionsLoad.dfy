/** The load that least connections leads to (src/balancer.rs and its callers in src/proxy.rs), over all runs in which
    requests choose an upstream, start on it, break off, move on to a later position without asking the balancer,
    finish, or are dropped.

    A choice reads the counts one by one and remembers the smallest; `Choose` is a choice whose reads nobody
    interrupts. Every start and every end of an attempt is one step. */
module LeastConnectionsLoad {
  import opened Prelude
  import opened LeastConnections
  import Division

  /** Where a request stands: it has read the counts before `next`, or chosen, or is on its way; `Lost` is dropped
      while its attempt was under way. */
  datatype Phase = Reading(next: nat, best: nat, least: nat) | Chosen | Flying | Between | Over | Lost

  /** A request, the position it chose, and how far it has moved on from there. */
  datatype Request = Request(start: nat, offset: nat, phase: Phase)

  datatype Traffic = Traffic(active: Counts, requests: seq<Request>)

  datatype Step =
    | Choose | Begin | Load(j: nat) | Start(j: nat) | Skip(j: nat) | Fail(j: nat) | Retry(j: nat, offset: nat)
    | Finish(j: nat) | GiveUp(j: nat) | Drop(j: nat)

  function Idle(n: nat): Traffic {
    Traffic(seq(n, i => 0), [])
  }

  function Position(n: nat, r: Request): nat
    requires 0 < n
  {
    (r.start + r.offset) % n
  }

  predicate At(t: Traffic, j: nat, phase: Phase) {
    j < |t.requests| && t.requests[j].phase == phase
  }

  predicate Enabled(t: Traffic, step: Step) {
    && t.active != []
    && match step
       case Choose => true
       case Begin => true
       case Load(j) => j < |t.requests| && t.requests[j].phase.Reading? && t.requests[j].phase.next < |t.active|
       case Start(j) => At(t, j, Chosen)
       case Skip(j) => At(t, j, Chosen)
       case Fail(j) => At(t, j, Flying)
       case Retry(j, offset) => At(t, j, Between) && t.requests[j].offset < offset < |t.active|
       case Finish(j) => At(t, j, Flying)
       case GiveUp(j) => At(t, j, Between)
       case Drop(j) => At(t, j, Flying)
  }

  /** A choice that has read the counts before `next` and found `least` at `best`. */
  function Choosing(n: nat, next: nat, best: nat, least: nat): Request {
    if next < n then Request(0, 0, Reading(next, best, least)) else Request(best, 0, Chosen)
  }

  function Put(t: Traffic, j: nat, r: Request): Traffic
    requires j < |t.requests|
  {
    t.(requests := t.requests[j := r])
  }

  function After(t: Traffic, step: Step): Traffic
    requires Enabled(t, step)
  {
    var n := |t.active|;
    match step
    case Choose => t.(requests := t.requests + [Request(Least(t.active, n), 0, Chosen)])
    case Begin => t.(requests := t.requests + [Choosing(n, 1, 0, t.active[0])])
    case Load(j) =>
      var phase := t.requests[j].phase;
      var value := t.active[phase.next];
      Put(t, j, if value < phase.least then Choosing(n, phase.next + 1, phase.next, value)
                else Choosing(n, phase.next + 1, phase.best, phase.least))
    case Start(j) =>
      var r := t.requests[j];
      Put(t, j, r.(phase := Flying)).(active := Started(t.active, Position(n, r)))
    case Skip(j) => Put(t, j, t.requests[j].(phase := Between))
    case Fail(j) =>
      var r := t.requests[j];
      Put(t, j, r.(phase := Between)).(active := Done(t.active, Position(n, r)))
    case Retry(j, offset) =>
      var r := t.requests[j].(offset := offset, phase := Flying);
      Put(t, j, r).(active := Started(t.active, Position(n, r)))
    case Finish(j) =>
      var r := t.requests[j];
      Put(t, j, r.(phase := Over)).(active := Done(t.active, Position(n, r)))
    case GiveUp(j) => Put(t, j, t.requests[j].(phase := Over))
    case Drop(j) => Put(t, j, t.requests[j].(phase := Lost))
  }

  // --- Counting requests ---

  function Count(requests: seq<Request>, p: Request -> bool): nat {
    if requests == [] then 0
    else Count(requests[..|requests| - 1], p) + if p(requests[|requests| - 1]) then 1 else 0
  }

  function One(p: Request -> bool, r: Request): nat {
    if p(r) then 1 else 0
  }

  lemma CountAppend(requests: seq<Request>, r: Request, p: Request -> bool)
    ensures Count(requests + [r], p) == Count(requests, p) + One(p, r)
  {
    assert (requests + [r])[..|requests|] == requests;
  }

  lemma {:induction false} CountPut(requests: seq<Request>, j: nat, r: Request, p: Request -> bool)
    requires j < |requests|
    ensures Count(requests[j := r], p) + One(p, requests[j]) == Count(requests, p) + One(p, r)
    ensures Count(requests, p) >= One(p, requests[j])
  {
    var last := |requests| - 1;
    if j == last {
      assert requests[j := r][..last] == requests[..last];
    } else {
      CountPut(requests[..last], j, r, p);
      assert requests[j := r][..last] == requests[..last][j := r];
    }
  }

  /** Comparing counts request by request. */
  lemma {:induction false} CountLeq(requests: seq<Request>, a: Request -> bool, b: Request -> bool,
                                    p: Request -> bool, q: Request -> bool, r: Request -> bool)
    requires forall j | 0 <= j < |requests| ::
               One(a, requests[j]) + One(b, requests[j])
                 <= One(p, requests[j]) + One(q, requests[j]) + One(r, requests[j])
    ensures Count(requests, a) + Count(requests, b)
         <= Count(requests, p) + Count(requests, q) + Count(requests, r)
  {
    if requests != [] {
      CountLeq(requests[..|requests| - 1], a, b, p, q, r);
    }
  }

  /** More requests are counted by `q` than by `p`: one of them makes the difference. */
  lemma {:induction false} CountWitness(requests: seq<Request>, p: Request -> bool, q: Request -> bool)
      returns (j: nat)
    requires Count(requests, p) < Count(requests, q)
    ensures j < |requests| && q(requests[j]) && !p(requests[j])
  {
    var last := |requests| - 1;
    if q(requests[last]) && !p(requests[last]) {
      j := last;
    } else {
      j := CountWitness(requests[..last], p, q);
    }
  }

  function Nobody(): Request -> bool { (r: Request) => false }

  lemma {:induction false} CountNobody(requests: seq<Request>)
    ensures Count(requests, Nobody()) == 0
  {
    if requests != [] {
      CountNobody(requests[..|requests| - 1]);
    }
  }

  /** Past the start of its choice and not over. */
  function Open(): Request -> bool {
    (r: Request) => r.phase.Reading? || r.phase.Chosen? || r.phase.Flying? || r.phase.Between?
  }

  /** Its choice has begun, and it has not started. */
  function Undecided(): Request -> bool { (r: Request) => r.phase.Reading? || r.phase.Chosen? }

  /** An attempt under way on a position that the balancer did not choose for it. */
  function Away(): Request -> bool { (r: Request) => r.phase.Flying? && r.offset > 0 }

  function Dropped(): Request -> bool { (r: Request) => r.phase.Lost? }

  /** Counted by some upstream: in flight, or dropped in flight. */
  function Held(): Request -> bool { (r: Request) => r.phase.Flying? || r.phase.Lost? }

  function HeldAt(n: nat, i: nat): Request -> bool
    requires 0 < n
  {
    (r: Request) => (r.phase.Flying? || r.phase.Lost?) && Position(n, r) == i
  }

  function LostAt(n: nat, i: nat): Request -> bool
    requires 0 < n
  {
    (r: Request) => r.phase.Lost? && Position(n, r) == i
  }

  /** On the position it chose, or about to be. */
  function HomeAt(i: nat): Request -> bool {
    (r: Request) => (r.phase.Chosen? || r.phase.Flying?) && r.offset == 0 && r.start == i
  }

  function ChosenAt(i: nat): Request -> bool { (r: Request) => r.phase.Chosen? && r.start == i }

  // --- Runs ---

  /** At most `requests` open at once, `undecided` of them between the start of their choice and their own start,
      `away` under way on positions they did not choose, and `lost` dropped in flight over the whole run. */
  datatype Limits = Limits(requests: nat, undecided: nat, away: nat, lost: nat)

  ghost predicate Within(t: Traffic, lim: Limits) {
    && Count(t.requests, Open()) <= lim.requests
    && Count(t.requests, Undecided()) <= lim.undecided
    && Count(t.requests, Away()) <= lim.away
    && Count(t.requests, Dropped()) <= lim.lost
  }

  /** A run from an idle pool of `n` that stays within the limits. */
  ghost predicate IsRun(n: nat, lim: Limits, steps: seq<Step>)
    decreases |steps|, 0
  {
    steps == [] ||
    (var rest, last := steps[..|steps| - 1], steps[|steps| - 1];
     && IsRun(n, lim, rest)
     && Enabled(End(n, lim, rest), last)
     && Within(After(End(n, lim, rest), last), lim))
  }

  ghost function End(n: nat, lim: Limits, steps: seq<Step>): Traffic
    requires IsRun(n, lim, steps)
    decreases |steps|, 1
  {
    if steps == [] then Idle(n) else After(End(n, lim, steps[..|steps| - 1]), steps[|steps| - 1])
  }

  /** No choice is interrupted. */
  predicate Prompt(steps: seq<Step>) {
    forall k | 0 <= k < |steps| :: !steps[k].Begin?
  }

  /** A run ends in `t`; unless `slow`, its choices are not interrupted. */
  ghost predicate Reachable(n: nat, lim: Limits, slow: bool, t: Traffic) {
    exists steps :: IsRun(n, lim, steps) && (slow || Prompt(steps)) && End(n, lim, steps) == t
  }

  lemma IdleReachable(n: nat, lim: Limits, slow: bool)
    ensures Reachable(n, lim, slow, Idle(n))
  {
    assert IsRun(n, lim, []);
    assert End(n, lim, []) == Idle(n);
  }

  lemma GoOn(n: nat, lim: Limits, slow: bool, t: Traffic, step: Step)
    requires Reachable(n, lim, slow, t) && Enabled(t, step) && Within(After(t, step), lim) && (step.Begin? ==> slow)
    ensures Reachable(n, lim, slow, After(t, step))
  {
    hide Enabled, After, Within;
    var steps :| IsRun(n, lim, steps) && (slow || Prompt(steps)) && End(n, lim, steps) == t;
    var longer := steps + [step];
    assert longer[..|longer| - 1] == steps;
    assert End(n, lim, longer) == After(t, step);
  }

  // --- What every run keeps ---

  /** The sum of the counts from `next` on. */
  function Unread(active: Counts, next: nat): nat
    decreases |active| - next
  {
    if next >= |active| then 0 else active[next] + Unread(active, next + 1)
  }

  lemma {:induction false} UnreadFalls(active: Counts, fewer: Counts, next: nat)
    requires |fewer| == |active| && forall i | 0 <= i < |active| :: fewer[i] <= active[i]
    ensures Unread(fewer, next) <= Unread(active, next)
    decreases |active| - next
  {
    if next < |active| {
      UnreadFalls(active, fewer, next + 1);
    }
  }

  lemma {:induction false} UnreadIsRest(active: Counts, next: nat)
    requires next <= |active|
    ensures InFlight(active[..next]) + Unread(active, next) == InFlight(active)
    decreases |active| - next
  {
    if next < |active| {
      UnreadIsRest(active, next + 1);
      assert active[..next + 1][..next] == active[..next];
    } else {
      assert active[..next] == active;
    }
  }

  /** Home flights and choices, and lost flights, that one upstream can gather. Lost flights fill up other upstreams
      too, unless requests that moved on are lost here. */
  function Top(n: nat, lim: Limits, lost: nat): nat
    requires 0 < n
  {
    var together := Min(lim.requests, lim.undecided);
    if lim.away == 0 then (lim.requests - together + lim.lost) / n + together
    else (lim.requests - together) / n + together + lost
  }

  /** What an unfinished choice has seen adds up to no more than the other requests can make. */
  ghost predicate ReadsWell(t: Traffic, lim: Limits, r: Request) {
    r.phase.Reading? ==>
      && lim.undecided == 1 && lim.away == 0
      && r.offset == r.start == 0
      && r.phase.best < r.phase.next < |t.active|
      && t.active[r.phase.best] <= r.phase.least
      && r.phase.least * r.phase.next + Unread(t.active, r.phase.next) + 1 <= lim.requests + lim.lost
  }

  ghost predicate Placed(n: nat, r: Request) {
    && r.start < n && r.offset < n
    && (r.phase.Chosen? || r.phase.Reading? ==> r.offset == 0)
    && (r.phase.Reading? ==> r.phase.best < n)
  }

  ghost predicate TopAt(t: Traffic, n: nat, lim: Limits, i: nat)
    requires 0 < n
  {
    Count(t.requests, HomeAt(i)) + Count(t.requests, LostAt(n, i)) <= Top(n, lim, Count(t.requests, Dropped()))
  }

  ghost predicate CountedAt(t: Traffic, n: nat, i: nat)
    requires 0 < n && i < |t.active|
  {
    t.active[i] == Count(t.requests, HeldAt(n, i))
  }

  // --- The counts ---

  ghost predicate Counted(t: Traffic, n: nat)
    requires 0 < n == |t.active|
  {
    && (forall i | 0 <= i < n :: CountedAt(t, n, i))
    && InFlight(t.active) == Count(t.requests, Held())
  }

  lemma StartCounts(t: Traffic, n: nat, j: nat, r: Request)
    requires 0 < n == |t.active| && j < |t.requests| && Counted(t, n)
    requires r.phase.Flying? && !Held()(t.requests[j])
    ensures Counted(Put(t, j, r).(active := Started(t.active, Position(n, r))), n)
  {
    hide Count, InFlight;
    var p := Position(n, r);
    var next := Put(t, j, r).(active := Started(t.active, p));
    InFlightUpdate(t.active, p, t.active[p] + 1);
    CountPut(t.requests, j, r, Held());
    forall i | 0 <= i < n
      ensures CountedAt(next, n, i)
    {
      assert CountedAt(t, n, i);
      CountPut(t.requests, j, r, HeldAt(n, i));
    }
  }

  /** No count of a flight under way is zero, so no end of an attempt underflows. */
  lemma FlightCounted(t: Traffic, n: nat, j: nat)
    requires 0 < n == |t.active| && j < |t.requests| && Counted(t, n) && t.requests[j].phase.Flying?
    ensures t.active[Position(n, t.requests[j])] > 0
  {
    hide Count, InFlight;
    var p := Position(n, t.requests[j]);
    assert CountedAt(t, n, p);
    CountPut(t.requests, j, t.requests[j], HeldAt(n, p));
  }

  lemma EndCounts(t: Traffic, n: nat, j: nat, r: Request)
    requires 0 < n == |t.active| && j < |t.requests| && Counted(t, n)
    requires t.requests[j].phase.Flying? && !Held()(r)
    ensures Counted(Put(t, j, r).(active := Done(t.active, Position(n, t.requests[j]))), n)
  {
    hide Count, InFlight;
    var p := Position(n, t.requests[j]);
    var next := Put(t, j, r).(active := Done(t.active, p));
    FlightCounted(t, n, j);
    InFlightUpdate(t.active, p, t.active[p] - 1);
    CountPut(t.requests, j, r, Held());
    forall i | 0 <= i < n
      ensures CountedAt(next, n, i)
    {
      assert CountedAt(t, n, i);
      CountPut(t.requests, j, r, HeldAt(n, i));
    }
  }

  lemma KeepCounts(t: Traffic, n: nat, j: nat, r: Request)
    requires 0 < n == |t.active| && j < |t.requests| && Counted(t, n)
    requires Held()(r) == Held()(t.requests[j]) && (Held()(r) ==> Position(n, r) == Position(n, t.requests[j]))
    ensures Counted(Put(t, j, r), n)
  {
    hide Count, InFlight;
    CountPut(t.requests, j, r, Held());
    forall i | 0 <= i < n
      ensures CountedAt(Put(t, j, r), n, i)
    {
      assert CountedAt(t, n, i);
      CountPut(t.requests, j, r, HeldAt(n, i));
    }
  }

  lemma AppendCounts(t: Traffic, n: nat, r: Request)
    requires 0 < n == |t.active| && Counted(t, n) && !Held()(r)
    ensures Counted(t.(requests := t.requests + [r]), n)
  {
    hide Count, InFlight;
    var next := t.(requests := t.requests + [r]);
    CountAppend(t.requests, r, Held());
    forall i | 0 <= i < n
      ensures CountedAt(next, n, i)
    {
      assert CountedAt(t, n, i);
      CountAppend(t.requests, r, HeldAt(n, i));
    }
  }

  lemma StepCounted(t: Traffic, n: nat, step: Step)
    requires 0 < n == |t.active| && Counted(t, n) && Enabled(t, step)
    ensures |After(t, step).active| == n && Counted(After(t, step), n)
  {
    hide Counted, Position;
    match step
    case Choose => AppendCounts(t, n, Request(Least(t.active, n), 0, Chosen));
    case Begin => AppendCounts(t, n, Choosing(n, 1, 0, t.active[0]));
    case Start(j) => SamePosition(n, t.requests[j]); StartCounts(t, n, j, t.requests[j].(phase := Flying));
    case Retry(j, offset) => StartCounts(t, n, j, t.requests[j].(offset := offset, phase := Flying));
    case Fail(j) => EndCounts(t, n, j, t.requests[j].(phase := Between));
    case Finish(j) => EndCounts(t, n, j, t.requests[j].(phase := Over));
    case Load(j) => KeepCounts(t, n, j, After(t, step).requests[j]);
    case Skip(j) => KeepCounts(t, n, j, t.requests[j].(phase := Between));
    case GiveUp(j) => KeepCounts(t, n, j, t.requests[j].(phase := Over));
    case Drop(j) => SamePosition(n, t.requests[j]); KeepCounts(t, n, j, t.requests[j].(phase := Lost));
  }

  /** A request's phase says nothing about its position. */
  lemma SamePosition(n: nat, r: Request)
    requires 0 < n
    ensures forall phase :: Position(n, r.(phase := phase)) == Position(n, r)
  {
  }

  // --- The tops ---

  /** A least count among `n` that add up to at most `total`. */
  lemma LeastIsLow(least: nat, n: nat, total: nat)
    requires 0 < n && least * n <= total
    ensures least <= total / n
  {
    Division.Split(total, n);
    if total / n < least {
      Division.OneMore(total / n, least, n);
    }
  }

  lemma NextQuotient(x: nat, n: nat)
    requires 0 < n
    ensures (x + 1) / n <= x / n + 1
  {
    Division.Split(x, n);
    Division.Split(x + 1, n);
    if x / n + 1 < (x + 1) / n {
      Division.OneMore(x / n, x / n + 1, n);
      Division.OneMore(x / n + 1, (x + 1) / n, n);
    }
  }

  /** Room for `more` requests raises a quotient by at most that many. */
  lemma {:induction false} QuotientGrows(total: nat, more: nat, n: nat)
    requires 0 < n
    ensures (total + more) / n <= total / n + more
  {
    if more > 0 {
      QuotientGrows(total, more - 1, n);
      NextQuotient(total + more - 1, n);
    }
  }

  lemma QuotientMonotone(fewer: nat, more: nat, n: nat)
    requires 0 < n && fewer <= more
    ensures fewer / n <= more / n
  {
    Division.Split(fewer, n);
    LeastIsLow(fewer / n, n, more);
  }

  /** A count `a` that is least among `n`, and `others` that have not started, leave room for one more. */
  lemma TopFits(n: nat, lim: Limits, a: nat, others: nat, lost: nat)
    requires 0 < n && a * n + others + 1 <= lim.requests + lost
    requires others + 1 <= lim.undecided && others + 1 <= lim.requests && lost <= lim.lost
    ensures a + others + 1 <= Top(n, lim, lost)
  {
    var together := Min(lim.requests, lim.undecided);
    var room := together - 1 - others;
    var alone := lim.requests - together;
    LeastIsLow(a, n, alone + lost + room);
    QuotientGrows(alone + lost, room, n);
    QuotientMonotone(alone + lost, alone + lim.lost, n);
    QuotientGrows(alone, lost, n);
  }

  lemma HomePosition(n: nat, r: Request)
    requires 0 < n && r.start < n && r.offset == 0
    ensures Position(n, r) == r.start
  {
    Division.QuotientAndRemainder(r.start, n, 0, r.start);
  }

  /** One more choice of `i` fits, when its count is at most `a`. */
  lemma NewChoice(t: Traffic, n: nat, lim: Limits, i: nat, a: nat, others: nat, lost: nat)
    requires 0 < n == |t.active| && i < n && CountedAt(t, n, i) && t.active[i] <= a
    requires forall j | 0 <= j < |t.requests| :: Placed(n, t.requests[j])
    requires Count(t.requests, ChosenAt(i)) <= others && a * n + others + 1 <= lim.requests + lost
    requires others + 1 <= lim.undecided && others + 1 <= lim.requests && lost <= lim.lost
    ensures Count(t.requests, HomeAt(i)) + Count(t.requests, LostAt(n, i)) + 1 <= Top(n, lim, lost)
  {
    hide Count, Top;
    TopFits(n, lim, a, others, lost);
    forall j | 0 <= j < |t.requests|
      ensures One(HomeAt(i), t.requests[j]) + One(LostAt(n, i), t.requests[j])
           <= One(HeldAt(n, i), t.requests[j]) + One(ChosenAt(i), t.requests[j]) + One(Nobody(), t.requests[j])
    {
      var r := t.requests[j];
      if r.offset == 0 && Placed(n, r) {
        HomePosition(n, r);
      }
    }
    CountLeq(t.requests, HomeAt(i), LostAt(n, i), HeldAt(n, i), ChosenAt(i), Nobody());
    CountNobody(t.requests);
  }

  lemma TopGrows(n: nat, lim: Limits, fewer: nat, more: nat)
    requires 0 < n && fewer <= more
    ensures Top(n, lim, fewer) + (if lim.away == 0 then 0 else more - fewer) == Top(n, lim, more)
  {
  }

  /** A step of one request keeps a top unless it brings that request home or loses it away from home. */
  lemma PutTop(t: Traffic, n: nat, lim: Limits, j: nat, r: Request, i: nat)
    requires 0 < n && j < |t.requests| && TopAt(t, n, lim, i)
    requires One(Dropped(), t.requests[j]) <= One(Dropped(), r)
    requires One(HomeAt(i), r) + One(LostAt(n, i), r)
          <= One(HomeAt(i), t.requests[j]) + One(LostAt(n, i), t.requests[j])
             + (if lim.away == 0 then 0 else One(Dropped(), r) - One(Dropped(), t.requests[j]))
    ensures TopAt(Put(t, j, r), n, lim, i)
  {
    hide Count, Top, One, HomeAt, LostAt, Dropped;
    CountPut(t.requests, j, r, HomeAt(i));
    CountPut(t.requests, j, r, LostAt(n, i));
    CountPut(t.requests, j, r, Dropped());
    TopGrows(n, lim, Count(t.requests, Dropped()), Count(t.requests[j := r], Dropped()));
  }

  lemma AppendTop(t: Traffic, n: nat, lim: Limits, r: Request, i: nat)
    requires 0 < n && TopAt(t, n, lim, i) && !r.phase.Lost?
    requires HomeAt(i)(r) ==>
               Count(t.requests, HomeAt(i)) + Count(t.requests, LostAt(n, i)) + 1
                 <= Top(n, lim, Count(t.requests, Dropped()))
    ensures TopAt(t.(requests := t.requests + [r]), n, lim, i)
  {
    hide Count, Top;
    CountAppend(t.requests, r, HomeAt(i));
    CountAppend(t.requests, r, LostAt(n, i));
    CountAppend(t.requests, r, Dropped());
  }

  lemma AwayNeedsRoom(t: Traffic, lim: Limits, j: nat)
    requires Within(t, lim) && j < |t.requests| && Away()(t.requests[j])
    ensures lim.away > 0
  {
    hide Count;
    CountPut(t.requests, j, t.requests[j], Away());
  }

  /** The counts are what the requests hold, and no upstream gathers more than the top. */
  ghost predicate Sound(t: Traffic, n: nat, lim: Limits)
    requires 0 < n
  {
    && |t.active| == n
    && (forall j | 0 <= j < |t.requests| :: Placed(n, t.requests[j]) && ReadsWell(t, lim, t.requests[j]))
    && Counted(t, n)
    && (forall i | 0 <= i < n :: TopAt(t, n, lim, i))
    && (lim.requests == 0 ==> t.requests == [])
    && Within(t, lim)
  }


  // --- Choices ---

  /** How much the counts can add up to when one more choice begins. */
  lemma RoomForOne(t: Traffic, n: nat, lim: Limits)
    requires 0 < n && Sound(t, n, lim) && Count(t.requests, Open()) < lim.requests
    ensures InFlight(t.active) + Count(t.requests, Undecided()) + 1 <= lim.requests + Count(t.requests, Dropped())
    ensures Count(t.requests, Undecided()) <= Count(t.requests, Open())
  {
    hide Count, CountedAt, TopAt, ReadsWell;
    CountLeq(t.requests, Held(), Undecided(), Open(), Dropped(), Nobody());
    CountLeq(t.requests, Undecided(), Nobody(), Open(), Nobody(), Nobody());
    CountNobody(t.requests);
  }

  lemma ChooseTop(t: Traffic, n: nat, lim: Limits, i: nat)
    requires 0 < n && Sound(t, n, lim) && i < n && Within(After(t, Choose), lim)
    ensures TopAt(After(t, Choose), n, lim, i)
  {
    hide Count, Top, ReadsWell, InFlight;
    var r := Request(Least(t.active, n), 0, Chosen);
    var others, lost := Count(t.requests, Undecided()), Count(t.requests, Dropped());
    CountAppend(t.requests, r, Open());
    CountAppend(t.requests, r, Undecided());
    RoomForOne(t, n, lim);
    if i == r.start {
      InFlightAtLeast(t.active, t.active[i]);
      CountLeq(t.requests, ChosenAt(i), Nobody(), Undecided(), Nobody(), Nobody());
      CountNobody(t.requests);
      assert CountedAt(t, n, i);
      NewChoice(t, n, lim, i, t.active[i], others, lost);
    }
    AppendTop(t, n, lim, r, i);
  }

  /** Two unfinished choices are one too many for a limit of one. */
  lemma TwoUndecided(requests: seq<Request>, j: nat, k: nat)
    requires j < |requests| && k < |requests| && j != k
    requires Undecided()(requests[j]) && Undecided()(requests[k])
    ensures Count(requests, Undecided()) >= 2
  {
    hide Count;
    var other := requests[j].(phase := Over);
    CountPut(requests, j, other, Undecided());
    CountPut(requests[j := other], k, requests[k], Undecided());
  }

  /** The least count that a choice has read once it has read the next one. */
  function LeastRead(t: Traffic, j: nat): nat
    requires Enabled(t, Load(j))
  {
    Min(t.requests[j].phase.least, t.active[t.requests[j].phase.next])
  }

  /** Reading on keeps the account of what was read. */
  ghost predicate ReadsOn(t: Traffic, n: nat, lim: Limits, j: nat)
    requires Enabled(t, Load(j))
  {
    var phase, r := t.requests[j].phase, After(t, Load(j)).requests[j];
    && lim.undecided == 1 && lim.away == 0 && lim.requests > 0 && r.offset == 0
    && (var best := if r.phase.Reading? then r.phase.best else r.start;
        best < |t.active| && t.active[best] <= LeastRead(t, j))
    && (r.phase.Reading? ==> r.phase.least == LeastRead(t, j) && r.phase.next == phase.next + 1)
    && (r.phase.Chosen? ==> phase.next + 1 == n)
    && LeastRead(t, j) * (phase.next + 1) + Unread(t.active, phase.next + 1) + 1 <= lim.requests + lim.lost
  }

  lemma LessThanProduct(least: nat, lower: nat, value: nat, next: nat, rest: nat, total: nat)
    requires lower <= least && lower <= value && least * next + (value + rest) + 1 <= total
    ensures lower * (next + 1) + rest + 1 <= total
  {
    Division.Monotone(lower, least, next);
    assert lower * (next + 1) == lower * next + lower;
  }

  lemma LoadReadsOn(t: Traffic, n: nat, lim: Limits, j: nat)
    requires 0 < n == |t.active| && Enabled(t, Load(j)) && ReadsWell(t, lim, t.requests[j]) && Within(t, lim)
    ensures ReadsOn(t, n, lim, j)
  {
    hide Count;
    var phase := t.requests[j].phase;
    CountPut(t.requests, j, t.requests[j], Open());
    LessThanProduct(phase.least, LeastRead(t, j), t.active[phase.next], phase.next, Unread(t.active, phase.next + 1),
                    lim.requests + lim.lost);
  }

  function ReadingOne(): Request -> bool { (r: Request) => r.phase.Reading? }

  lemma LoneReader(t: Traffic, lim: Limits, j: nat, i: nat)
    requires j < |t.requests| && t.requests[j].phase.Reading? && Within(t, lim) && lim.undecided == 1
    ensures Count(t.requests, ChosenAt(i)) == 0
  {
    hide Count;
    CountPut(t.requests, j, t.requests[j], ReadingOne());
    CountLeq(t.requests, ChosenAt(i), ReadingOne(), Undecided(), Nobody(), Nobody());
    CountNobody(t.requests);
  }

  lemma JoinTop(t: Traffic, n: nat, lim: Limits, j: nat, r: Request)
    requires 0 < n && j < |t.requests| && t.requests[j].phase.Reading? && r.phase.Chosen? && lim.away == 0
    requires Count(t.requests, HomeAt(r.start)) + Count(t.requests, LostAt(n, r.start)) + 1 <= Top(n, lim, lim.lost)
    ensures TopAt(Put(t, j, r), n, lim, r.start)
  {
    hide Count;
    var i := r.start;
    CountPut(t.requests, j, r, HomeAt(i));
    CountPut(t.requests, j, r, LostAt(n, i));
    CountPut(t.requests, j, r, Dropped());
  }

  lemma LastLoadTop(t: Traffic, n: nat, lim: Limits, j: nat, i: nat)
    requires 0 < n && Sound(t, n, lim) && i < n && Enabled(t, Load(j))
    requires After(t, Load(j)).requests[j].phase.Chosen? && ReadsOn(t, n, lim, j)
    ensures TopAt(After(t, Load(j)), n, lim, i)
  {
    hide Count, Top, ReadsWell, InFlight;
    var r := After(t, Load(j)).requests[j];
    if i == r.start {
      LoneReader(t, lim, j, i);
      assert CountedAt(t, n, i);
      NewChoice(t, n, lim, i, LeastRead(t, j), 0, lim.lost);
      JoinTop(t, n, lim, j, r);
    } else {
      PutTop(t, n, lim, j, r, i);
    }
  }


  // --- Every step ---

  lemma StepTop(t: Traffic, n: nat, lim: Limits, step: Step, i: nat)
    requires 0 < n && Sound(t, n, lim) && i < n && Enabled(t, step) && Within(After(t, step), lim)
    requires step.Begin? ==> lim.undecided == 1 && lim.away == 0
    ensures TopAt(After(t, step), n, lim, i)
  {
    hide Count, Top, InFlight, Unread, Within;
    match step
    case Choose => ChooseTop(t, n, lim, i);
    case Begin =>
      if n == 1 {
        assert After(t, Begin) == After(t, Choose);
        ChooseTop(t, n, lim, i);
      } else {
        AppendTop(t, n, lim, Choosing(n, 1, 0, t.active[0]), i);
      }
    case Load(j) =>
      LoadReadsOn(t, n, lim, j);
      if After(t, step).requests[j].phase.Chosen? {
        LastLoadTop(t, n, lim, j, i);
      } else {
        PutTop(t, n, lim, j, After(t, step).requests[j], i);
      }
    case Drop(j) =>
      SamePosition(n, t.requests[j]);
      if t.requests[j].offset == 0 {
        assert Placed(n, t.requests[j]);
        HomePosition(n, t.requests[j]);
      } else {
        AwayNeedsRoom(t, lim, j);
      }
      PutTop(t, n, lim, j, t.requests[j].(phase := Lost), i);
    case _ => OtherTop(t, n, lim, step, i);
  }

  /** Starting, breaking off, moving on and ending bring nobody home and lose nobody. */
  lemma OtherTop(t: Traffic, n: nat, lim: Limits, step: Step, i: nat)
    requires 0 < n == |t.active| && i < n && Enabled(t, step) && TopAt(t, n, lim, i)
    requires step.Start? || step.Skip? || step.Fail? || step.Retry? || step.Finish? || step.GiveUp?
    ensures TopAt(After(t, step), n, lim, i)
  {
    hide Count, Top, Position;
    PutTop(t, n, lim, step.j, After(t, step).requests[step.j], i);
  }

  /** While a choice is read one by one, nobody starts. */
  lemma NobodyStarts(t: Traffic, n: nat, lim: Limits, step: Step, k: nat)
    requires 0 < n && Sound(t, n, lim) && Enabled(t, step) && Within(After(t, step), lim)
    requires k < |t.requests| && t.requests[k].phase.Reading?
    ensures !step.Start? && !step.Retry? && !step.Choose? && !step.Begin?
    ensures |After(t, step).active| == n && forall i | 0 <= i < n :: After(t, step).active[i] <= t.active[i]
  {
    hide Count, TopAt, InFlight, Unread, CountedAt;
    assert ReadsWell(t, lim, t.requests[k]);
    match step
    case Start(j) => TwoUndecided(t.requests, j, k);
    case Retry(j, offset) => AwayNeedsRoom(After(t, step), lim, j);
    case Choose => TwoUndecided(After(t, step).requests, k, |t.requests|);
    case Begin => TwoUndecided(After(t, step).requests, k, |t.requests|);
    case Fail(j) => FlightCounted(t, n, j);
    case Finish(j) => FlightCounted(t, n, j);
    case _ =>
  }

  lemma ReadsFall(t: Traffic, next: Traffic, lim: Limits, r: Request)
    requires ReadsWell(t, lim, r)
    requires |next.active| == |t.active| && forall i | 0 <= i < |t.active| :: next.active[i] <= t.active[i]
    ensures ReadsWell(next, lim, r)
  {
    if r.phase.Reading? {
      UnreadFalls(t.active, next.active, r.phase.next);
    }
  }

  lemma BeginReadsWell(t: Traffic, n: nat, lim: Limits)
    requires 0 < n && Sound(t, n, lim) && Within(After(t, Begin), lim) && lim.undecided == 1 && lim.away == 0
    ensures ReadsWell(t, lim, Choosing(n, 1, 0, t.active[0]))
  {
    hide Count, TopAt, CountedAt;
    var r := Choosing(n, 1, 0, t.active[0]);
    CountAppend(t.requests, r, Open());
    RoomForOne(t, n, lim);
    UnreadIsRest(t.active, 0);
    assert InFlight(t.active[..0]) == 0;
    assert Unread(t.active, 0) == t.active[0] + Unread(t.active, 1);
  }

  /** Each request is where it may be, and each unfinished choice keeps its account. */
  lemma StepReads(t: Traffic, n: nat, lim: Limits, step: Step, k: nat)
    requires 0 < n && Sound(t, n, lim) && Enabled(t, step) && Within(After(t, step), lim)
    requires step.Begin? ==> lim.undecided == 1 && lim.away == 0
    requires k < |After(t, step).requests|
    ensures Placed(n, After(t, step).requests[k]) && ReadsWell(After(t, step), lim, After(t, step).requests[k])
  {
    hide Count, TopAt, InFlight, Unread, CountedAt, Within, Position, ReadsWell;
    var next := After(t, step);
    if k < |t.requests| && next.requests[k] == t.requests[k] {
      if t.requests[k].phase.Reading? {
        NobodyStarts(t, n, lim, step, k);
        ReadsFall(t, next, lim, t.requests[k]);
      } else {
        NotReading(next, lim, next.requests[k]);
      }
    } else if step.Begin? {
      BeginReadsWell(t, n, lim);
      ReadsFall(t, next, lim, next.requests[k]);
    } else if step.Load? {
      LoadReadsOn(t, n, lim, step.j);
      LoadKeepsAccount(t, n, lim, step.j);
    } else {
      NotReading(next, lim, next.requests[k]);
    }
  }

  lemma NotReading(t: Traffic, lim: Limits, r: Request)
    requires !r.phase.Reading?
    ensures ReadsWell(t, lim, r)
  {
  }

  lemma LoadKeepsAccount(t: Traffic, n: nat, lim: Limits, j: nat)
    requires 0 < n == |t.active| && Enabled(t, Load(j)) && ReadsOn(t, n, lim, j) && ReadsWell(t, lim, t.requests[j])
    requires Placed(n, t.requests[j])
    ensures var next := After(t, Load(j));
            ReadsWell(next, lim, next.requests[j]) && Placed(n, next.requests[j])
  {
  }

  lemma StepSound(t: Traffic, n: nat, lim: Limits, step: Step)
    requires 0 < n && Sound(t, n, lim) && Enabled(t, step) && Within(After(t, step), lim)
    requires step.Begin? ==> lim.undecided == 1 && lim.away == 0
    ensures Sound(After(t, step), n, lim)
  {
    hide Enabled, After, Counted, TopAt, Placed, ReadsWell;
    var next := After(t, step);
    StepCounted(t, n, step);
    forall i | 0 <= i < n
      ensures TopAt(next, n, lim, i)
    {
      StepTop(t, n, lim, step, i);
    }
    forall k | 0 <= k < |next.requests|
      ensures Placed(n, next.requests[k]) && ReadsWell(next, lim, next.requests[k])
    {
      StepReads(t, n, lim, step, k);
    }
    RoomNeeded(t, lim, step);
  }

  /** A step needs room for at least one request. */
  lemma RoomNeeded(t: Traffic, lim: Limits, step: Step)
    requires Enabled(t, step) && Within(After(t, step), lim) && (lim.requests == 0 ==> t.requests == [])
    ensures lim.requests > 0
  {
    hide Count;
    if t.requests == [] {
      var next := After(t, step);
      CountPut(next.requests, 0, next.requests[0], Open());
    }
  }

  lemma IdleSound(n: nat, lim: Limits)
    requires 0 < n
    ensures Sound(Idle(n), n, lim)
  {
    IdleSum(n);
  }

  lemma {:induction false} IdleSum(n: nat)
    ensures InFlight(Idle(n).active) == 0
  {
    if n > 0 {
      IdleSum(n - 1);
      assert Idle(n).active[..n - 1] == Idle(n - 1).active;
    }
  }

  /** Choices read one by one only where one is made at a time and nobody moves on. */
  predicate Patient(lim: Limits, slow: bool) {
    slow ==> lim.undecided == 1 && lim.away == 0
  }

  lemma {:induction false} RunSound(n: nat, lim: Limits, slow: bool, steps: seq<Step>)
    requires 0 < n && IsRun(n, lim, steps) && (slow || Prompt(steps)) && Patient(lim, slow)
    ensures Sound(End(n, lim, steps), n, lim)
  {
    hide Sound, Enabled, After, Within;
    if steps == [] {
      IdleSound(n, lim);
    } else {
      var rest := steps[..|steps| - 1];
      RunSound(n, lim, slow, rest);
      StepSound(End(n, lim, rest), n, lim, steps[|steps| - 1]);
    }
  }

  lemma ReachableSound(n: nat, lim: Limits, slow: bool, t: Traffic)
    requires 0 < n && Reachable(n, lim, slow, t) && Patient(lim, slow)
    ensures Sound(t, n, lim)
  {
    hide IsRun, End, Sound;
    var steps :| IsRun(n, lim, steps) && (slow || Prompt(steps)) && End(n, lim, steps) == t;
    RunSound(n, lim, slow, steps);
  }

  // --- The peak ---

  /** The highest count that the limits allow. Choices that overlap may all fall on an upstream that carries its share
      of the others; requests that move on may join them; and lost flights stay behind, on that upstream when requests
      can move there, and spread over the pool by the balancer when they cannot. */
  function Peak(n: nat, lim: Limits): nat
    requires 0 < n
  {
    var together := Min(lim.requests, lim.undecided);
    if lim.requests == 0 then 0
    else if lim.away == 0 then (lim.requests - together + lim.lost) / n + together
    else Min(lim.requests, (lim.requests - together) / n + together + lim.away) + lim.lost
  }

  lemma SoundBelowPeak(t: Traffic, n: nat, lim: Limits, i: nat)
    requires 0 < n && Sound(t, n, lim) && i < n
    ensures t.active[i] <= Peak(n, lim)
  {
    hide Count, ReadsWell, Placed, InFlight;
    var requests := t.requests;
    assert CountedAt(t, n, i) && TopAt(t, n, lim, i);
    forall j | 0 <= j < |requests|
      ensures One(HeldAt(n, i), requests[j]) + One(Nobody(), requests[j])
           <= One(HomeAt(i), requests[j]) + One(LostAt(n, i), requests[j]) + One(Away(), requests[j])
    {
      assert Placed(n, requests[j]);
      PlacedHome(n, requests[j]);
    }
    CountLeq(requests, HeldAt(n, i), Nobody(), HomeAt(i), LostAt(n, i), Away());
    CountLeq(requests, HeldAt(n, i), Nobody(), Open(), Dropped(), Nobody());
    CountNobody(requests);
    if requests == [] {
      CountEmpty(HeldAt(n, i));
    }
  }

  lemma PlacedHome(n: nat, r: Request)
    requires 0 < n && Placed(n, r)
    ensures r.offset == 0 ==> Position(n, r) == r.start
  {
    if r.offset == 0 {
      HomePosition(n, r);
    }
  }

  lemma CountEmpty(p: Request -> bool)
    ensures Count([], p) == 0
  {
  }
}
