/** Choices whose reads others interrupt: the run that overtops the peak of uninterrupted choices. */
module LeastConnectionsSlow {
  import opened Prelude
  import opened LeastConnections
  import opened LeastConnectionsLoad
  import opened LeastConnectionsPeak
  import Division

  /** What holds of every run, however its choices interleave. */
  ghost predicate Basic(t: Traffic, n: nat)
    requires 0 < n
  {
    |t.active| == n && Counted(t, n) && forall j | 0 <= j < |t.requests| :: Placed(n, t.requests[j])
  }

  lemma StepBasic(t: Traffic, n: nat, step: Step)
    requires 0 < n && Basic(t, n) && Enabled(t, step)
    ensures Basic(After(t, step), n)
  {
    hide Counted, Position;
    StepCounted(t, n, step);
  }

  lemma {:induction false} RunBasic(n: nat, lim: Limits, steps: seq<Step>)
    requires 0 < n && IsRun(n, lim, steps)
    ensures Basic(End(n, lim, steps), n)
  {
    hide Basic, Enabled, After, Within;
    if steps == [] {
      IdleBasic(n);
    } else {
      var rest := steps[..|steps| - 1];
      RunBasic(n, lim, rest);
      StepBasic(End(n, lim, rest), n, steps[|steps| - 1]);
    }
  }

  lemma IdleBasic(n: nat)
    requires 0 < n
    ensures Basic(Idle(n), n)
  {
    IdleSum(n);
  }

  lemma ReachableBasic(n: nat, lim: Limits, slow: bool, t: Traffic)
    requires 0 < n && Reachable(n, lim, slow, t)
    ensures Basic(t, n)
  {
    hide IsRun, End, Basic;
    var steps :| IsRun(n, lim, steps) && (slow || Prompt(steps)) && End(n, lim, steps) == t;
    RunBasic(n, lim, steps);
  }

  /** Requests that are still reading stay where they are. */
  ghost predicate KeepsReaders(t: Traffic, next: Traffic) {
    && |t.requests| <= |next.requests|
    && forall j | 0 <= j < |t.requests| && t.requests[j].phase.Reading? :: next.requests[j] == t.requests[j]
  }

  /** Nobody has moved on, and nothing was lost. */
  ghost predicate Simple(n: nat, lim: Limits, t: Traffic, active: Counts, open: nat, undecided: nat)
    requires 0 < n
  {
    && Reachable(n, lim, true, t) && t.active == active && |active| == n
    && TallyOf(t.requests) == Tally(open, undecided, 0, 0)
  }

  /** `k` more requests choose the least count. */
  lemma {:induction false} ChooseMore(n: nat, lim: Limits, t: Traffic, active: Counts, open: nat, undecided: nat,
                                      k: nat) returns (next: Traffic)
    requires 0 < n && Simple(n, lim, t, active, open, undecided)
    requires open + k <= lim.requests && undecided + k <= lim.undecided
    ensures Simple(n, lim, next, active, open + k, undecided + k) && KeepsReaders(t, next)
    ensures Count(next.requests, ChosenAt(Least(active, n))) == Count(t.requests, ChosenAt(Least(active, n))) + k
  {
    hide Reachable, Count;
    ChooseTogether(n, lim, true, t, k);
    var i := Least(active, n);
    next := t.(requests := t.requests + Same(i, k, Chosen));
    TallySame(t.requests, i, k, Chosen);
    CountSame(t.requests, i, k);
  }

  lemma {:induction false} CountSame(requests: seq<Request>, i: nat, k: nat)
    ensures Count(requests + Same(i, k, Chosen), ChosenAt(i)) == Count(requests, ChosenAt(i)) + k
  {
    hide Count;
    if k == 0 {
      assert requests + Same(i, 0, Chosen) == requests;
    } else {
      CountSame(requests, i, k - 1);
      CountAppend(requests + Same(i, k - 1, Chosen), Request(i, 0, Chosen), ChosenAt(i));
      assert requests + Same(i, k, Chosen) == requests + Same(i, k - 1, Chosen) + [Request(i, 0, Chosen)];
    }
  }

  /** `k` of the requests that chose `i` start. */
  lemma {:induction false} StartMore(n: nat, lim: Limits, t: Traffic, active: Counts, open: nat, undecided: nat,
                                     i: nat, k: nat) returns (next: Traffic)
    requires 0 < n && Simple(n, lim, t, active, open, undecided) && i < n
    requires open <= lim.requests && k <= undecided <= lim.undecided && k <= Count(t.requests, ChosenAt(i))
    ensures Simple(n, lim, next, active[i := active[i] + k], open, undecided - k) && KeepsReaders(t, next)
    ensures Count(next.requests, ChosenAt(i)) == Count(t.requests, ChosenAt(i)) - k
  {
    hide Reachable, Count;
    if k == 0 {
      next := t;
      assert active[i := active[i] + 0] == active;
    } else {
      var before := StartMore(n, lim, t, active, open, undecided, i, k - 1);
      CountNobody(before.requests);
      var j := CountWitness(before.requests, Nobody(), ChosenAt(i));
      ReachableBasic(n, lim, true, before);
      var r := before.requests[j];
      assert Placed(n, r);
      HomePosition(n, r);
      TallyPut(before.requests, j, r.(phase := Flying));
      CountPut(before.requests, j, r.(phase := Flying), ChosenAt(i));
      GoOn(n, lim, true, before, Start(j));
      next := After(before, Start(j));
      assert next.active == active[i := active[i] + k];
    }
  }

  /** `k` of the flights on `i` finish. */
  lemma {:induction false} FinishMore(n: nat, lim: Limits, t: Traffic, active: Counts, open: nat, undecided: nat,
                                      i: nat, k: nat) returns (next: Traffic)
    requires 0 < n && Simple(n, lim, t, active, open, undecided) && i < n && k <= active[i] && k <= open
    requires open <= lim.requests && undecided <= lim.undecided
    ensures Simple(n, lim, next, active[i := active[i] - k], open - k, undecided) && KeepsReaders(t, next)
    ensures forall p :: Count(next.requests, ChosenAt(p)) == Count(t.requests, ChosenAt(p))
  {
    hide Reachable, Count;
    if k == 0 {
      next := t;
      assert active[i := active[i] - 0] == active;
    } else {
      var before := FinishMore(n, lim, t, active, open, undecided, i, k - 1);
      ReachableBasic(n, lim, true, before);
      assert CountedAt(before, n, i);
      var j := CountWitness(before.requests, Dropped(), HeldAt(n, i));
      var r := before.requests[j];
      TallyPut(before.requests, j, r.(phase := Over));
      forall p
        ensures Count(before.requests[j := r.(phase := Over)], ChosenAt(p)) == Count(before.requests, ChosenAt(p))
      {
        CountPut(before.requests, j, r.(phase := Over), ChosenAt(p));
      }
      GoOn(n, lim, true, before, Finish(j));
      next := After(before, Finish(j));
      assert next.active == active[i := active[i] - k];
    }
  }

  /** One choice reads on, and finds nothing less than it has. */
  lemma ReadOn(n: nat, lim: Limits, t: Traffic, active: Counts, open: nat, undecided: nat, j: nat)
      returns (next: Traffic)
    requires 0 < n && Simple(n, lim, t, active, open, undecided) && Enabled(t, Load(j))
    requires open <= lim.requests && undecided <= lim.undecided
    requires active[t.requests[j].phase.next] >= t.requests[j].phase.least
    ensures Simple(n, lim, next, active, open, undecided)
    ensures var phase := t.requests[j].phase;
            next.requests == t.requests[j := Choosing(n, phase.next + 1, phase.best, phase.least)]
  {
    hide Reachable, Count;
    var phase := t.requests[j].phase;
    TallyPut(t.requests, j, Choosing(n, phase.next + 1, phase.best, phase.least));
    GoOn(n, lim, true, t, Load(j));
    next := After(t, Load(j));
  }

  const CROWD := Limits(14, 5, 0, 0)

  /** Request `k` has read the counts before `next` and remembers 4 at position 0. */
  ghost predicate Remembers(t: Traffic, k: nat, next: nat) {
    k < |t.requests| && t.requests[k] == Request(0, 0, Reading(next, 0, 4))
  }

  lemma LeastOfThree(a: nat, b: nat, c: nat)
    ensures Least([a, b, c], 3) == if a <= b && a <= c then 0 else if b <= c then 1 else 2
  {
    var active := [a, b, c];
    assert active[0] == a && active[1] == b && active[2] == c;
  }

  lemma StillRemembers(t: Traffic, next: Traffic, k: nat, read: nat)
    requires KeepsReaders(t, next) && Remembers(t, k, read)
    ensures Remembers(next, k, read)
  {
  }

  /** Five requests choose the first of three evenly loaded upstreams, and before they have all started there, a
      sixth reads its count. */
  lemma SlowBegins() returns (t: Traffic, k: nat)
    ensures Simple(3, CROWD, t, [8, 3, 2], 14, 1) && Remembers(t, k, 1)
  {
    hide Reachable, Count, KeepsReaders, TallyOf;
    LeastOfThree(3, 3, 3);
    t := Fill(3, CROWD, true, 3, 0, 0);
    assert t.active == [3, 3, 3];
    t := ChooseMore(3, CROWD, t, [3, 3, 3], 9, 0, 5);
    t := StartMore(3, CROWD, t, [3, 3, 3], 14, 5, 0, 1);
    assert [3, 3, 3][0 := 3 + 1] == [4, 3, 3];
    t := FinishMore(3, CROWD, t, [4, 3, 3], 14, 4, 2, 1);
    assert [4, 3, 3][2 := 3 - 1] == [4, 3, 2];
    var before := t;
    k := |t.requests|;
    t := BeginSlowly(before);
    var began := t;
    t := StartMore(3, CROWD, t, [4, 3, 2], 14, 5, 0, 4);
    assert [4, 3, 2][0 := 4 + 4] == [8, 3, 2];
    StillRemembers(began, t, k, 1);
  }

  lemma BeginSlowly(t: Traffic) returns (next: Traffic)
    requires Simple(3, CROWD, t, [4, 3, 2], 13, 4)
    ensures Simple(3, CROWD, next, [4, 3, 2], 14, 5) && Remembers(next, |t.requests|, 1)
    ensures Count(next.requests, ChosenAt(0)) == Count(t.requests, ChosenAt(0))
  {
    hide Reachable, Count;
    var r := Request(0, 0, Reading(1, 0, 4));
    TallyAppend(t.requests, r);
    CountAppend(t.requests, r, ChosenAt(0));
    GoOn(3, CROWD, true, t, Begin);
    next := After(t, Begin);
  }

  /** Its second read finds the second upstream as busy, for the moment. */
  lemma SlowGoesOn(t: Traffic, k: nat) returns (next: Traffic)
    requires Simple(3, CROWD, t, [8, 3, 2], 14, 1) && Remembers(t, k, 1)
    ensures Simple(3, CROWD, next, [8, 4, 1], 14, 1) && Remembers(next, k, 2)
  {
    hide Reachable, Count, KeepsReaders, TallyOf;
    LeastOfThree(8, 1, 1);
    next := FinishMore(3, CROWD, t, [8, 3, 2], 14, 1, 1, 2);
    assert [8, 3, 2][1 := 3 - 2] == [8, 1, 2];
    StillRemembers(t, next, k, 1);
    var t1 := next;
    next := FinishMore(3, CROWD, t1, [8, 1, 2], 12, 1, 2, 1);
    assert [8, 1, 2][2 := 2 - 1] == [8, 1, 1];
    StillRemembers(t1, next, k, 1);
    var t2 := next;
    next := ChooseMore(3, CROWD, t2, [8, 1, 1], 11, 1, 3);
    StillRemembers(t2, next, k, 1);
    var t3 := next;
    next := StartMore(3, CROWD, t3, [8, 1, 1], 14, 4, 1, 3);
    assert [8, 1, 1][1 := 1 + 3] == [8, 4, 1];
    StillRemembers(t3, next, k, 1);
    next := ReadOn(3, CROWD, next, [8, 4, 1], 14, 1, k);
  }

  /** Its third read finds the third one as busy, and it starts on the first. */
  lemma SlowEnds(t: Traffic, k: nat) returns (next: Traffic)
    requires Simple(3, CROWD, t, [8, 4, 1], 14, 1) && Remembers(t, k, 2)
    ensures Simple(3, CROWD, next, [9, 1, 4], 14, 0)
  {
    hide Reachable, Count, KeepsReaders, TallyOf;
    LeastOfThree(8, 1, 0);
    next := FinishMore(3, CROWD, t, [8, 4, 1], 14, 1, 1, 3);
    assert [8, 4, 1][1 := 4 - 3] == [8, 1, 1];
    StillRemembers(t, next, k, 2);
    var t1 := next;
    next := FinishMore(3, CROWD, t1, [8, 1, 1], 11, 1, 2, 1);
    assert [8, 1, 1][2 := 1 - 1] == [8, 1, 0];
    StillRemembers(t1, next, k, 2);
    var t2 := next;
    next := ChooseMore(3, CROWD, t2, [8, 1, 0], 10, 1, 4);
    StillRemembers(t2, next, k, 2);
    var t3 := next;
    next := StartMore(3, CROWD, t3, [8, 1, 0], 14, 5, 2, 4);
    assert [8, 1, 0][2 := 0 + 4] == [8, 1, 4];
    StillRemembers(t3, next, k, 2);
    var t4 := next;
    CountPut(t4.requests, k, Request(0, 0, Chosen), ChosenAt(0));
    next := ReadOn(3, CROWD, t4, [8, 1, 4], 14, 1, k);
    next := StartMore(3, CROWD, next, [8, 1, 4], 14, 1, 0, 1);
    assert [8, 1, 4][0 := 8 + 1] == [9, 1, 4];
  }

  /** A choice whose reads others interrupt can overtop the peak of uninterrupted ones: with three upstreams, 14
      requests and 5 overlapping choices an upstream can carry 9 requests instead of 8. */
  lemma SlowChoiceBreaksPeak()
    ensures Peak(3, CROWD) == 8 && StaysBelow(3, CROWD, false, 8) && !StaysBelow(3, CROWD, true, 8)
  {
    hide IsRun, End, Count;
    Division.QuotientAndRemainder(9, 3, 3, 0);
    assert Peak(3, CROWD) == 8;
    StaysBelowPeak(3, CROWD, false, 8);
    var t, k := SlowBegins();
    t := SlowGoesOn(t, k);
    t := SlowEnds(t, k);
    var steps :| IsRun(3, CROWD, steps) && End(3, CROWD, steps) == t;
    assert End(3, CROWD, steps).active[0] == 9;
  }
}
