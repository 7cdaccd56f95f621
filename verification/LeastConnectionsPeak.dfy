/** The runs that reach the peak of least connections, and the theorems about it. */
module LeastConnectionsPeak {
  import opened Prelude
  import opened LeastConnections
  import opened LeastConnectionsLoad
  import Division

  // --- Runs that reach it ---

  /** How many requests are open, undecided, away and lost. */
  datatype Tally = Tally(open: nat, undecided: nat, away: nat, lost: nat)

  function TallyOf(requests: seq<Request>): Tally {
    Tally(Count(requests, Open()), Count(requests, Undecided()), Count(requests, Away()), Count(requests, Dropped()))
  }

  function TallyOne(r: Request): Tally {
    Tally(One(Open(), r), One(Undecided(), r), One(Away(), r), One(Dropped(), r))
  }

  ghost predicate Fits(tally: Tally, lim: Limits) {
    && tally.open <= lim.requests && tally.undecided <= lim.undecided
    && tally.away <= lim.away && tally.lost <= lim.lost
  }

  lemma TallyAppend(requests: seq<Request>, r: Request)
    ensures var a, b, one := TallyOf(requests), TallyOf(requests + [r]), TallyOne(r);
            b == Tally(a.open + one.open, a.undecided + one.undecided, a.away + one.away, a.lost + one.lost)
  {
    hide Count;
    CountAppend(requests, r, Open());
    CountAppend(requests, r, Undecided());
    CountAppend(requests, r, Away());
    CountAppend(requests, r, Dropped());
  }

  lemma TallyPut(requests: seq<Request>, j: nat, r: Request)
    requires j < |requests|
    ensures var a, b, old_, new_ := TallyOf(requests), TallyOf(requests[j := r]), TallyOne(requests[j]), TallyOne(r);
            && b.open + old_.open == a.open + new_.open
            && b.undecided + old_.undecided == a.undecided + new_.undecided
            && b.away + old_.away == a.away + new_.away
            && b.lost + old_.lost == a.lost + new_.lost
  {
    hide Count, One, Open, Undecided, Away, Dropped;
    CountPut(requests, j, r, Open());
    CountPut(requests, j, r, Undecided());
    CountPut(requests, j, r, Away());
    CountPut(requests, j, r, Dropped());
  }

  /** `turns` requests on each upstream, and one more on the first `more`. */
  function Filled(n: nat, turns: nat, more: nat): Counts {
    seq(n, i => if i < more then turns + 1 else turns)
  }

  lemma FilledLeast(n: nat, turns: nat, more: nat)
    requires more < n
    ensures Least(Filled(n, turns, more), n) == more
  {
    var active := Filled(n, turns, more);
    assert active[more] == turns;
  }

  lemma {:induction false} FilledSum(n: nat, turns: nat, more: nat)
    requires more <= n
    ensures InFlight(Filled(n, turns, more)) == turns * n + more
  {
    if n > 0 {
      assert Filled(n, turns, more)[..n - 1] == Filled(n - 1, turns, Min(more, n - 1));
      FilledSum(n - 1, turns, Min(more, n - 1));
      assert turns * n == turns * (n - 1) + turns;
    }
  }

  /** A request that chooses and starts at once. */
  lemma Place(n: nat, lim: Limits, slow: bool, t: Traffic) returns (next: Traffic)
    requires 0 < n == |t.active| && Reachable(n, lim, slow, t)
    requires Fits(TallyOf(t.requests), lim)
    requires TallyOf(t.requests).open < lim.requests && TallyOf(t.requests).undecided < lim.undecided
    ensures Reachable(n, lim, slow, next)
    ensures var i := Least(t.active, n);
            next == Traffic(Started(t.active, i), t.requests + [Request(i, 0, Flying)])
  {
    hide Reachable, Count;
    var i, k := Least(t.active, n), |t.requests|;
    TallyAppend(t.requests, Request(i, 0, Chosen));
    TallyAppend(t.requests, Request(i, 0, Flying));
    GoOn(n, lim, slow, t, Choose);
    var chosen := After(t, Choose);
    HomePosition(n, Request(i, 0, Flying));
    assert chosen.requests[k := Request(i, 0, Flying)] == t.requests + [Request(i, 0, Flying)];
    HomePosition(n, Request(i, 0, Chosen));
    next := After(chosen, Start(k));
    GoOn(n, lim, slow, chosen, Start(k));
  }

  /** The same, and the request is dropped on the way if `drop` says so. */
  lemma PlaceOrDrop(n: nat, lim: Limits, slow: bool, t: Traffic, drop: bool) returns (next: Traffic)
    requires 0 < n == |t.active| && Reachable(n, lim, slow, t)
    requires var tally := TallyOf(t.requests);
             && Fits(tally, lim) && tally.open < lim.requests && tally.undecided < lim.undecided
             && (drop ==> tally.lost < lim.lost)
    ensures Reachable(n, lim, slow, next)
    ensures var i := Least(t.active, n);
            next == Traffic(Started(t.active, i), t.requests + [Request(i, 0, if drop then Lost else Flying)])
    ensures TallyOf(next.requests)
         == (var a := TallyOf(t.requests); if drop then a.(lost := a.lost + 1) else a.(open := a.open + 1))
  {
    hide Reachable, Count;
    var i, k := Least(t.active, n), |t.requests|;
    next := Place(n, lim, slow, t);
    TallyAppend(t.requests, Request(i, 0, Flying));
    TallyAppend(t.requests, Request(i, 0, Lost));
    if drop {
      var placed := next;
      assert placed.requests[k := Request(i, 0, Lost)] == t.requests + [Request(i, 0, Lost)];
      GoOn(n, lim, slow, placed, Drop(k));
      next := After(placed, Drop(k));
    }
  }

  /** Placing one request at a time fills the pool in turns; the first `lost` of them are dropped. */
  lemma {:induction false} Fill(n: nat, lim: Limits, slow: bool, turns: nat, more: nat, lost: nat)
      returns (t: Traffic)
    requires more < n && 0 < lim.undecided && 0 < lim.requests && lost <= lim.lost
    requires turns * n + more <= lim.requests + lost
    ensures Reachable(n, lim, slow, t) && t.active == Filled(n, turns, more)
    ensures var total := turns * n + more;
            TallyOf(t.requests) == Tally(Max(total - lost, 0), 0, 0, Min(total, lost))
    ensures forall j | 0 <= j < |t.requests| ::
              && t.requests[j].start < n && t.requests[j].offset == 0
              && (t.requests[j].phase.Flying? || t.requests[j].phase.Lost?)
    decreases turns, more
  {
    hide Reachable, TallyOf;
    if turns == 0 && more == 0 {
      t := Idle(n);
      IdleReachable(n, lim, slow);
      assert Filled(n, 0, 0) == t.active;
      EmptyTally();
    } else {
      var (turns', more') := if more > 0 then (turns, more - 1) else (turns - 1, n - 1);
      var total := turns * n + more;
      assert total == turns' * n + more' + 1 by { assert more == 0 ==> turns * n == (turns - 1) * n + n; }
      var before := Fill(n, lim, slow, turns', more', lost);
      FilledLeast(n, turns', more');
      t := PlaceOrDrop(n, lim, slow, before, total <= lost);
      assert Started(before.active, more') == Filled(n, turns, more);
    }
  }

  lemma EmptyTally()
    ensures TallyOf([]) == Tally(0, 0, 0, 0)
  {
  }

  /** `k` requests at position `i`, chosen but not started, or under way. */
  function Same(i: nat, k: nat, phase: Phase): seq<Request> {
    seq(k, _ => Request(i, 0, phase))
  }

  lemma {:induction false} TallySame(requests: seq<Request>, i: nat, k: nat, phase: Phase)
    requires phase.Chosen? || phase.Flying?
    ensures TallyOf(requests + Same(i, k, phase))
         == (var a := TallyOf(requests);
             Tally(a.open + k, a.undecided + (if phase.Chosen? then k else 0), a.away, a.lost))
  {
    hide Count;
    if k == 0 {
      assert requests + Same(i, 0, phase) == requests;
    } else {
      TallySame(requests, i, k - 1, phase);
      TallyAppend(requests + Same(i, k - 1, phase), Request(i, 0, phase));
      assert requests + Same(i, k, phase) == requests + Same(i, k - 1, phase) + [Request(i, 0, phase)];
    }
  }

  lemma {:induction false} ChooseTogether(n: nat, lim: Limits, slow: bool, t: Traffic, k: nat)
    requires 0 < n == |t.active| && Reachable(n, lim, slow, t)
    requires var tally := TallyOf(t.requests);
             Fits(tally, lim) && tally.open + k <= lim.requests && tally.undecided + k <= lim.undecided
    ensures Reachable(n, lim, slow, t.(requests := t.requests + Same(Least(t.active, n), k, Chosen)))
  {
    hide Reachable, Count;
    var i := Least(t.active, n);
    if k == 0 {
      assert t.requests + Same(i, 0, Chosen) == t.requests;
    } else {
      ChooseTogether(n, lim, slow, t, k - 1);
      var chosen := t.(requests := t.requests + Same(i, k - 1, Chosen));
      TallySame(t.requests, i, k, Chosen);
      assert chosen.requests + [Request(i, 0, Chosen)] == t.requests + Same(i, k, Chosen);
      GoOn(n, lim, slow, chosen, Choose);
    }
  }

  lemma {:induction false} StartTogether(n: nat, lim: Limits, slow: bool, t: Traffic, i: nat, k: nat, k': nat)
    requires 0 < n == |t.active| && i < n && k' <= k
    requires Reachable(n, lim, slow, t.(requests := t.requests + Same(i, k, Chosen)))
    requires var tally := TallyOf(t.requests);
             Fits(tally, lim) && tally.open + k <= lim.requests && tally.undecided + k <= lim.undecided
    ensures Reachable(n, lim, slow,
                      Traffic(t.active[i := t.active[i] + k'],
                              t.requests + Same(i, k - k', Chosen) + Same(i, k', Flying)))
    decreases k'
  {
    hide Reachable, Count;
    if k' == 0 {
      assert t.active[i := t.active[i] + 0] == t.active;
      assert t.requests + Same(i, k, Chosen) + Same(i, 0, Flying) == t.requests + Same(i, k, Chosen);
    } else {
      StartTogether(n, lim, slow, t, i, k, k' - 1);
      var before := Traffic(t.active[i := t.active[i] + (k' - 1)],
                            t.requests + Same(i, k - k' + 1, Chosen) + Same(i, k' - 1, Flying));
      var j := |t.requests| + k - k';
      var after := Traffic(t.active[i := t.active[i] + k'], t.requests + Same(i, k - k', Chosen) + Same(i, k', Flying));
      assert before.requests[j] == Request(i, 0, Chosen);
      assert before.requests[j := Request(i, 0, Flying)] == after.requests;
      HomePosition(n, Request(i, 0, Chosen));
      TallySame(t.requests, i, k - k', Chosen);
      TallySame(t.requests + Same(i, k - k', Chosen), i, k', Flying);
      assert Started(before.active, i) == after.active;
      assert After(before, Start(j)) == after;
      GoOn(n, lim, slow, before, Start(j));
    }
  }

  /** `k` requests choose the least count together, and then start. */
  lemma Burst(n: nat, lim: Limits, slow: bool, t: Traffic, k: nat) returns (next: Traffic)
    requires 0 < n == |t.active| && Reachable(n, lim, slow, t)
    requires var tally := TallyOf(t.requests);
             Fits(tally, lim) && tally.open + k <= lim.requests && tally.undecided + k <= lim.undecided
    ensures Reachable(n, lim, slow, next)
    ensures var i := Least(t.active, n);
            next == Traffic(t.active[i := t.active[i] + k], t.requests + Same(i, k, Flying))
    ensures TallyOf(next.requests) == (var a := TallyOf(t.requests); a.(open := a.open + k))
  {
    hide Reachable, Count;
    var i := Least(t.active, n);
    ChooseTogether(n, lim, slow, t, k);
    StartTogether(n, lim, slow, t, i, k, k);
    next := Traffic(t.active[i := t.active[i] + k], t.requests + Same(i, k, Flying));
    assert t.requests + Same(i, 0, Chosen) + Same(i, k, Flying) == next.requests;
    TallySame(t.requests, i, k, Flying);
  }

  function FlyingAt(n: nat, i: nat): Request -> bool
    requires 0 < n
  {
    (r: Request) => r.phase.Flying? && Position(n, r) == i
  }

  function FlyingOne(): Request -> bool { (r: Request) => r.phase.Flying? }

  /** A flight away from `i` breaks off and moves on to `i`. */
  lemma MoveTo(n: nat, lim: Limits, t: Traffic, j: nat, i: nat) returns (next: Traffic, r: Request)
    requires 0 < n == |t.active| && i < n && Reachable(n, lim, false, t) && j < |t.requests|
    requires var old_ := t.requests[j]; old_.phase.Flying? && old_.offset == 0 && old_.start < n && old_.start != i
    requires Fits(TallyOf(t.requests), lim) && TallyOf(t.requests).away < lim.away
    ensures Reachable(n, lim, false, next)
    ensures r.phase.Flying? && r.start == t.requests[j].start && 0 < r.offset < n && Position(n, r) == i
    ensures next.requests == t.requests[j := r] && |next.active| == n && next.active[i] == t.active[i] + 1
    ensures TallyOf(next.requests) == (var a := TallyOf(t.requests); a.(away := a.away + 1))
  {
    hide Reachable, Count;
    var start := t.requests[j].start;
    var offset := if start < i then i - start else i + n - start;
    r := Request(start, offset, Flying);
    if start < i {
      Division.QuotientAndRemainder(i, n, 0, i);
    } else {
      Division.QuotientAndRemainder(i + n, n, 1, i);
    }
    HomePosition(n, t.requests[j]);
    TallyPut(t.requests, j, Request(start, 0, Between));
    TallyPut(t.requests, j, r);
    GoOn(n, lim, false, t, Fail(j));
    var between := After(t, Fail(j));
    assert between.requests[j := r] == t.requests[j := r];
    GoOn(n, lim, false, between, Retry(j, offset));
    next := After(between, Retry(j, offset));
  }

  /** `open` requests fly and the others are done with; those away from home are at `i`, where `height` fly and all
      `lost` ones were lost. */
  ghost predicate Heap(t: Traffic, n: nat, lim: Limits, i: nat, height: nat, lost: nat, open: nat)
    requires 0 < n
  {
    && Reachable(n, lim, false, t)
    && i < n == |t.active| && t.active[i] == height + lost
    && (forall j | 0 <= j < |t.requests| ::
          var r := t.requests[j];
          && (r.phase.Flying? || r.phase.Over? || r.phase.Lost?)
          && r.start < n && (r.phase.Flying? && r.offset > 0 ==> Position(n, r) == i))
    && (var tally := TallyOf(t.requests);
        && tally.open == open <= lim.requests && tally.undecided == 0
        && tally.away <= lim.away && tally.lost == lost <= lim.lost)
    && Count(t.requests, FlyingAt(n, i)) == height
  }

  lemma HeapOpen(t: Traffic, n: nat, lim: Limits, i: nat, height: nat, lost: nat)
    requires 0 < n && Heap(t, n, lim, i, height, lost, lim.requests)
    ensures Count(t.requests, FlyingOne()) == lim.requests
  {
    hide Count, Reachable;
    CountLeq(t.requests, FlyingOne(), Nobody(), Open(), Nobody(), Nobody());
    CountLeq(t.requests, Open(), Nobody(), FlyingOne(), Nobody(), Nobody());
    CountNobody(t.requests);
  }

  /** One more flight moves onto the heap. */
  lemma Pile(n: nat, lim: Limits, t: Traffic, i: nat, height: nat) returns (next: Traffic)
    requires 0 < n && Heap(t, n, lim, i, height, 0, lim.requests) && height < lim.requests
    requires TallyOf(t.requests).away < lim.away
    ensures Heap(next, n, lim, i, height + 1, 0, lim.requests)
    ensures TallyOf(next.requests).away == TallyOf(t.requests).away + 1
  {
    hide Count, Reachable;
    HeapOpen(t, n, lim, i, height, 0);
    var j := CountWitness(t.requests, FlyingAt(n, i), FlyingOne());
    var r;
    if t.requests[j].start == i {
      HomePosition(n, t.requests[j]);
    }
    next, r := MoveTo(n, lim, t, j, i);
    CountPut(t.requests, j, r, FlyingAt(n, i));
  }

  lemma {:induction false} PileUp(n: nat, lim: Limits, t: Traffic, i: nat, height: nat, more: nat)
      returns (next: Traffic)
    requires 0 < n && Heap(t, n, lim, i, height, 0, lim.requests) && height + more <= lim.requests
    requires TallyOf(t.requests).away == 0 && more <= lim.away
    ensures Heap(next, n, lim, i, height + more, 0, lim.requests) && TallyOf(next.requests).away == more
    decreases more
  {
    hide Heap, TallyOf;
    if more == 0 {
      next := t;
    } else {
      next := PileUp(n, lim, t, i, height, more - 1);
      next := Pile(n, lim, next, i, height + more - 1);
    }
  }

  /** The next request joins the heap: the balancer places it there, or it moves on. */
  lemma Refill(n: nat, lim: Limits, t: Traffic, i: nat, height: nat, lost: nat) returns (next: Traffic)
    requires 0 < n && 0 < lim.requests && 0 < lim.undecided
    requires Heap(t, n, lim, i, height, lost, lim.requests - 1) && TallyOf(t.requests).away < lim.away
    ensures Heap(next, n, lim, i, height + 1, lost, lim.requests)
  {
    hide Count, Reachable;
    var x, k := Least(t.active, n), |t.requests|;
    var home := Request(x, 0, Flying);
    next := Place(n, lim, false, t);
    TallyAppend(t.requests, home);
    CountAppend(t.requests, home, FlyingAt(n, i));
    HomePosition(n, home);
    if x != i {
      var placed, r := next, home;
      next, r := MoveTo(n, lim, placed, k, i);
      CountPut(placed.requests, k, r, FlyingAt(n, i));
    }
  }

  /** A flight of the heap to lose: one that moved there, if any did. */
  lemma Victim(n: nat, lim: Limits, t: Traffic, i: nat, height: nat, lost: nat) returns (j: nat)
    requires 0 < n && Heap(t, n, lim, i, height, lost, lim.requests) && 0 < height
    ensures j < |t.requests| && t.requests[j].phase.Flying? && Position(n, t.requests[j]) == i
    ensures TallyOf(t.requests).away > 0 ==> t.requests[j].offset > 0
  {
    hide Count, Reachable;
    CountNobody(t.requests);
    if TallyOf(t.requests).away > 0 {
      j := CountWitness(t.requests, Nobody(), Away());
    } else {
      j := CountWitness(t.requests, Nobody(), FlyingAt(n, i));
    }
  }

  /** A flight of the heap is lost, and the next request takes its place. */
  lemma LoseOne(n: nat, lim: Limits, t: Traffic, i: nat, height: nat, lost: nat) returns (next: Traffic)
    requires 0 < n && Heap(t, n, lim, i, height, lost, lim.requests) && 0 < height && lost < lim.lost
    requires 0 < lim.away && 0 < lim.undecided
    ensures Heap(next, n, lim, i, height, lost + 1, lim.requests)
  {
    hide Count, Reachable;
    var v := Victim(n, lim, t, i, height, lost);
    var gone := t.requests[v].(phase := Lost);
    TallyPut(t.requests, v, gone);
    CountPut(t.requests, v, gone, FlyingAt(n, i));
    GoOn(n, lim, false, t, Drop(v));
    var dropped := After(t, Drop(v));
    assert dropped.requests == t.requests[v := gone] && dropped.active == t.active;
    next := Refill(n, lim, dropped, i, height - 1, lost + 1);
  }

  lemma {:induction false} LoseAll(n: nat, lim: Limits, t: Traffic, i: nat, height: nat, lost: nat)
      returns (next: Traffic)
    requires 0 < n && Heap(t, n, lim, i, height, 0, lim.requests) && 0 < height && lost <= lim.lost
    requires 0 < lim.away && 0 < lim.undecided
    ensures Heap(next, n, lim, i, height, lost, lim.requests)
  {
    hide Heap;
    if lost == 0 {
      next := t;
    } else {
      next := LoseAll(n, lim, t, i, height, lost - 1);
      next := LoseOne(n, lim, next, i, height, lost - 1);
    }
  }

  /** Choices that overlap fall on one upstream once the others are spread evenly. */
  lemma BurstPeak(n: nat, lim: Limits, lost: nat) returns (t: Traffic, i: nat)
    requires 0 < n && 0 < lim.requests && 0 < lim.undecided && lost <= lim.lost
    ensures i < n == |t.active| && Reachable(n, lim, false, t)
    ensures var together := Min(lim.requests, lim.undecided);
            t.active[i] == (lim.requests - together + lost) / n + together
    ensures TallyOf(t.requests) == Tally(lim.requests, 0, 0, lost)
    ensures forall j | 0 <= j < |t.requests| ::
              && t.requests[j].start < n && t.requests[j].offset == 0
              && (t.requests[j].phase.Flying? || t.requests[j].phase.Lost?)
  {
    hide Reachable, Count;
    var together := Min(lim.requests, lim.undecided);
    var total := lim.requests - together + lost;
    Division.Split(total, n);
    var filled := Fill(n, lim, false, total / n, total % n, lost);
    FilledLeast(n, total / n, total % n);
    i := total % n;
    t := Burst(n, lim, false, filled, together);
  }

  lemma BurstHeap(n: nat, lim: Limits, t: Traffic, i: nat, height: nat)
    requires 0 < n && i < n == |t.active| && t.active[i] == height && Reachable(n, lim, false, t)
    requires TallyOf(t.requests) == Tally(lim.requests, 0, 0, 0)
    requires forall j | 0 <= j < |t.requests| ::
               && t.requests[j].start < n && t.requests[j].offset == 0
               && (t.requests[j].phase.Flying? || t.requests[j].phase.Lost?)
    ensures Heap(t, n, lim, i, height, 0, lim.requests)
  {
    hide Reachable, Count;
    ReachableSound(n, lim, false, t);
    assert CountedAt(t, n, i);
    CountLeq(t.requests, HeldAt(n, i), Nobody(), FlyingAt(n, i), Dropped(), Nobody());
    CountLeq(t.requests, FlyingAt(n, i), Nobody(), HeldAt(n, i), Nobody(), Nobody());
    CountNobody(t.requests);
  }

  lemma PeakReached(n: nat, lim: Limits) returns (t: Traffic, i: nat)
    requires 0 < n && 0 < lim.undecided
    ensures Reachable(n, lim, false, t) && i < n == |t.active| && t.active[i] == Peak(n, lim)
  {
    hide Reachable, TallyOf, Heap;
    if lim.requests == 0 {
      t, i := Idle(n), 0;
      IdleReachable(n, lim, false);
    } else if lim.away == 0 || n == 1 {
      t, i := BurstPeak(n, lim, lim.lost);
    } else {
      t, i := BurstPeak(n, lim, 0);
      var height := t.active[i];
      BurstHeap(n, lim, t, i, height);
      var more := Min(lim.requests - height, lim.away);
      HeapFits(t, n, lim, i, height);
      t := PileUp(n, lim, t, i, height, more);
      t := LoseAll(n, lim, t, i, height + more, lim.lost);
      HeapCount(t, n, lim, i, height + more, lim.lost);
    }
  }

  lemma HeapFits(t: Traffic, n: nat, lim: Limits, i: nat, height: nat)
    requires 0 < n && Heap(t, n, lim, i, height, 0, lim.requests)
    ensures height <= lim.requests
  {
    hide Count, Reachable;
    HeapOpen(t, n, lim, i, height, 0);
    CountLeq(t.requests, FlyingAt(n, i), Nobody(), FlyingOne(), Nobody(), Nobody());
    CountNobody(t.requests);
  }

  lemma HeapCount(t: Traffic, n: nat, lim: Limits, i: nat, height: nat, lost: nat)
    requires 0 < n && Heap(t, n, lim, i, height, lost, lim.requests)
    ensures Reachable(n, lim, false, t) && i < n == |t.active| && t.active[i] == height + lost
  {
  }

  // --- The theorems ---

  /** Every run within the limits keeps every count at or below `bound`; unless `slow`, only the runs whose choices
      nobody interrupts. */
  ghost predicate StaysBelow(n: nat, lim: Limits, slow: bool, bound: nat) {
    forall steps | IsRun(n, lim, steps) && (slow || Prompt(steps)) ::
      forall i | 0 <= i < |End(n, lim, steps).active| :: End(n, lim, steps).active[i] <= bound
  }

  lemma StaysBelowPeak(n: nat, lim: Limits, slow: bool, bound: nat)
    requires 0 < n && 0 < lim.undecided && Patient(lim, slow)
    ensures StaysBelow(n, lim, slow, bound) <==> Peak(n, lim) <= bound
  {
    hide IsRun, End, Peak, Sound;
    if Peak(n, lim) <= bound {
      forall steps | IsRun(n, lim, steps) && (slow || Prompt(steps))
        ensures forall i | 0 <= i < |End(n, lim, steps).active| :: End(n, lim, steps).active[i] <= bound
      {
        var t := End(n, lim, steps);
        RunSound(n, lim, slow, steps);
        SoundSize(t, n, lim);
        forall i | 0 <= i < n
          ensures t.active[i] <= bound
        {
          SoundBelowPeak(t, n, lim, i);
        }
      }
    } else {
      var t, i := PeakReached(n, lim);
      var steps :| IsRun(n, lim, steps) && Prompt(steps) && End(n, lim, steps) == t;
      assert End(n, lim, steps).active[i] > bound;
    }
  }

  lemma SoundSize(t: Traffic, n: nat, lim: Limits)
    requires 0 < n && Sound(t, n, lim)
    ensures |t.active| == n
  {
  }

  /** The exact peak of least connections, with retries, skips and drops, when no choice is interrupted. */
  lemma StaysBelowIff(n: nat, lim: Limits, bound: nat)
    requires 0 < n && 0 < lim.undecided
    ensures StaysBelow(n, lim, false, bound) <==> Peak(n, lim) <= bound
  {
    StaysBelowPeak(n, lim, false, bound);
  }

  /** One choice at a time and nobody moves on: the peak is the same when choices are interrupted, and without losses
      it is the fair share, rounded up. */
  lemma PeakIsFair(n: nat, requests: nat, lost: nat, bound: nat)
    requires 0 < n
    ensures StaysBelow(n, Limits(requests, 1, 0, lost), true, bound) <==> Peak(n, Limits(requests, 1, 0, lost)) <= bound
    ensures StaysBelow(n, Limits(requests, 1, 0, 0), true, Share(requests, n))
  {
    hide StaysBelow;
    StaysBelowPeak(n, Limits(requests, 1, 0, lost), true, bound);
    StaysBelowPeak(n, Limits(requests, 1, 0, 0), true, Share(requests, n));
    if requests > 0 {
      ShareByOne(n, requests);
    }
  }

  lemma ShareByOne(n: nat, requests: nat)
    requires 0 < n && 0 < requests
    ensures Share(requests, n) == (requests - 1) / n + 1
  {
    Division.AddMultiple(requests - 1, 1, n);
    assert requests + n - 1 == 1 * n + (requests - 1);
  }

  lemma SharesAll(n: nat, limit: nat)
    requires 0 < n
    ensures limit <= Share(limit, n) <==> n == 1 || limit <= 1
  {
    if n > 1 && limit > 1 {
      ShareIsCeiling(limit, n);
      if limit <= Share(limit, n) {
        hide Share;
        Division.Monotone(limit, Share(limit, n), n);
        Product(limit, n);
      }
    } else if limit == 1 {
      Division.QuotientAndRemainder(n, n, 1, 0);
    } else if limit == 0 {
      Division.QuotientAndRemainder(n - 1, n, 0, n - 1);
    }
  }

  lemma Product(a: nat, b: nat)
    requires a > 1 && b > 1
    ensures a + b <= a * b
  {
    Division.OneMore(1, a, b);
    Division.OneMore(1, b, a);
  }

  /** Two overlapping choices cost nothing exactly when the other requests fill the pool in whole turns but for one. */
  lemma TwoTogether(n: nat, requests: nat)
    requires 1 < n && 1 < requests
    ensures (requests - 2) / n + 2 <= Share(requests, n) <==> (requests - 1) % n == 0
  {
    var q, r := (requests - 2) / n, (requests - 2) % n;
    Division.Split(requests - 2, n);
    ShareByOne(n, requests);
    if r == n - 1 {
      Division.OneMore(q, q + 1, n);
      assert requests - 1 == (q + 1) * n + 0;
      Division.QuotientAndRemainder(requests - 1, n, q + 1, 0);
    } else {
      Division.QuotientAndRemainder(requests - 1, n, q, r + 1);
    }
  }

  /** Three or more cost at least one request too many. */
  lemma MoreTogether(n: nat, requests: nat, together: nat)
    requires 1 < n && 2 < together <= requests
    ensures Share(requests, n) < (requests - together) / n + together
  {
    ShareByOne(n, requests);
    HalfGrows(n, requests - together, together - 1);
  }

  lemma {:induction false} HalfGrows(n: nat, total: nat, more: nat)
    requires 1 < n && 1 < more
    ensures (total + more) / n < total / n + more
  {
    if more > 2 {
      HalfGrows(n, total, more - 1);
      NextQuotient(total + more - 1, n);
    } else {
      Division.Split(total, n);
      Division.Split(total + 2, n);
      if total / n + 2 <= (total + 2) / n {
        Division.OneMore(total / n, total / n + 1, n);
        Division.OneMore(total / n + 1, total / n + 2, n);
        Division.Monotone(total / n + 2, (total + 2) / n, n);
      }
    }
  }

  /** When least connections keeps the fair share, in runs without losses: for a single upstream or a single request;
      and otherwise, where nobody moves on, for one choice at a time, or for two overlapping ones if the requests
      fill the pool in whole turns but for one. */
  lemma FairShareIff(n: nat, requests: nat, undecided: nat, away: nat)
    requires 0 < n && 0 < undecided
    ensures StaysBelow(n, Limits(requests, undecided, away, 0), false, Share(requests, n))
       <==> || n == 1 || requests <= 1
            || (away == 0 && (undecided == 1 || (undecided == 2 && (requests - 1) % n == 0)))
  {
    hide StaysBelow, Share;
    var lim := Limits(requests, undecided, away, 0);
    StaysBelowPeak(n, lim, false, Share(requests, n));
    SharesAll(n, requests);
    if n > 1 && requests > 1 {
      ShareByOne(n, requests);
      TwoTogether(n, requests);
      var together := Min(requests, undecided);
      if together > 2 {
        MoreTogether(n, requests, together);
      }
      QuotientGrows(requests - together, together - 1, n);
    } else if requests == 1 {
      Division.QuotientAndRemainder(0, n, 0, 0);
    }
  }
}
