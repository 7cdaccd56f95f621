/** The two counter-based balancers of src/balancer.rs, and the shares they deal out. */
module RoundRobin {
  import opened Prelude
  import Division

  class RoundRobin {
    var counter: nat

    constructor ()
      ensures counter == 0
    {
      counter := 0;
    }

    /** `fetch_add` on a machine word, then the remainder. */
    method NextIndex(poolSize: nat) returns (index: nat)
      requires 0 < poolSize && counter < WORD
      modifies this
      ensures index == Pick(Identity(poolSize), old(counter), 0) && index < poolSize
      ensures counter == (old(counter) + 1) % WORD
    {
      var current := counter;
      counter := (counter + 1) % WORD;
      index := current % poolSize;
    }
  }

  class WeightedRoundRobin {
    var counter: nat
    var schedule: seq<nat>

    constructor (weights: seq<U32>)
      ensures counter == 0 && schedule == Expand(weights)
    {
      counter, schedule := 0, [];
      new;
      var i := 0;
      while i < |weights|
        invariant 0 <= i <= |weights| && counter == 0
        invariant schedule == Expand(weights[..i])
      {
        var n: nat := 0;
        while n < weights[i]
          invariant 0 <= n <= weights[i] && counter == 0
          invariant schedule == Expand(weights[..i]) + Repeat(i, n)
        {
          schedule := schedule + [i];
          n := n + 1;
        }
        assert weights[..i + 1][..i] == weights[..i];
        i := i + 1;
      }
      assert weights[..|weights|] == weights;
    }

    /** Panics on an empty schedule: some weight must be positive. */
    method NextIndex() returns (index: nat)
      requires schedule != [] && counter < WORD
      modifies `counter
      ensures index == Pick(schedule, old(counter), 0)
      ensures counter == (old(counter) + 1) % WORD
    {
      var current := counter;
      counter := (counter + 1) % WORD;
      index := schedule[current % |schedule|];
    }
  }

  // --- Schedules ---

  function Repeat(i: nat, n: nat): seq<nat> {
    if n == 0 then [] else Repeat(i, n - 1) + [i]
  }

  /** Upstream 0 as often as its weight says, then upstream 1, and so on. */
  function Expand(weights: seq<U32>): seq<nat> {
    if weights == [] then []
    else
      var last := |weights| - 1;
      Expand(weights[..last]) + Repeat(last, weights[last])
  }

  function Identity(n: nat): seq<nat> {
    seq(n, i => i)
  }

  function Total(weights: seq<U32>): nat {
    if weights == [] then 0 else Total(weights[..|weights| - 1]) + weights[|weights| - 1]
  }

  function Occurrences(schedule: seq<nat>, i: nat): nat {
    if schedule == [] then 0
    else Occurrences(schedule[..|schedule| - 1], i) + if schedule[|schedule| - 1] == i then 1 else 0
  }

  lemma {:induction false} OccurrencesConcat(a: seq<nat>, b: seq<nat>, i: nat)
    ensures Occurrences(a + b, i) == Occurrences(a, i) + Occurrences(b, i)
  {
    if b == [] {
      assert a + b == a;
    } else {
      OccurrencesConcat(a, b[..|b| - 1], i);
      assert (a + b)[..|a + b| - 1] == a + b[..|b| - 1];
    }
  }

  lemma {:induction false} OccurrencesRepeat(j: nat, n: nat, i: nat)
    ensures |Repeat(j, n)| == n && Occurrences(Repeat(j, n), i) == if i == j then n else 0
  {
    if n > 0 {
      OccurrencesRepeat(j, n - 1, i);
      assert Repeat(j, n)[..n - 1] == Repeat(j, n - 1);
    }
  }

  /** The schedule holds each upstream exactly as often as its weight. */
  lemma {:induction false} ExpandShares(weights: seq<U32>, i: nat)
    ensures |Expand(weights)| == Total(weights)
    ensures Occurrences(Expand(weights), i) == if i < |weights| then weights[i] else 0
  {
    if weights != [] {
      var last := |weights| - 1;
      ExpandShares(weights[..last], i);
      OccurrencesRepeat(last, weights[last], i);
      OccurrencesConcat(Expand(weights[..last]), Repeat(last, weights[last]), i);
    }
  }

  // --- Picks ---

  function At(schedule: seq<nat>, counter: nat): nat
    requires schedule != []
  {
    schedule[counter % |schedule|]
  }

  /** The `j`-th pick after the counter stood at `start`. */
  function Pick(schedule: seq<nat>, start: nat, j: nat): nat
    requires schedule != []
  {
    At(schedule, (start + j) % WORD)
  }

  /** How many of `k` consecutive picks choose upstream `i`. */
  function Picks(schedule: seq<nat>, start: nat, k: nat, i: nat): nat
    requires schedule != []
  {
    if k == 0 then 0 else Picks(schedule, start, k - 1, i) + if Pick(schedule, start, k - 1) == i then 1 else 0
  }

  /** The counter's wrap goes unnoticed: it lies outside the picks, or the word is whole schedules long. */
  predicate Unwrapped(schedule: seq<nat>, start: nat, k: nat)
    requires schedule != []
  {
    start + k <= WORD || WORD % |schedule| == 0
  }

  /** Picks from a counter that never wraps. */
  function Cycle(schedule: seq<nat>, start: nat, k: nat, i: nat): nat
    requires schedule != []
  {
    if k == 0 then 0
    else Cycle(schedule, start, k - 1, i) + if At(schedule, start + k - 1) == i then 1 else 0
  }

  lemma ModOfMod(x: nat, n: nat)
    requires 0 < n && WORD % n == 0
    ensures x % WORD % n == x % n
  {
    var q, m := x / WORD, WORD / n;
    assert x == (q * m) * n + x % WORD by {
      assert x == q * (m * n) + x % WORD;
    }
    Division.AddMultiple(x % WORD, q * m, n);
  }

  lemma AtWrapped(schedule: seq<nat>, x: nat)
    requires schedule != [] && (x < WORD || WORD % |schedule| == 0)
    ensures At(schedule, x % WORD) == At(schedule, x)
  {
    if WORD % |schedule| == 0 {
      ModOfMod(x, |schedule|);
    }
  }

  lemma {:induction false} PicksAreCycle(schedule: seq<nat>, start: nat, k: nat, i: nat)
    requires schedule != [] && Unwrapped(schedule, start, k)
    ensures Picks(schedule, start, k, i) == Cycle(schedule, start, k, i)
  {
    hide At;
    if k > 0 {
      PicksAreCycle(schedule, start, k - 1, i);
      AtWrapped(schedule, start + k - 1);
    }
  }

  lemma {:induction false} CycleSplit(schedule: seq<nat>, start: nat, a: nat, b: nat, i: nat)
    requires schedule != []
    ensures Cycle(schedule, start, a + b, i) == Cycle(schedule, start, a, i) + Cycle(schedule, start + a, b, i)
  {
    if b > 0 {
      CycleSplit(schedule, start, a, b - 1, i);
    }
  }

  lemma AtSmall(schedule: seq<nat>, x: nat)
    requires x < |schedule|
    ensures At(schedule, x) == schedule[x]
  {
    Division.QuotientAndRemainder(x, |schedule|, 0, x);
  }

  lemma AtNextTurn(schedule: seq<nat>, x: nat, c: nat)
    requires schedule != []
    ensures At(schedule, c * |schedule| + x) == At(schedule, x)
  {
    Division.AddMultiple(x, c, |schedule|);
  }

  lemma {:induction false} CyclePrefix(schedule: seq<nat>, k: nat, i: nat)
    requires schedule != [] && k <= |schedule|
    ensures Cycle(schedule, 0, k, i) == Occurrences(schedule[..k], i)
  {
    hide At;
    if k > 0 {
      assert At(schedule, k - 1) == schedule[k - 1] by { AtSmall(schedule, k - 1); }
      CyclePrefix(schedule, k - 1, i);
      assert schedule[..k][..k - 1] == schedule[..k - 1];
    }
  }

  /** One whole turn sees every entry of the schedule once, wherever it starts. */
  lemma {:induction false} WholeTurn(schedule: seq<nat>, start: nat, i: nat)
    requires schedule != []
    ensures Cycle(schedule, start, |schedule|, i) == Occurrences(schedule, i)
  {
    hide At;
    var n := |schedule|;
    if start == 0 {
      CyclePrefix(schedule, n, i);
      assert schedule[..n] == schedule;
    } else {
      WholeTurn(schedule, start - 1, i);
      CycleSplit(schedule, start - 1, 1, n, i);
      CycleSplit(schedule, start - 1, n, 1, i);
      assert Cycle(schedule, start - 1, 1 + n, i) == Cycle(schedule, start - 1, n + 1, i);
      AtNextTurn(schedule, start - 1, 1);
      assert Cycle(schedule, start - 1, 1, i) == Cycle(schedule, start - 1 + n, 1, i);
    }
  }

  lemma NoPicks(schedule: seq<nat>, start: nat, i: nat)
    requires schedule != []
    ensures Cycle(schedule, start, 0, i) == 0
  {
  }

  lemma {:induction false} WholeTurns(schedule: seq<nat>, start: nat, c: nat, i: nat)
    requires schedule != []
    ensures Cycle(schedule, start, c * |schedule|, i) == c * Occurrences(schedule, i)
  {
    hide At, Cycle, Occurrences;
    if c > 0 {
      var n := |schedule|;
      WholeTurns(schedule, start, c - 1, i);
      assert c * n == (c - 1) * n + n;
      CycleSplit(schedule, start, (c - 1) * n, n, i);
      WholeTurn(schedule, start + (c - 1) * n, i);
      assert (c - 1) * Occurrences(schedule, i) + Occurrences(schedule, i) == c * Occurrences(schedule, i);
    } else {
      assert Cycle(schedule, start, 0, i) == 0 by { NoPicks(schedule, start, i); }
      assert c * |schedule| == 0;
    }
  }

  /** Any whole number of turns chooses each upstream in exact proportion to its weight. */
  lemma {:induction false} ExactShares(weights: seq<U32>, start: nat, c: nat, i: nat)
    requires 0 < Total(weights) && i < |weights|
    ensures |Expand(weights)| == Total(weights)
    ensures Unwrapped(Expand(weights), start, c * Total(weights)) ==>
              Picks(Expand(weights), start, c * Total(weights), i) == c * weights[i]
  {
    ExpandShares(weights, i);
    if Unwrapped(Expand(weights), start, c * Total(weights)) {
      PicksAreCycle(Expand(weights), start, c * Total(weights), i);
      WholeTurns(Expand(weights), start, c, i);
    }
  }

  // --- Turns that the wrap cuts ---

  /** The schedule ends with all the entries of the last upstream that has any. */
  lemma {:induction false} LastBlock(weights: seq<U32>) returns (l: nat)
    requires 0 < Total(weights)
    ensures l < |weights| && weights[l] > 0
    ensures Expand(weights) == Expand(weights[..l]) + Repeat(l, weights[l])
  {
    var last := |weights| - 1;
    if weights[last] > 0 {
      l := last;
    } else {
      l := LastBlock(weights[..last]);
      assert weights[..last][..l] == weights[..l];
      assert Repeat(last, 0) == [];
    }
  }

  lemma {:induction false} RepeatPrefix(i: nat, n: nat, k: nat)
    requires k <= n
    ensures |Repeat(i, n)| == n && Repeat(i, n)[..k] == Repeat(i, k)
  {
    OccurrencesRepeat(i, n, i);
    OccurrencesRepeat(i, k, i);
    if k < n {
      RepeatPrefix(i, n - 1, k);
    }
  }

  /** A prefix of the schedule holds the last block's upstream as far as it reaches into the block. */
  lemma PrefixShare(front: seq<nat>, l: nat, weight: nat, x: nat)
    requires Occurrences(front, l) == 0 && x <= |front| + weight
    ensures |front + Repeat(l, weight)| == |front| + weight
    ensures Occurrences((front + Repeat(l, weight))[..x], l) == Max(0, x - |front|)
  {
    hide Occurrences, Repeat;
    var schedule := front + Repeat(l, weight);
    OccurrencesRepeat(l, weight, l);
    if x <= |front| {
      OccurrencesConcat(front[..x], front[x..], l);
      assert front[..x] + front[x..] == front;
      assert schedule[..x] == front[..x];
    } else {
      RepeatPrefix(l, weight, x - |front|);
      OccurrencesRepeat(l, x - |front|, l);
      OccurrencesConcat(front, Repeat(l, x - |front|), l);
      assert schedule[..x] == front + Repeat(l, x - |front|);
    }
  }

  lemma {:induction false} CycleNextTurn(schedule: seq<nat>, c: nat, k: nat, i: nat)
    requires schedule != []
    ensures Cycle(schedule, c * |schedule|, k, i) == Cycle(schedule, 0, k, i)
  {
    hide At;
    if k > 0 {
      CycleNextTurn(schedule, c, k - 1, i);
      AtNextTurn(schedule, k - 1, c);
    }
  }

  lemma PickAcross(schedule: seq<nat>, r: nat, j: nat)
    requires schedule != [] && r <= WORD && j < WORD
    ensures Pick(schedule, WORD - r, r + j) == Pick(schedule, 0, j)
  {
    hide At;
    assert (WORD - r + (r + j)) % WORD == (0 + j) % WORD;
  }

  lemma {:induction false} PicksAcross(schedule: seq<nat>, r: nat, k: nat, i: nat)
    requires schedule != [] && r <= WORD && k <= WORD
    ensures Picks(schedule, WORD - r, r + k, i) == Picks(schedule, WORD - r, r, i) + Picks(schedule, 0, k, i)
  {
    hide Pick;
    if k > 0 {
      PicksAcross(schedule, r, k - 1, i);
      PickAcross(schedule, r, k - 1);
      assert r + (k - 1) == r + k - 1;
    }
  }

  /** The turn cut after its first `WORD % |schedule|` picks sees two prefixes of the schedule. */
  lemma CutTurn(schedule: seq<nat>, i: nat)
    requires 0 < |schedule| < WORD
    ensures var r := WORD % |schedule|;
            Picks(schedule, WORD - r, |schedule|, i)
              == Occurrences(schedule[..r], i) + Occurrences(schedule[..|schedule| - r], i)
  {
    hide Picks, Cycle, Occurrences;
    var n, r := |schedule|, WORD % |schedule|;
    Division.Split(WORD, n);
    PicksAcross(schedule, r, n - r, i);
    PicksAreCycle(schedule, WORD - r, r, i);
    CycleNextTurn(schedule, WORD / n, r, i);
    PicksAreCycle(schedule, 0, n - r, i);
    CyclePrefix(schedule, r, i);
    CyclePrefix(schedule, n - r, i);
  }

  lemma {:induction false} OnlyEntry(schedule: seq<nat>, only: nat, i: nat)
    ensures Occurrences(schedule, i) <= |schedule|
    ensures Occurrences(schedule, only) == |schedule| ==>
              && (forall k | 0 <= k < |schedule| :: schedule[k] == only)
              && (i != only ==> Occurrences(schedule, i) == 0)
  {
    if schedule != [] {
      OnlyEntry(schedule[..|schedule| - 1], only, i);
      OnlyEntry(schedule[..|schedule| - 1], only, only);
    }
  }

  lemma {:induction false} OnlyPick(schedule: seq<nat>, only: nat, start: nat, k: nat, i: nat)
    requires schedule != [] && forall x | 0 <= x < |schedule| :: schedule[x] == only
    ensures Picks(schedule, start, k, i) == if i == only then k else 0
  {
    if k > 0 {
      OnlyPick(schedule, only, start, k - 1, i);
    }
  }

  /** Whole turns deal out the weights from every counter position. */
  ghost predicate AlwaysExact(weights: seq<U32>)
    requires 0 < |Expand(weights)| == Total(weights)
  {
    forall start: nat, c: nat, i: nat | start < WORD && i < |weights| ::
      Picks(Expand(weights), start, c * Total(weights), i) == c * weights[i]
  }

  predicate OnlyOne(weights: seq<U32>) {
    exists i | 0 <= i < |weights| :: weights[i] == Total(weights)
  }

  lemma OneShare(weights: seq<U32>, only: nat, start: nat, c: nat, i: nat)
    requires only < |weights| && i < |weights| && weights[only] == Total(weights) > 0
    ensures |Expand(weights)| == Total(weights)
    ensures Picks(Expand(weights), start, c * Total(weights), i) == c * weights[i]
  {
    hide Picks, Expand, Total, Occurrences;
    ExpandShares(weights, only);
    ExpandShares(weights, i);
    OnlyEntry(Expand(weights), only, i);
    OnlyPick(Expand(weights), only, start, c * Total(weights), i);
  }

  /** Cut by the wrap, the last upstream with any weight loses some of its share. */
  lemma CutShare(weights: seq<U32>) returns (l: nat)
    requires 0 < Total(weights) < WORD && WORD % Total(weights) != 0 && !OnlyOne(weights)
    ensures l < |weights| && |Expand(weights)| == Total(weights)
    ensures Picks(Expand(weights), WORD - WORD % Total(weights), Total(weights), l) < weights[l]
  {
    hide Picks, Expand, Total, Occurrences, Repeat;
    l := LastBlock(weights);
    ExpandShares(weights, l);
    ExpandShares(weights[..l], l);
    OccurrencesRepeat(l, weights[l], l);
    var front, r := Expand(weights[..l]), WORD % Total(weights);
    CutTurn(Expand(weights), l);
    PrefixShare(front, l, weights[l], r);
    PrefixShare(front, l, weights[l], Total(weights) - r);
  }

  /** Whole turns are exact from every counter position exactly when the total weight divides the counter's
      range or one upstream has all the weight. */
  lemma ExactSharesIff(weights: seq<U32>)
    requires 0 < Total(weights) <= WORD
    ensures |Expand(weights)| == Total(weights)
    ensures AlwaysExact(weights) <==> WORD % Total(weights) == 0 || OnlyOne(weights)
  {
    hide Picks, Expand, Total, Occurrences;
    ExpandShares(weights, 0);
    if WORD % Total(weights) == 0 || OnlyOne(weights) {
      forall start: nat, c: nat, i: nat | start < WORD && i < |weights|
        ensures Picks(Expand(weights), start, c * Total(weights), i) == c * weights[i]
      {
        if OnlyOne(weights) {
          var only :| 0 <= only < |weights| && weights[only] == Total(weights);
          OneShare(weights, only, start, c, i);
        } else {
          ExactShares(weights, start, c, i);
        }
      }
    } else {
      var l := CutShare(weights);
      assert Picks(Expand(weights), WORD - WORD % Total(weights), 1 * Total(weights), l) < 1 * weights[l];
    }
  }

  // --- Round robin ---

  /** `vec![1; pool_size]`, the weights of a weighted route that configures none. */
  function DefaultWeights(n: nat): seq<U32> {
    seq(n, i => 1 as U32)
  }

  /** Without configured weights, weighted round robin runs round robin's own schedule. */
  lemma {:induction false} DefaultIsRoundRobin(n: nat)
    ensures Expand(DefaultWeights(n)) == Identity(n)
  {
    if n > 0 {
      DefaultIsRoundRobin(n - 1);
      assert DefaultWeights(n)[..n - 1] == DefaultWeights(n - 1);
      assert Repeat(n - 1, 1) == [n - 1] by { assert Repeat(n - 1, 0) == []; }
    }
  }

  /** `k` picks spread over `n` upstreams as evenly as whole numbers can. */
  predicate Even(n: nat, k: nat, picks: nat)
    requires 0 < n
  {
    k / n <= picks <= k / n + if k % n == 0 then 0 else 1
  }

  lemma {:induction false} CycleGrows(schedule: seq<nat>, start: nat, a: nat, b: nat, i: nat)
    requires schedule != [] && a <= b
    ensures Cycle(schedule, start, a, i) <= Cycle(schedule, start, b, i)
  {
    CycleSplit(schedule, start, a, b - a, i);
  }

  lemma {:induction false} CycleEven(n: nat, start: nat, k: nat, i: nat)
    requires i < n
    ensures Even(n, k, Cycle(Identity(n), start, k, i))
  {
    hide At, Cycle, Occurrences, Expand;
    var schedule, q, r := Identity(n), k / n, k % n;
    NoPicks(schedule, start + q * n, i);
    DefaultIsRoundRobin(n);
    ExpandShares(DefaultWeights(n), i);
    WholeTurns(schedule, start, q, i);
    assert k == q * n + r;
    CycleSplit(schedule, start, q * n, r, i);
    CycleGrows(schedule, start + q * n, r, n, i);
    WholeTurn(schedule, start + q * n, i);
  }

  ghost predicate AlwaysEven(n: nat)
    requires 0 < n
  {
    forall start: nat, k: nat, i: nat | start < WORD && i < n :: Even(n, k, Picks(Identity(n), start, k, i))
  }

  /** Any run of picks between two wraps of the counter is even. */
  lemma {:induction false} RoundRobinEven(n: nat, start: nat, k: nat, i: nat)
    requires i < n && Unwrapped(Identity(n), start, k)
    ensures Even(n, k, Picks(Identity(n), start, k, i))
  {
    PicksAreCycle(Identity(n), start, k, i);
    CycleEven(n, start, k, i);
  }

  lemma {:induction false} PicksGrow(schedule: seq<nat>, start: nat, a: nat, b: nat, i: nat)
    requires schedule != [] && a <= b
    ensures Picks(schedule, start, a, i) <= Picks(schedule, start, b, i)
  {
    if a < b {
      PicksGrow(schedule, start, a, b - 1, i);
    }
  }

  lemma PickedTwice(n: nat, r: nat)
    requires 0 < n < WORD && 0 < r == WORD % n
    ensures r < n && Picks(Identity(n), WORD - r, r + 1, 0) >= 2
  {
    var schedule, start := Identity(n), WORD - r;
    Division.Split(WORD, n);
    assert At(schedule, start) == 0 by { AtNextTurn(schedule, 0, WORD / n); AtSmall(schedule, 0); }
    assert At(schedule, 0) == 0 by { AtSmall(schedule, 0); }
    hide At;
    assert Pick(schedule, start, 0) == 0 && Pick(schedule, start, r) == 0;
    assert Picks(schedule, start, 1, 0) == 1;
    PicksGrow(schedule, start, 1, r, 0);
  }

  /** Across the wrap too, evenness holds exactly for the pool sizes that divide the counter's range: any
      other pool has upstream 0 picked twice within one turn. */
  lemma {:induction false} RoundRobinEvenIff(n: nat)
    requires 0 < n < WORD
    ensures AlwaysEven(n) <==> WORD % n == 0
  {
    if WORD % n == 0 {
      forall start: nat, k: nat, i: nat | start < WORD && i < n
        ensures Even(n, k, Picks(Identity(n), start, k, i))
      {
        RoundRobinEven(n, start, k, i);
      }
    } else {
      var r := WORD % n;
      PickedTwice(n, r);
      PicksGrow(Identity(n), WORD - r, r + 1, n, 0);
      Division.QuotientAndRemainder(n, n, 1, 0);
      assert !Even(n, n, Picks(Identity(n), WORD - r, n, 0));
    }
  }
}
