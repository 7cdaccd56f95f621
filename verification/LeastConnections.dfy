/** The least-connections balancer of src/balancer.rs, and how evenly load can be placed at all. */
module LeastConnections {
  import opened Prelude
  import Division

  class LeastConnections {
    const active: array<nat>

    constructor (poolSize: nat)
      ensures fresh(active) && active[..] == seq(poolSize, i => 0)
    {
      active := new nat[poolSize](i => 0);
    }

    /** Panics on an empty pool. */
    method NextIndex(poolSize: nat) returns (index: nat)
      requires active.Length > 0
      ensures index == Least(active[..], Max(Min(poolSize, active.Length), 1))
    {
      var len := Min(poolSize, active.Length);
      var minIndex, minValue := 0, active[0];
      var i := 1;
      while i < len
        invariant 1 <= i <= Max(len, 1)
        invariant minIndex == Least(active[..], i) && minValue == active[minIndex]
      {
        var value := active[i];
        if value < minValue {
          minValue := value;
          minIndex := i;
        }
        i := i + 1;
      }
      index := minIndex;
    }

    method RecordStart(index: nat)
      modifies active
      ensures active[..] == Started(old(active[..]), index)
    {
      if index < active.Length {
        active[index] := active[index] + 1;
      }
    }

    /** `fetch_sub` on a machine word: zero would wrap. */
    method RecordDone(index: nat)
      modifies active
      ensures active[..] == Done(old(active[..]), index)
    {
      if index < active.Length {
        active[index] := if active[index] == 0 then WORD - 1 else active[index] - 1;
      }
    }
  }

  // --- The counters, as a value ---

  type Counts = seq<nat>

  /** The first of the smallest counts among the first `n`. */
  function Least(active: Counts, n: nat): (index: nat)
    requires 0 < n <= |active|
    ensures index < n
    ensures forall i | 0 <= i < n :: active[index] <= active[i]
    ensures forall i | 0 <= i < index :: active[index] < active[i]
  {
    if n == 1 then 0
    else
      var best := Least(active, n - 1);
      if active[n - 1] < active[best] then n - 1 else best
  }

  function Started(active: Counts, index: nat): Counts {
    if index < |active| then active[index := active[index] + 1] else active
  }

  function Done(active: Counts, index: nat): Counts {
    if index < |active| then active[index := if active[index] == 0 then WORD - 1 else active[index] - 1] else active
  }

  /** On words, an end undoes a start, also the other way round: an end too many leaves the largest word. */
  lemma DoneUndoesStarted(active: Counts, index: nat)
    requires index < |active| && active[index] < WORD
    ensures Done(Started(active, index), index) == active
    ensures |Done(active, index)| == |active| && Done(active, index)[index] < WORD
    ensures (Done(active, index)[index] + 1) % 0x1_0000_0000_0000_0000 == active[index]
    ensures forall i | 0 <= i < |active| && i != index :: Done(active, index)[i] == active[i]
  {
  }

  // --- How evenly load can be placed ---

  function InFlight(active: Counts): nat {
    if active == [] then 0 else InFlight(active[..|active| - 1]) + active[|active| - 1]
  }

  lemma {:induction false} InFlightUpdate(active: Counts, index: nat, value: nat)
    requires index < |active|
    ensures InFlight(active[index := value]) == InFlight(active) - active[index] + value
  {
    var last := |active| - 1;
    if index == last {
      assert active[index := value][..last] == active[..last];
    } else {
      InFlightUpdate(active[..last], index, value);
      assert active[index := value][..last] == active[..last][index := value];
    }
  }

  lemma {:induction false} InFlightAtLeast(active: Counts, floor: nat)
    requires forall i | 0 <= i < |active| :: floor <= active[i]
    ensures floor * |active| <= InFlight(active)
  {
    if active != [] {
      var last := |active| - 1;
      InFlightAtLeast(active[..last], floor);
      assert floor * |active| == floor * last + floor;
    }
  }

  lemma {:induction false} InFlightAtMost(active: Counts, cap: nat)
    requires forall i | 0 <= i < |active| :: active[i] <= cap
    ensures InFlight(active) <= cap * |active|
  {
    if active != [] {
      var last := |active| - 1;
      InFlightAtMost(active[..last], cap);
      assert cap * |active| == cap * last + cap;
    }
  }

  /** The fair share of `limit` requests over `n` upstreams, rounded up. */
  function Share(limit: nat, n: nat): nat
    requires 0 < n
  {
    (limit + n - 1) / n
  }

  lemma ShareIsCeiling(limit: nat, n: nat)
    requires 0 < n
    ensures limit <= Share(limit, n) * n < limit + n
  {
  }

  /** No placement of `limit` requests does better: some upstream carries at least the fair share. */
  lemma {:induction false} NoPlacementBeatsShare(active: Counts)
    requires active != []
    ensures exists i | 0 <= i < |active| :: active[i] >= Share(InFlight(active), |active|)
  {
    var n, limit := |active|, InFlight(active);
    var share := Share(limit, n);
    if forall i | 0 <= i < n :: active[i] < share {
      ShareIsCeiling(limit, n);
      InFlightAtMost(active, share - 1);
      Division.OneMore(share - 1, share, n);
    }
  }
}
