/** The consistent-hash balancer of src/balancer.rs: a sorted ring of virtual nodes, searched clockwise.
    The hash function is a parameter. */
module ConsistentHash {
  import opened Prelude
  import Division

  type Word = n: nat | n < WORD

  type Hash = string -> Word

  datatype Vnode = Vnode(hash: Word, owner: nat)

  function Decimal(n: nat): string {
    if n < 10 then [Digit(n)] else Decimal(n / 10) + [Digit(n % 10)]
  }

  function Digit(n: nat): char
    requires n < 10
  {
    "0123456789"[n]
  }

  /** The string that virtual node `r` of upstream `i` is hashed from. */
  function Key(i: nat, r: nat): string {
    Decimal(i) + ":" + Decimal(r)
  }

  function Node(hash: Hash, i: nat, r: nat): Vnode {
    Vnode(hash(Key(i, r)), i)
  }

  // --- What the strings say ---

  /** Decimal notation without leading zeros. */
  predicate IsDecimal(s: string, n: nat) {
    && s != "" && (forall k | 0 <= k < |s| :: '0' <= s[k] <= '9')
    && (|s| > 1 ==> s[0] != '0')
    && Value(s) == n
  }

  function Value(s: string): int {
    if s == "" then 0 else 10 * Value(s[..|s| - 1]) + (s[|s| - 1] as int - '0' as int)
  }

  lemma OneDigit(d: nat)
    requires d < 10
    ensures IsDecimal([Digit(d)], d) && (d > 0 ==> Digit(d) != '0')
  {
    assert Value([Digit(d)][..0]) == 0;
  }

  lemma MoreDigits(s: string, n: nat, d: nat)
    requires IsDecimal(s, n) && s[0] != '0' && d < 10
    ensures IsDecimal(s + [Digit(d)], 10 * n + d) && (s + [Digit(d)])[0] != '0'
  {
    assert (s + [Digit(d)])[..|s|] == s;
  }

  lemma {:induction false} DecimalReads(n: nat)
    ensures IsDecimal(Decimal(n), n) && (n > 0 ==> Decimal(n)[0] != '0')
  {
    hide IsDecimal, Digit;
    if n < 10 {
      OneDigit(n);
    } else {
      DecimalReads(n / 10);
      MoreDigits(Decimal(n / 10), n / 10, n % 10);
      Division.Split(n, 10);
    }
  }

  /** A colon stands between the decimal `i` and the decimal `r`, and nowhere else. */
  ghost predicate Tells(s: string, i: nat, r: nat) {
    exists p | 0 <= p < |s| :: s[p] == ':' && IsDecimal(s[..p], i) && IsDecimal(s[p + 1..], r)
  }

  /** A virtual node is hashed from the text that tells its upstream and its number. */
  lemma KeyTells(i: nat, r: nat)
    ensures Tells(Key(i, r), i, r)
  {
    DecimalReads(i);
    DecimalReads(r);
    var p := |Decimal(i)|;
    assert Key(i, r)[..p] == Decimal(i) && Key(i, r)[p + 1..] == Decimal(r);
  }

  lemma NoColon(s: string, p: nat, n: nat)
    requires p <= |s| && IsDecimal(s[..p], n)
    ensures forall k | 0 <= k < p :: s[k] != ':'
  {
    assert forall k | 0 <= k < p :: s[k] == s[..p][k];
  }

  /** No text tells two nodes. */
  lemma TellsOne(s: string, i: nat, r: nat, i': nat, r': nat)
    requires Tells(s, i, r) && Tells(s, i', r')
    ensures i == i' && r == r'
  {
    hide Value;
    var p :| 0 <= p < |s| && s[p] == ':' && IsDecimal(s[..p], i) && IsDecimal(s[p + 1..], r);
    var q :| 0 <= q < |s| && s[q] == ':' && IsDecimal(s[..q], i') && IsDecimal(s[q + 1..], r');
    NoColon(s, p, i);
    NoColon(s, q, i');
  }

  /** Different virtual nodes are hashed from different strings. */
  lemma KeysDiffer(i: nat, r: nat, i': nat, r': nat)
    ensures Key(i, r) == Key(i', r') ==> i == i' && r == r'
  {
    hide Key, Tells;
    KeyTells(i, r);
    KeyTells(i', r');
    if Key(i, r) == Key(i', r') {
      TellsOne(Key(i, r), i, r, i', r');
    }
  }

  // --- The ring as it is built ---

  /** The virtual nodes in the order they are pushed: `i` whole upstreams, and `r` nodes of the next one. */
  function Pushed(hash: Hash, replicas: nat, i: nat, r: nat): seq<Vnode>
    decreases i, r
  {
    if r > 0 then Pushed(hash, replicas, i, r - 1) + [Node(hash, i, r - 1)]
    else if i > 0 then Pushed(hash, replicas, i - 1, replicas)
    else []
  }

  predicate Sorted(ring: seq<Vnode>) {
    forall i, j | 0 <= i < j < |ring| :: ring[i].hash <= ring[j].hash
  }

  /** Puts `v` behind every node with a hash that is not larger. */
  function Insert(ring: seq<Vnode>, v: Vnode): seq<Vnode> {
    if ring == [] || ring[|ring| - 1].hash <= v.hash then ring + [v]
    else Insert(ring[..|ring| - 1], v) + [ring[|ring| - 1]]
  }

  /** The library's stable sort by hash. */
  function SortByHash(nodes: seq<Vnode>): seq<Vnode> {
    if nodes == [] then [] else Insert(SortByHash(nodes[..|nodes| - 1]), nodes[|nodes| - 1])
  }

  lemma {:induction false} InsertAdds(ring: seq<Vnode>, v: Vnode)
    ensures multiset(Insert(ring, v)) == multiset(ring) + multiset{v}
  {
    if ring != [] {
      var rest, last := ring[..|ring| - 1], ring[|ring| - 1];
      assert ring == rest + [last];
      if last.hash > v.hash {
        InsertAdds(rest, v);
      }
    }
  }

  predicate AtMost(ring: seq<Vnode>, bound: Word) {
    forall i | 0 <= i < |ring| :: ring[i].hash <= bound
  }

  lemma {:induction false} InsertSorts(ring: seq<Vnode>, v: Vnode)
    requires Sorted(ring)
    ensures Sorted(Insert(ring, v))
    ensures forall bound: Word | AtMost(ring, bound) && v.hash <= bound :: AtMost(Insert(ring, v), bound)
  {
    if ring != [] {
      var rest, last := ring[..|ring| - 1], ring[|ring| - 1];
      if last.hash > v.hash {
        InsertSorts(rest, v);
        assert AtMost(rest, last.hash);
      }
    }
  }

  /** Sorting loses and invents nothing. */
  lemma {:induction false} SortSorts(nodes: seq<Vnode>)
    ensures Sorted(SortByHash(nodes)) && multiset(SortByHash(nodes)) == multiset(nodes)
  {
    if nodes != [] {
      var rest, last := nodes[..|nodes| - 1], nodes[|nodes| - 1];
      assert nodes == rest + [last];
      SortSorts(rest);
      InsertSorts(SortByHash(rest), last);
      InsertAdds(SortByHash(rest), last);
    }
  }

  function Ring(hash: Hash, poolSize: nat, replicas: nat): seq<Vnode> {
    SortByHash(Pushed(hash, replicas, poolSize, 0))
  }

  // --- Lookup ---

  /** `v` is the node that a key hashed to `h` reaches first going clockwise: the nearest one at or after
      `h`, or, when there is none, the first of the ring. */
  ghost predicate IsSuccessor(ring: seq<Vnode>, h: Word, v: Vnode) {
    && v in ring
    && (if v.hash >= h then forall w | w in ring :: w.hash >= h ==> v.hash <= w.hash
        else forall w | w in ring :: w.hash < h && v.hash <= w.hash)
  }

  /** The result of the library's binary search. */
  datatype Search = Found(pos: nat) | Missing(pos: nat)

  class ConsistentHash {
    var ring: seq<Vnode>
    const hash: Hash

    constructor (hash: Hash, poolSize: nat, replicas: nat)
      ensures this.hash == hash && ring == Ring(hash, poolSize, replicas)
    {
      this.hash := hash;
      ring := [];
      new;
      var i := 0;
      while i < poolSize
        invariant 0 <= i <= poolSize
        invariant ring == Pushed(hash, replicas, i, 0)
      {
        var r := 0;
        while r < replicas
          invariant 0 <= r <= replicas
          invariant ring == Pushed(hash, replicas, i, r)
        {
          ring := ring + [Vnode(hash(Key(i, r)), i)];
          r := r + 1;
        }
        i := i + 1;
      }
      ring := SortByHash(ring);
    }

    /** Some node with hash `h`, or where one belongs. */
    method BinarySearch(h: Word) returns (result: Search)
      requires Sorted(ring)
      ensures result.Found? ==> result.pos < |ring| && ring[result.pos].hash == h
      ensures result.Missing? ==> result.pos <= |ring|
      ensures result.Missing? ==> forall i | 0 <= i < result.pos :: ring[i].hash < h
      ensures result.Missing? ==> forall i | result.pos <= i < |ring| :: ring[i].hash > h
    {
      var lo, hi := 0, |ring|;
      while lo < hi
        invariant 0 <= lo <= hi <= |ring|
        invariant forall i | 0 <= i < lo :: ring[i].hash < h
        invariant forall i | hi <= i < |ring| :: ring[i].hash > h
      {
        var mid := lo + (hi - lo) / 2;
        if ring[mid].hash == h {
          return Found(mid);
        } else if ring[mid].hash < h {
          lo := mid + 1;
        } else {
          hi := mid;
        }
      }
      result := Missing(lo);
    }

    /** Panics on an empty ring. */
    method NextIndexForKey(key: string) returns (index: nat)
      requires ring != [] && Sorted(ring)
      ensures exists v :: IsSuccessor(ring, hash(key), v) && v.owner == index
    {
      var h := hash(key);
      var result := BinarySearch(h);
      var pos := if result.Missing? && result.pos >= |ring| then 0 else result.pos;
      assert IsSuccessor(ring, h, ring[pos]);
      index := ring[pos].owner;
    }
  }

  // --- What the ring contains ---

  lemma {:induction false} PushedSound(hash: Hash, replicas: nat, i: nat, r: nat, v: Vnode) returns (i': nat, r': nat)
    requires v in Pushed(hash, replicas, i, r) && r <= replicas
    ensures (if i' == i then r' < r else i' < i && r' < replicas) && v == Node(hash, i', r')
    decreases i, r
  {
    if r > 0 {
      if v in Pushed(hash, replicas, i, r - 1) {
        i', r' := PushedSound(hash, replicas, i, r - 1, v);
      } else {
        i', r' := i, r - 1;
      }
    } else {
      i', r' := PushedSound(hash, replicas, i - 1, replicas, v);
    }
  }

  lemma {:induction false} PushedComplete(hash: Hash, replicas: nat, i: nat, r: nat, i': nat, r': nat)
    requires r <= replicas && (if i' == i then r' < r else i' < i && r' < replicas)
    ensures Node(hash, i', r') in Pushed(hash, replicas, i, r)
    decreases i, r
  {
    if r > 0 {
      if i' != i || r' != r - 1 {
        PushedComplete(hash, replicas, i, r - 1, i', r');
      }
    } else {
      PushedComplete(hash, replicas, i - 1, replicas, i', r');
    }
  }

  lemma {:induction false} PushedLength(hash: Hash, replicas: nat, i: nat, r: nat)
    ensures |Pushed(hash, replicas, i, r)| == i * replicas + r
    decreases i, r
  {
    if r > 0 {
      PushedLength(hash, replicas, i, r - 1);
    } else if i > 0 {
      PushedLength(hash, replicas, i - 1, replicas);
      assert i * replicas == (i - 1) * replicas + replicas;
    }
  }

  /** The ring is a sorted permutation of all virtual nodes. */
  lemma RingPermutes(hash: Hash, n: nat, replicas: nat)
    ensures Sorted(Ring(hash, n, replicas)) && |Ring(hash, n, replicas)| == n * replicas
    ensures multiset(Ring(hash, n, replicas)) == multiset(Pushed(hash, replicas, n, 0))
  {
    var nodes, ring := Pushed(hash, replicas, n, 0), Ring(hash, n, replicas);
    SortSorts(nodes);
    PushedLength(hash, replicas, n, 0);
    assert |ring| == |multiset(ring)| && |nodes| == |multiset(nodes)|;
  }

  /** Nodes of equal hash stand in the order of their upstreams. */
  predicate Stable(ring: seq<Vnode>) {
    forall i, j | 0 <= i < j < |ring| && ring[i].hash == ring[j].hash :: ring[i].owner <= ring[j].owner
  }

  predicate OwnedUpTo(nodes: seq<Vnode>, owner: nat) {
    forall k | 0 <= k < |nodes| :: nodes[k].owner <= owner
  }

  /** No node with that hash belongs to an upstream after `owner`. */
  predicate SharedUpTo(ring: seq<Vnode>, hash: Word, owner: nat) {
    forall i | 0 <= i < |ring| && ring[i].hash == hash :: ring[i].owner <= owner
  }

  lemma {:induction false} InsertStable(ring: seq<Vnode>, v: Vnode)
    requires Stable(ring) && OwnedUpTo(ring, v.owner)
    ensures Stable(Insert(ring, v)) && OwnedUpTo(Insert(ring, v), v.owner)
    ensures forall hash: Word, owner: nat | SharedUpTo(ring, hash, owner) && hash != v.hash ::
              SharedUpTo(Insert(ring, v), hash, owner)
  {
    if ring != [] {
      var rest, last := ring[..|ring| - 1], ring[|ring| - 1];
      if last.hash > v.hash {
        InsertStable(rest, v);
        assert SharedUpTo(rest, last.hash, last.owner);
        forall hash: Word, owner: nat | SharedUpTo(ring, hash, owner) && hash != v.hash
          ensures SharedUpTo(Insert(ring, v), hash, owner)
        {
          assert SharedUpTo(rest, hash, owner);
        }
      }
    }
  }

  lemma {:induction false} PushedInOrder(hash: Hash, replicas: nat, i: nat, r: nat)
    ensures OwnedUpTo(Pushed(hash, replicas, i, r), i)
    ensures Stable(SortByHash(Pushed(hash, replicas, i, r)))
    ensures OwnedUpTo(SortByHash(Pushed(hash, replicas, i, r)), i)
    decreases i, r
  {
    hide Insert;
    if r > 0 {
      PushedInOrder(hash, replicas, i, r - 1);
      var nodes := Pushed(hash, replicas, i, r - 1);
      assert (nodes + [Node(hash, i, r - 1)])[..|nodes|] == nodes;
      InsertStable(SortByHash(nodes), Node(hash, i, r - 1));
    } else if i > 0 {
      PushedInOrder(hash, replicas, i - 1, replicas);
    }
  }

  /** On the ring, upstreams that share a hash stand in their own order, so a key between nodes falls to the first. */
  lemma RingStable(hash: Hash, n: nat, replicas: nat)
    ensures Stable(Ring(hash, n, replicas))
  {
    PushedInOrder(hash, replicas, n, 0);
  }

  predicate IsNode(hash: Hash, n: nat, replicas: nat, v: Vnode) {
    exists i, r | 0 <= i < n && 0 <= r < replicas :: v == Node(hash, i, r)
  }

  /** The nodes of a ring are the virtual nodes of its upstreams, no more and no less. */
  lemma RingNodes(hash: Hash, n: nat, replicas: nat, v: Vnode)
    ensures v in Ring(hash, n, replicas) <==> IsNode(hash, n, replicas, v)
  {
    hide Ring, Pushed;
    var nodes, ring := Pushed(hash, replicas, n, 0), Ring(hash, n, replicas);
    RingPermutes(hash, n, replicas);
    assert v in ring <==> v in multiset(nodes);
    if v in nodes {
      var i, r := PushedSound(hash, replicas, n, 0, v);
    }
    if IsNode(hash, n, replicas, v) {
      var i, r :| 0 <= i < n && 0 <= r < replicas && v == Node(hash, i, r);
      PushedComplete(hash, replicas, n, 0, i, r);
    }
  }

  // --- Clockwise distance ---

  /** How far `to` lies from `from`, going up and around a circle of 2^64 points. */
  function Distance(from: Word, to: Word): nat {
    (to - from) % 0x1_0000_0000_0000_0000
  }

  lemma DistanceIs(from: Word, to: Word)
    ensures Distance(from, to) == if from <= to then to - from else 0x1_0000_0000_0000_0000 + to - from
  {
  }

  /** The node that a lookup returns is the nearest one clockwise. */
  lemma SuccessorIsNearest(ring: seq<Vnode>, h: Word, v: Vnode)
    requires v in ring
    ensures IsSuccessor(ring, h, v) <==> forall w | w in ring :: Distance(h, v.hash) <= Distance(h, w.hash)
  {
    hide Distance;
    forall w | w in ring
      ensures Distance(h, w.hash) == if h <= w.hash then w.hash - h else 0x1_0000_0000_0000_0000 + w.hash - h
    {
      DistanceIs(h, w.hash);
    }
  }

  // --- Minimal disruption ---

  /** Virtual nodes of different upstreams never share a hash. */
  ghost predicate Collisionless(hash: Hash, n: nat, replicas: nat) {
    forall i: nat, r: nat, i': nat, r': nat | i < n && r < replicas && i' < n && r' < replicas ::
      Node(hash, i, r).hash == Node(hash, i', r').hash ==> i == i'
  }

  /** All the successors of a hash on a ring belong to one upstream. */
  lemma OwnerUnique(hash: Hash, n: nat, replicas: nat, h: Word, v: Vnode, w: Vnode)
    requires Collisionless(hash, n, replicas)
    requires IsSuccessor(Ring(hash, n, replicas), h, v) && IsSuccessor(Ring(hash, n, replicas), h, w)
    ensures v.owner == w.owner
  {
    hide Ring;
    RingNodes(hash, n, replicas, v);
    RingNodes(hash, n, replicas, w);
  }

  lemma RingGrows(hash: Hash, n: nat, replicas: nat, v: Vnode)
    ensures v in Ring(hash, n, replicas) ==> v in Ring(hash, n + 1, replicas)
    ensures v in Ring(hash, n + 1, replicas) ==> v in Ring(hash, n, replicas) || v.owner == n
  {
    hide Ring;
    RingNodes(hash, n, replicas, v);
    RingNodes(hash, n + 1, replicas, v);
    if v in Ring(hash, n, replicas) {
      var i, r :| 0 <= i < n && 0 <= r < replicas && v == Node(hash, i, r);
      assert i < n + 1;
    }
  }

  /** When a pool grows by one upstream, a key keeps its owner or moves to the new one. Read backwards: when
      the last upstream leaves, only its own keys move. */
  lemma {:induction false} MinimalDisruption(hash: Hash, n: nat, replicas: nat, h: Word, v: Vnode, w: Vnode)
    requires Collisionless(hash, n, replicas)
    requires IsSuccessor(Ring(hash, n, replicas), h, v)
    requires IsSuccessor(Ring(hash, n + 1, replicas), h, w)
    ensures w.owner == v.owner || w.owner == n
  {
    hide Ring;
    var small, large := Ring(hash, n, replicas), Ring(hash, n + 1, replicas);
    RingGrows(hash, n, replicas, w);
    if w in small {
      forall x | x in small
        ensures x in large
      {
        RingGrows(hash, n, replicas, x);
      }
      assert IsSuccessor(small, h, w);
      OwnerUnique(hash, n, replicas, h, v, w);
    }
  }

  /** Disruption is minimal for every key hash and every successor that a lookup may return. */
  ghost predicate Minimal(hash: Hash, n: nat, replicas: nat) {
    forall h: Word, v, w |
      IsSuccessor(Ring(hash, n, replicas), h, v) && IsSuccessor(Ring(hash, n + 1, replicas), h, w) ::
      w.owner == v.owner || w.owner == n
  }

  /** That is so exactly when no two upstreams of the smaller ring share a hash. */
  lemma MinimalDisruptionIff(hash: Hash, n: nat, replicas: nat)
    ensures Minimal(hash, n, replicas) <==> Collisionless(hash, n, replicas)
  {
    hide Ring, Node, Collisionless, IsSuccessor;
    if Collisionless(hash, n, replicas) {
      forall h: Word, v, w |
        IsSuccessor(Ring(hash, n, replicas), h, v) && IsSuccessor(Ring(hash, n + 1, replicas), h, w)
        ensures w.owner == v.owner || w.owner == n
      {
        MinimalDisruption(hash, n, replicas, h, v, w);
      }
    } else {
      var v, w := Collision(hash, n, replicas);
      SharedHash(hash, n, replicas, v, w);
    }
  }

  lemma Collision(hash: Hash, n: nat, replicas: nat) returns (v: Vnode, w: Vnode)
    requires !Collisionless(hash, n, replicas)
    ensures IsNode(hash, n, replicas, v) && IsNode(hash, n, replicas, w)
    ensures v.hash == w.hash && v.owner < n && w.owner < n && v.owner != w.owner
  {
    var i: nat, r: nat, i': nat, r': nat :|
      i < n && r < replicas && i' < n && r' < replicas
      && Node(hash, i, r).hash == Node(hash, i', r').hash && i != i';
    v, w := Node(hash, i, r), Node(hash, i', r');
  }

  /** A key with the shared hash may be sent to either upstream, so it may move between them. */
  lemma SharedHash(hash: Hash, n: nat, replicas: nat, v: Vnode, w: Vnode)
    requires IsNode(hash, n, replicas, v) && IsNode(hash, n, replicas, w)
    requires v.hash == w.hash && w.owner < n && v.owner != w.owner
    ensures IsSuccessor(Ring(hash, n, replicas), v.hash, v) && IsSuccessor(Ring(hash, n + 1, replicas), v.hash, w)
  {
    hide Ring;
    RingNodes(hash, n, replicas, v);
    RingNodes(hash, n, replicas, w);
    RingGrows(hash, n, replicas, w);
  }

  /** The hash tells apart the texts of the pool's virtual nodes. */
  ghost predicate Separates(hash: Hash, n: nat, replicas: nat) {
    forall s, s', i: nat, r: nat, i': nat, r': nat |
      i < n && r < replicas && i' < n && r' < replicas && Tells(s, i, r) && Tells(s', i', r') && hash(s) == hash(s') ::
      s == s'
  }

  /** Whenever the hash has no collision of its own on those texts, growing the pool moves keys only to the new
      upstream. */
  lemma SeparatedIsMinimal(hash: Hash, n: nat, replicas: nat)
    requires Separates(hash, n, replicas)
    ensures Collisionless(hash, n, replicas) && Minimal(hash, n, replicas)
  {
    hide Minimal, Key, Tells;
    forall i: nat, r: nat, i': nat, r': nat | i < n && r < replicas && i' < n && r' < replicas
      ensures Node(hash, i, r).hash == Node(hash, i', r').hash ==> i == i'
    {
      KeyTells(i, r);
      KeyTells(i', r');
      KeysDiffer(i, r, i', r');
    }
    MinimalDisruptionIff(hash, n, replicas);
  }
}
