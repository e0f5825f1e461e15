/** The virtio disk driver: descriptors, the avail and used rings with their 16-bit counters, and a
    device that completes each posted chain once, in any order. */
module Virtio {
  import opened Options
  import opened Sets

  const NUM: nat := 8
  const BSIZE: nat := 1024
  const WRAP: nat := 0x1_0000

  /** What a descriptor points to. */
  datatype Addr = Null | OpAt(i: nat) | DataOf(b: nat) | StatusAt(h: nat)

  /** The flags are NEXT and WRITE, the latter from the device's point of view. */
  datatype Desc = Desc(addr: Addr, len: nat, fwrite: bool, fnext: bool, next: nat)

  const EMPTY := Desc(Null, 0, false, false, 0)

  datatype Req = Req(write: bool, sector: nat)
  datatype Info = Info(b: Option<nat>, status: nat)

  /** A request in flight, at the head of its chain. */
  datatype Stage = Posted | Fetched | Used | Seen
  datatype Chain = Chain(i1: nat, i2: nat, b: nat, blockno: nat, write: bool, stage: Stage)

  datatype Driver = Driver(free: seq<bool>, desc: seq<Desc>, info: seq<Info>, ops: seq<Req>)

  ghost predicate Sizes(v: Driver) {
    |v.free| == NUM && |v.desc| == NUM && |v.info| == NUM && |v.ops| == NUM
  }

  predicate In(c: Chain, h: nat, i: nat) {
    i == h || i == c.i1 || i == c.i2
  }

  /** The chain at h is laid out as the device expects it. */
  ghost predicate ChainOk(v: Driver, h: nat, c: Chain)
    requires Sizes(v)
  {
    && h < NUM && c.i1 < NUM && c.i2 < NUM && h != c.i1 && h != c.i2 && c.i1 != c.i2
    && v.desc[h] == Desc(OpAt(h), 16, false, true, c.i1)
    && v.desc[c.i1] == Desc(DataOf(c.b), BSIZE, !c.write, true, c.i2)
    && v.desc[c.i2] == Desc(StatusAt(h), 1, true, false, 0)
    && v.ops[h] == Req(c.write, c.blockno * 2) && v.info[h].b == Some(c.b)
    && ((c.stage.Used? || c.stage.Seen?) ==> v.info[h].status == 0)
  }

  /** Every chain in flight is laid out. */
  ghost predicate AllLaid(v: Driver, chains: map<nat, Chain>)
    requires Sizes(v)
  {
    forall h | h in chains :: ChainOk(v, h, chains[h])
  }

  ghost predicate OwnedBy(owner: map<nat, nat>, h: nat, c: Chain) {
    h in owner && owner[h] == h && c.i1 in owner && owner[c.i1] == h && c.i2 in owner && owner[c.i2] == h
  }

  /** The chains have no descriptor in common: each that is owned is owned by one. */
  ghost predicate Owns(chains: map<nat, Chain>, owner: map<nat, nat>) {
    && (forall i | i in owner :: i < NUM && owner[i] in chains && In(chains[owner[i]], owner[i], i))
    && (forall h | h in chains :: OwnedBy(owner, h, chains[h]))
  }

  /** The descriptors that nobody owns are free and empty. */
  ghost predicate FreeOnes(v: Driver, owner: map<nat, nat>)
    requires Sizes(v)
  {
    forall i | 0 <= i < NUM :: (v.free[i] <==> i !in owner) && (v.free[i] ==> v.desc[i] == EMPTY)
  }

  /** Free descriptors and the chains in flight partition the descriptors. */
  ghost predicate Partition(v: Driver, chains: map<nat, Chain>, owner: map<nat, nat>)
    requires Sizes(v)
  {
    AllLaid(v, chains) && Owns(chains, owner) && FreeOnes(v, owner)
  }

  /** No buffer is in two requests. */
  ghost predicate Buffers(chains: map<nat, Chain>) {
    forall h, k | h in chains && k in chains && chains[h].b == chains[k].b :: h == k
  }

  // ----- what the device makes of a chain

  datatype Order = Order(write: bool, sector: nat, data: nat, status: nat)

  /** Follow the chain from h as the device does; None if it is not a disk request. */
  function Decode(v: Driver, h: nat): Option<Order>
    requires |v.desc| == NUM && |v.ops| == NUM
  {
    if h >= NUM || !v.desc[h].fnext || v.desc[h].next >= NUM then None
    else
      var d1 := v.desc[v.desc[h].next];
      if !d1.fnext || d1.next >= NUM then None
      else
        var d0, d2 := v.desc[h], v.desc[d1.next];
        if d0.addr.OpAt? && d0.addr.i < NUM && d1.addr.DataOf? && d2.addr.StatusAt? && !d0.fwrite && d2.fwrite
            && !d2.fnext && d1.len == BSIZE
           && d1.fwrite == !v.ops[d0.addr.i].write
        then Some(Order(v.ops[d0.addr.i].write, v.ops[d0.addr.i].sector, d1.addr.b, d2.addr.h))
        else None
  }

  /** The device reads off a chain in flight exactly the request that was made. */
  lemma DecodeChain(v: Driver, h: nat, c: Chain)
    requires Sizes(v) && ChainOk(v, h, c)
    ensures Decode(v, h) == Some(Order(c.write, c.blockno * 2, c.b, h))
  {
  }

  // ----- rings

  function Slot(first: nat, k: nat): nat {
    (first + k) % NUM
  }

  /** Ring slots from number first on hold the elements of q; counters are 16 bits wide. */
  ghost predicate Ring(ring: seq<nat>, first: nat, q: seq<nat>) {
    |ring| == NUM && |q| <= NUM && forall k | 0 <= k < |q| :: ring[Slot(first, k)] == q[k]
  }

  lemma SlotsDiffer(a: nat, d: nat)
    requires 0 < d < NUM
    ensures (a + d) % NUM != a % NUM
  {
  }

  /** The index of a wrapped counter is that of the counter itself. */
  lemma Wrapped(n: nat)
    ensures (n % WRAP) % NUM == n % NUM
    ensures (n % WRAP + 1) % WRAP == (n + 1) % WRAP
  {
    var q := n / WRAP;
    assert n == n % WRAP + WRAP * q;
    SameSlot(n, n % WRAP, WRAP / NUM * q);
    SameCount(n + 1, n % WRAP + 1, q);
  }

  lemma SameSlot(x: nat, y: nat, k: nat)
    requires x == y + NUM * k
    ensures x % NUM == y % NUM
  {
  }

  lemma SameCount(x: nat, y: nat, k: nat)
    requires x == y + WRAP * k
    ensures x % WRAP == y % WRAP
  {
  }

  lemma RingPush(ring: seq<nat>, first: nat, q: seq<nat>, x: nat)
    requires Ring(ring, first, q) && |q| < NUM
    ensures Ring(ring[Slot(first, |q|) := x], first, q + [x])
  {
    forall k | 0 <= k < |q| ensures Slot(first, k) != Slot(first, |q|) { SlotsDiffer(first + k, |q| - k); }
  }

  lemma RingPop(ring: seq<nat>, first: nat, q: seq<nat>)
    requires Ring(ring, first, q) && q != []
    ensures ring[first % NUM] == q[0] && Ring(ring, first + 1, q[1..])
  {
    assert ring[Slot(first, 0)] == q[0];
    forall k | 0 <= k < |q[1..]|
      ensures ring[Slot(first + 1, k)] == q[1..][k]
    {
      assert Slot(first + 1, k) == Slot(first, k + 1);
    }
  }

  // ----- queues

  /** q holds each chain of the given stage once. */
  ghost predicate Queue(chains: map<nat, Chain>, q: seq<nat>, stage: Stage) {
    && (forall i, j | 0 <= i < j < |q| :: q[i] != q[j])
    && (forall h | h in q :: h in chains && chains[h].stage == stage)
    && (forall h | h in chains && chains[h].stage == stage :: h in q)
  }

  /** A queue of chains and one more head fit the ring. */
  lemma QueueFits(chains: map<nat, Chain>, owner: map<nat, nat>, q: seq<nat>, stage: Stage, h: nat)
    requires Owns(chains, owner) && Queue(chains, q, stage) && h < NUM && h !in q
    ensures |q| < NUM
  {
    hide Owns;
    var all, a := [0, 1, 2, 3, 4, 5, 6, 7], q + [h];
    forall x | x in a ensures x in all {
      if x != h { HeadBound(chains, owner, x); }
      assert all[x] == x;
    }
    NoLonger(a, all);
  }

  lemma HeadBound(chains: map<nat, Chain>, owner: map<nat, nat>, h: nat)
    requires Owns(chains, owner) && h in chains
    ensures h < NUM && h in owner && owner[h] == h
  {
    hide In;
    assert OwnedBy(owner, h, chains[h]);
  }

  /** A chain moves on to the next stage. */
  function Moved(chains: map<nat, Chain>, h: nat, stage: Stage): map<nat, Chain>
    requires h in chains
  {
    chains[h := chains[h].(stage := stage)]
  }

  lemma MovedPartition(v: Driver, chains: map<nat, Chain>, owner: map<nat, nat>, h: nat, stage: Stage)
    requires Sizes(v) && Partition(v, chains, owner) && h in chains && h < NUM
    requires (stage.Used? || stage.Seen?) ==> v.info[h].status == 0
    ensures Partition(v, Moved(chains, h, stage), owner)
  {
    hide FreeOnes, AllLaid, Owns;
    MovedLaid(v, chains, h, stage);
    MovedOwns(chains, owner, h, stage);
  }

  lemma MovedLaid(v: Driver, chains: map<nat, Chain>, h: nat, stage: Stage)
    requires Sizes(v) && AllLaid(v, chains) && h in chains && h < NUM
    requires (stage.Used? || stage.Seen?) ==> v.info[h].status == 0
    ensures AllLaid(v, Moved(chains, h, stage))
  {
    var c := Moved(chains, h, stage);
    assert ChainOk(v, h, chains[h]);
  }

  lemma MovedOwns(chains: map<nat, Chain>, owner: map<nat, nat>, h: nat, stage: Stage)
    requires Owns(chains, owner) && h in chains
    ensures Owns(Moved(chains, h, stage), owner)
  {
    var c := Moved(chains, h, stage);
    assert OwnedBy(owner, h, chains[h]);
  }

  lemma MovedBuffers(chains: map<nat, Chain>, h: nat, stage: Stage)
    requires Buffers(chains) && h in chains
    ensures Buffers(Moved(chains, h, stage))
  {
  }

  lemma MovedFrom(chains: map<nat, Chain>, q: seq<nat>, stage: Stage, to_: Stage)
    requires Queue(chains, q, stage) && q != [] && to_ != stage && q[0] in chains
    ensures Queue(Moved(chains, q[0], to_), q[1..], stage)
  {
    var c := Moved(chains, q[0], to_);
    forall h | h in c && c[h].stage == stage ensures h in q[1..] {
      var k :| 0 <= k < |q| && q[k] == h;
      assert q[1..][k - 1] == h;
    }
  }

  lemma MovedTo(chains: map<nat, Chain>, q: seq<nat>, stage: Stage, h: nat)
    requires Queue(chains, q, stage) && h in chains && chains[h].stage != stage
    ensures Queue(Moved(chains, h, stage), q + [h], stage)
  {
  }

  lemma MovedPast(chains: map<nat, Chain>, q: seq<nat>, stage: Stage, h: nat, to_: Stage)
    requires Queue(chains, q, stage) && h in chains && chains[h].stage != stage && to_ != stage
    ensures Queue(Moved(chains, h, to_), q, stage)
  {
  }

  // ----- making and freeing chains

  function Laid(v: Driver, h: nat, c: Chain): Driver
    requires Sizes(v) && h < NUM && c.i1 < NUM && c.i2 < NUM
  {
    v.(free := v.free[h := false][c.i1 := false][c.i2 := false],
       ops := v.ops[h := Req(c.write, c.blockno * 2)],
       desc := v.desc[h := Desc(OpAt(h), 16, false, true, c.i1)]
                     [c.i1 := Desc(DataOf(c.b), BSIZE, !c.write, true, c.i2)]
                     [c.i2 := Desc(StatusAt(h), 1, true, false, 0)],
       info := v.info[h := Info(Some(c.b), 0xff)])
  }

  function Owning(owner: map<nat, nat>, h: nat, c: Chain): map<nat, nat> {
    owner[h := h][c.i1 := h][c.i2 := h]
  }

  /** Three different free descriptors for a new chain. */
  ghost predicate Three(v: Driver, h: nat, c: Chain)
    requires Sizes(v)
  {
    && h < NUM && c.i1 < NUM && c.i2 < NUM && h != c.i1 && h != c.i2 && c.i1 != c.i2
    && v.free[h] && v.free[c.i1] && v.free[c.i2] && c.stage == Posted
  }

  lemma Apart(v: Driver, chains: map<nat, Chain>, owner: map<nat, nat>, i: nat, k: nat)
    requires Sizes(v) && Partition(v, chains, owner) && i < NUM && v.free[i] && k in chains
    ensures !In(chains[k], k, i)
  {
    hide AllLaid;
  }

  lemma LaidKept(v: Driver, w: Driver, k: nat, d: Chain)
    requires Sizes(v) && Sizes(w) && ChainOk(v, k, d)
    requires forall i | 0 <= i < NUM && In(d, k, i) :: w.desc[i] == v.desc[i] && w.ops[i] == v.ops[i]
               && w.info[i] == v.info[i]
    ensures ChainOk(w, k, d)
  {
  }

  lemma LaidPartition(v: Driver, chains: map<nat, Chain>, owner: map<nat, nat>, h: nat, c: Chain)
    requires Sizes(v) && Partition(v, chains, owner) && Three(v, h, c)
    ensures h !in chains && Partition(Laid(v, h, c), chains[h := c], Owning(owner, h, c))
  {
    hide In, Owns, FreeOnes;
    var w := Laid(v, h, c);
    if h in chains {
      Apart(v, chains, owner, h, h);
      HeadIn(chains[h], h);
    }
    forall k | k in chains ensures ChainOk(w, k, chains[k]) {
      Apart(v, chains, owner, h, k);
      Apart(v, chains, owner, c.i1, k);
      Apart(v, chains, owner, c.i2, k);
      LaidKept(v, w, k, chains[k]);
    }
    LaidOwns(v, chains, owner, h, c);
    LaidFree(v, owner, h, c);
  }

  lemma HeadIn(c: Chain, h: nat)
    ensures In(c, h, h) && In(c, h, c.i1) && In(c, h, c.i2)
  {
  }

  lemma LaidOwns(v: Driver, chains: map<nat, Chain>, owner: map<nat, nat>, h: nat, c: Chain)
    requires Sizes(v) && Owns(chains, owner) && FreeOnes(v, owner) && Three(v, h, c) && h !in chains
    ensures Owns(chains[h := c], Owning(owner, h, c))
  {
    assert h !in owner && c.i1 !in owner && c.i2 !in owner;
    var chains', owner' := chains[h := c], Owning(owner, h, c);
    forall k | k in chains' ensures OwnedBy(owner', k, chains'[k]) {
      if k != h { assert OwnedBy(owner, k, chains[k]); }
    }
    forall i | i in owner' ensures i < NUM && owner'[i] in chains' && In(chains'[owner'[i]], owner'[i], i) {
      if i in owner && i != h && i != c.i1 && i != c.i2 { assert owner[i] in chains && owner[i] != h; }
    }
  }

  lemma LaidFree(v: Driver, owner: map<nat, nat>, h: nat, c: Chain)
    requires Sizes(v) && FreeOnes(v, owner) && Three(v, h, c)
    ensures FreeOnes(Laid(v, h, c), Owning(owner, h, c))
  {
  }

  function Cut(v: Driver, h: nat, c: Chain): Driver
    requires Sizes(v) && h < NUM && c.i1 < NUM && c.i2 < NUM
  {
    v.(free := v.free[h := true][c.i1 := true][c.i2 := true],
       desc := v.desc[h := EMPTY][c.i1 := EMPTY][c.i2 := EMPTY],
       info := v.info[h := v.info[h].(b := None)])
  }

  lemma CutPartition(v: Driver, chains: map<nat, Chain>, owner: map<nat, nat>, h: nat)
    requires Sizes(v) && Partition(v, chains, owner) && h in chains
    requires ChainOk(v, h, chains[h])
    ensures Partition(Cut(v, h, chains[h]), chains - {h}, owner - {h, chains[h].i1, chains[h].i2})
  {
    hide In, Owns, FreeOnes;
    var c := chains[h];
    assert ChainOk(v, h, c);
    var w := Cut(v, h, c);
    forall k | k in chains && k != h ensures ChainOk(w, k, chains[k]) {
      assert ChainOk(v, k, chains[k]);
      Disjoint(chains, owner, h, k);
      LaidKept(v, w, k, chains[k]);
    }
    CutOwns(chains, owner, h);
    CutFree(v, chains, owner, h);
  }

  lemma Disjoint(chains: map<nat, Chain>, owner: map<nat, nat>, h: nat, k: nat)
    requires Owns(chains, owner) && h in chains && k in chains && h != k
    ensures !In(chains[k], k, h) && !In(chains[k], k, chains[h].i1) && !In(chains[k], k, chains[h].i2)
  {
    assert OwnedBy(owner, h, chains[h]) && OwnedBy(owner, k, chains[k]);
  }

  lemma CutOwns(chains: map<nat, Chain>, owner: map<nat, nat>, h: nat)
    requires Owns(chains, owner) && h in chains
    ensures Owns(chains - {h}, owner - {h, chains[h].i1, chains[h].i2})
  {
    assert OwnedBy(owner, h, chains[h]);
    forall k | k in chains && k != h ensures OwnedBy(owner - {h, chains[h].i1, chains[h].i2}, k, chains[k]) {
      assert OwnedBy(owner, k, chains[k]);
    }
  }

  lemma CutFree(v: Driver, chains: map<nat, Chain>, owner: map<nat, nat>, h: nat)
    requires Sizes(v) && FreeOnes(v, owner) && Owns(chains, owner) && h in chains && ChainOk(v, h, chains[h])
    ensures FreeOnes(Cut(v, h, chains[h]), owner - {h, chains[h].i1, chains[h].i2})
  {
    hide Owns;
  }
}
