/** What the buffer cache is for: the contents it holds, seen apart from the list that
    threads the buffers.

    logical is the newest contents of every block. pins are the blocks whose newest contents
    only the cache holds, because they are in the log header and not yet installed. dirty are
    the buffers changed since they were last logged or written; holders counts the callers
    between Bread and Brelse of each buffer. */
module Cache {
  import opened Disk
  import opened Ring

  const ROOTDEV: nat := 1

  datatype Buf = Buf(dev: nat, blockno: nat, valid: bool, locked: bool, refcnt: nat, data: Block)

  datatype Cache = Cache(bufs: seq<Buf>, disk: Image, logical: Image,
                         holders: seq<nat>, pins: map<nat, nat>, dirty: set<nat>)

  predicate Caches(b: Buf, blockno: nat) {
    b.dev == ROOTDEV && b.blockno == blockno
  }

  predicate Cached(bufs: seq<Buf>, blockno: nat) {
    exists i | 0 <= i < |bufs| :: Caches(bufs[i], blockno)
  }

  predicate SomeFree(bufs: seq<Buf>) {
    exists i | 0 <= i < |bufs| :: bufs[i].refcnt == 0
  }

  /** No one holds the lock of the buffer that caches blockno. */
  predicate Unlocked(bufs: seq<Buf>, blockno: nat) {
    forall i | 0 <= i < |bufs| && Caches(bufs[i], blockno) :: !bufs[i].locked
  }

  // ----- what stays true

  /** A block of the disk is in at most one buffer. */
  ghost predicate Unique(bufs: seq<Buf>) {
    forall i, j, b | 0 <= i < j < |bufs| && Caches(bufs[i], b) :: !Caches(bufs[j], b)
  }

  function Pin(c: Cache, i: nat): nat
    requires i < |c.bufs|
  {
    if c.bufs[i].blockno in c.pins && c.pins[c.bufs[i].blockno] == i then 1 else 0
  }

  /** refcnt counts the holders of a buffer, and its pin; only a holder has the lock. */
  ghost predicate Counted(c: Cache) {
    && |c.holders| == |c.bufs|
    && (forall i | 0 <= i < |c.bufs| :: c.bufs[i].refcnt == c.holders[i] + Pin(c, i))
    && (forall i | 0 <= i < |c.bufs| && c.bufs[i].locked :: c.holders[i] > 0)
  }

  /** Every valid buffer that is not being changed has the newest contents, and so has the
      disk for every block that is not pinned; a pinned block is in its buffer. */
  ghost predicate Coherent(c: Cache) {
    && (forall i | 0 <= i < |c.bufs| && c.bufs[i].valid ::
          c.bufs[i].dev == ROOTDEV && (i !in c.dirty ==> c.bufs[i].data == At(c.logical, c.bufs[i].blockno)))
    && (forall i | i in c.dirty :: i < |c.bufs| && c.bufs[i].valid && c.bufs[i].locked)
    && (forall b: nat | b !in c.pins :: At(c.disk, b) == At(c.logical, b))
    && (forall b | b in c.pins :: c.pins[b] < |c.bufs| && c.bufs[c.pins[b]].valid && c.bufs[c.pins[b]].blockno == b)
  }

  ghost predicate Good(c: Cache) {
    |c.bufs| == |c.holders| == NBUF && Unique(c.bufs) && Counted(c) && Coherent(c)
  }

  // ----- the operations

  /** bget finds the block in buffer i and counts itself; it may have to wait for the lock. */
  function Awaited(c: Cache, i: nat): Cache
    requires i < |c.bufs| == |c.holders|
  {
    var b := c.bufs[i];
    c.(bufs := c.bufs[i := b.(refcnt := b.refcnt + 1)], holders := c.holders[i := c.holders[i] + 1])
  }

  /** bget recycles buffer i for blockno. */
  function Recycled(c: Cache, i: nat, blockno: nat): Cache
    requires i < |c.bufs| == |c.holders|
  {
    c.(bufs := c.bufs[i := Buf(ROOTDEV, blockno, false, false, 1, c.bufs[i].data)],
       holders := c.holders[i := c.holders[i] + 1])
  }

  /** A holder takes the sleep lock of buffer i. */
  function Acquired(c: Cache, i: nat): Cache
    requires i < |c.bufs|
  {
    c.(bufs := c.bufs[i := c.bufs[i].(locked := true)])
  }

  /** Buffers that someone waits for keep their block, and those that someone has locked stay as
      they are. */
  ghost predicate Undisturbed(c: Cache, c': Cache) {
    && |c'.bufs| == |c.bufs| == |c.holders| && c'.holders == c.holders
    && forall i | 0 <= i < |c.bufs| && c.holders[i] > 0 ::
         && c'.bufs[i].dev == c.bufs[i].dev && c'.bufs[i].blockno == c.bufs[i].blockno
         && c'.bufs[i].locked == c.bufs[i].locked && (c.bufs[i].locked ==> c'.bufs[i] == c.bufs[i])
  }

  /** bread reads the block of buffer i from the disk. */
  function Filled(c: Cache, i: nat): Cache
    requires i < |c.bufs|
  {
    var b := c.bufs[i];
    c.(bufs := c.bufs[i := b.(valid := true, data := At(c.disk, b.blockno))])
  }

  function Modified(c: Cache, i: nat, data: Block): Cache
    requires i < |c.bufs|
  {
    c.(bufs := c.bufs[i := c.bufs[i].(data := data)], dirty := c.dirty + {i})
  }

  /** bwrite. */
  function Written(c: Cache, i: nat): Cache
    requires i < |c.bufs|
  {
    var b := c.bufs[i];
    c.(disk := c.disk[b.blockno := b.data], logical := c.logical[b.blockno := b.data], dirty := c.dirty - {i})
  }

  function Released(c: Cache, i: nat): Cache
    requires i < |c.bufs| == |c.holders| && c.bufs[i].refcnt > 0 && c.holders[i] > 0
  {
    var b := c.bufs[i];
    c.(bufs := c.bufs[i := b.(refcnt := b.refcnt - 1, locked := false)],
       holders := c.holders[i := c.holders[i] - 1])
  }

  /** bpin, for a block that enters the log header. */
  function Pinned(c: Cache, i: nat): Cache
    requires i < |c.bufs|
  {
    var b := c.bufs[i];
    c.(bufs := c.bufs[i := b.(refcnt := b.refcnt + 1)], pins := c.pins[b.blockno := i])
  }

  /** bunpin, for a block that was installed. */
  function Unpinned(c: Cache, i: nat): Cache
    requires i < |c.bufs| && c.bufs[i].refcnt > 0
  {
    var b := c.bufs[i];
    c.(bufs := c.bufs[i := b.(refcnt := b.refcnt - 1)], pins := c.pins - {b.blockno})
  }

  /** The newest contents of a pinned block are now those of its buffer. */
  function Recorded(c: Cache, i: nat): Cache
    requires i < |c.bufs|
  {
    var b := c.bufs[i];
    c.(logical := c.logical[b.blockno := b.data], dirty := c.dirty - {i})
  }

  // ----- every operation keeps the cache good

  lemma OneBuffer(bufs: seq<Buf>, i: nat, j: nat, b: nat)
    requires Unique(bufs) && i < |bufs| && j < |bufs| && Caches(bufs[i], b) && Caches(bufs[j], b)
    ensures i == j
  {
  }

  /** Changes to other fields than the block number keep Unique. */
  lemma SameBlocks(bufs: seq<Buf>, i: nat, b: Buf)
    requires Unique(bufs) && i < |bufs| && b.dev == bufs[i].dev && b.blockno == bufs[i].blockno
    ensures Unique(bufs[i := b])
  {
    var bs := bufs[i := b];
    assert forall j, n | 0 <= j < |bufs| :: Caches(bs[j], n) == Caches(bufs[j], n);
  }

  lemma AwaitedGood(c: Cache, i: nat)
    requires Good(c) && i < NBUF
    ensures Good(Awaited(c, i))
  {
    var c' := Awaited(c, i);
    SameBlocks(c.bufs, i, c'.bufs[i]);
    forall k | 0 <= k < NBUF ensures Pin(c', k) == Pin(c, k) {
    }
  }

  lemma AcquiredGood(c: Cache, i: nat)
    requires Good(c) && i < NBUF && c.holders[i] > 0
    ensures Good(Acquired(c, i))
  {
    var c' := Acquired(c, i);
    SameBlocks(c.bufs, i, c'.bufs[i]);
    forall k | 0 <= k < NBUF ensures Pin(c', k) == Pin(c, k) {
    }
  }

  lemma RecycledGood(c: Cache, i: nat, blockno: nat)
    requires Good(c) && i < NBUF && c.bufs[i].refcnt == 0 && !Cached(c.bufs, blockno)
    ensures Good(Recycled(c, i, blockno))
  {
    forall b | b in c.pins ensures c.pins[b] != i {
      assert Pin(c, c.pins[b]) == 1;
    }
    assert !c.bufs[i].locked;
  }

  /** A block whose buffer is not valid is not pinned. */
  lemma InvalidNotPinned(c: Cache, i: nat)
    requires Good(c) && i < NBUF && !c.bufs[i].valid && c.bufs[i].dev == ROOTDEV
    ensures c.bufs[i].blockno !in c.pins
  {
    if c.bufs[i].blockno in c.pins {
      OneBuffer(c.bufs, i, c.pins[c.bufs[i].blockno], c.bufs[i].blockno);
    }
  }

  /** Reading from the disk gives the newest contents. */
  lemma FilledGood(c: Cache, i: nat)
    requires Good(c) && i < NBUF && !c.bufs[i].valid && c.bufs[i].dev == ROOTDEV
    ensures Good(Filled(c, i))
    ensures Filled(c, i).bufs[i].data == At(c.logical, c.bufs[i].blockno)
  {
    var d := Filled(c, i);
    InvalidNotPinned(c, i);
    SameBlocks(c.bufs, i, d.bufs[i]);
    hide Unique;
    assert forall j | 0 <= j < NBUF :: Pin(d, j) == Pin(c, j);
  }

  lemma ModifiedGood(c: Cache, i: nat, data: Block)
    requires Good(c) && i < NBUF && c.bufs[i].valid && c.bufs[i].locked
    ensures Good(Modified(c, i, data))
  {
    var d := Modified(c, i, data);
    SameBlocks(c.bufs, i, d.bufs[i]);
    hide Unique;
    assert forall j | 0 <= j < NBUF :: Pin(d, j) == Pin(c, j);
  }

  /** Other valid buffers hold other blocks. */
  lemma OtherBlocks(c: Cache, i: nat)
    requires Good(c) && i < NBUF && c.bufs[i].valid
    ensures forall j | 0 <= j < NBUF && j != i && c.bufs[j].valid :: c.bufs[j].blockno != c.bufs[i].blockno
  {
    forall j | 0 <= j < NBUF && j != i && c.bufs[j].valid ensures c.bufs[j].blockno != c.bufs[i].blockno {
      if c.bufs[j].blockno == c.bufs[i].blockno {
        OneBuffer(c.bufs, i, j, c.bufs[i].blockno);
      }
    }
  }

  lemma WrittenGood(c: Cache, i: nat)
    requires Good(c) && i < NBUF && c.bufs[i].valid
    ensures Good(Written(c, i))
  {
    hide Unique, Coherent;
    WrittenCoherent(c, i);
    var d := Written(c, i);
    assert forall j | 0 <= j < NBUF :: Pin(d, j) == Pin(c, j);
  }

  lemma WrittenCoherent(c: Cache, i: nat)
    requires Good(c) && i < NBUF && c.bufs[i].valid
    ensures Coherent(Written(c, i))
  {
    hide Unique, Counted;
    OtherBlocks(c, i);
    var d, b := Written(c, i), c.bufs[i].blockno;
    assert forall a: nat | a != b :: At(d.disk, a) == At(c.disk, a) && At(d.logical, a) == At(c.logical, a);
    assert At(d.disk, b) == At(d.logical, b) == c.bufs[i].data;
  }

  lemma ReleasedGood(c: Cache, i: nat)
    requires Good(c) && i < NBUF && c.holders[i] > 0 && i !in c.dirty
    ensures Good(Released(c, i))
  {
    var d := Released(c, i);
    SameBlocks(c.bufs, i, d.bufs[i]);
    hide Unique;
    assert forall j | 0 <= j < NBUF :: Pin(d, j) == Pin(c, j);
  }

  lemma PinnedGood(c: Cache, i: nat)
    requires Good(c) && i < NBUF && c.bufs[i].valid && c.bufs[i].blockno !in c.pins
    ensures Good(Pinned(c, i))
  {
    var d := Pinned(c, i);
    SameBlocks(c.bufs, i, d.bufs[i]);
    OtherBlocks(c, i);
    assert Counted(d) by {
      hide Unique, Coherent;
      assert forall j | 0 <= j < NBUF && j != i :: Pin(d, j) == Pin(c, j);
    }
    hide Unique, Counted;
  }

  lemma UnpinnedGood(c: Cache, i: nat)
    requires Good(c) && i < NBUF && Pin(c, i) == 1
    requires At(c.disk, c.bufs[i].blockno) == At(c.logical, c.bufs[i].blockno)
    ensures Good(Unpinned(c, i))
  {
    var d := Unpinned(c, i);
    SameBlocks(c.bufs, i, d.bufs[i]);
    assert Counted(d) by {
      hide Unique, Coherent;
      assert forall j | 0 <= j < NBUF && j != i :: Pin(d, j) == Pin(c, j);
    }
    hide Unique, Counted;
  }

  lemma RecordedGood(c: Cache, i: nat)
    requires Good(c) && i < NBUF && c.bufs[i].valid && c.bufs[i].blockno in c.pins
    ensures Good(Recorded(c, i))
  {
    var d := Recorded(c, i);
    OtherBlocks(c, i);
    hide Unique;
    assert forall j | 0 <= j < NBUF :: Pin(d, j) == Pin(c, j);
  }

  /** A buffer no one has locked holds the newest contents of its block. */
  lemma UnlockedIsClean(c: Cache, i: nat)
    requires Good(c) && i < NBUF && (!c.bufs[i].locked || c.bufs[i].refcnt == 0)
    ensures i !in c.dirty && !c.bufs[i].locked
    ensures c.bufs[i].valid ==> c.bufs[i].data == At(c.logical, c.bufs[i].blockno)
  {
  }

  lemma HoldersCount(c: Cache, i: nat)
    requires Good(c) && i < NBUF
    ensures c.bufs[i].refcnt >= c.holders[i] + Pin(c, i)
    ensures c.bufs[i].locked ==> c.holders[i] > 0
  {
  }
}
