/** One change to a block by an operation of the log: bread, the change, log_write and brelse, on a
    cache whose buffers nobody else has. An operation that keeps to its reservation always finds
    a buffer. */
module Transact {
  import opened Options
  import opened Sets
  import opened Disk
  import opened Ring
  import opened Cache
  import opened Bio
  import opened Crash
  import L = Log

  /** Nobody has a buffer. */
  ghost predicate Resting(c: Cache) {
    |c.holders| == NBUF && (forall i | 0 <= i < NBUF :: c.holders[i] == 0) && c.dirty == {}
  }

  lemma RestingUnlocked(c: Cache, start: nat, lh: seq<nat>, b: nat)
    requires Good(c) && Resting(c)
    ensures L.Quiet(c.bufs, start, lh) && Unlocked(c.bufs, b) && |c.bufs| == NBUF
  {
    hide Unique, Coherent;
  }

  lemma FreeRests(c: Cache)
    requires Good(c) && L.AllFree(c.bufs)
    ensures Resting(c)
  {
    hide Unique;
    assert forall i | i in c.dirty :: i < |c.bufs| && c.bufs[i].locked;
  }

  lemma NewIsFree(c: Cache)
    requires Good(c) && forall i | 0 <= i < |c.bufs| :: c.bufs[i] == Buf(0, 0, false, false, 0, ZERO)
    ensures L.AllFree(c.bufs)
  {
    L.PinnedSize(c);
  }

  /** Fewer pins than buffers leave a buffer free. */
  lemma RoomLeft(c: Cache)
    requires Good(c) && Resting(c) && |c.pins| < NBUF
    ensures SomeFree(c.bufs)
  {
    hide Good, Range, Reaches;
    L.PinnedSize(c);
    L.PinsApart(c);
    var used := InjectiveSize(c.pins);
    if forall i: nat | i < NBUF :: i in used {
      SubsetSize(Range(NBUF), used);
      assert false;
    }
    var i: nat :| i < NBUF && i !in used;
    NotReached(c, i);
  }

  lemma NotReached(c: Cache, i: nat)
    requires Good(c) && Resting(c) && i < NBUF && !Reaches(c.pins, i)
    ensures c.bufs[i].refcnt == 0
  {
    hide Unique, Coherent;
  }

  lemma RestingAgain(c: Cache, i: nat, c': Cache)
    requires Resting(c) && i < NBUF && c'.dirty == {}
    requires c'.holders == c.holders[i := c.holders[i] + 1][i := c.holders[i]]
    ensures Resting(c')
  {
  }

  lemma RestingStill(c: Cache, c': Cache)
    requires Resting(c) && c'.holders == c.holders && c'.dirty == c.dirty
    ensures Resting(c')
  {
  }

  lemma PinCount(c: Cache, start: nat, lh: seq<nat>)
    requires HomesOk(start, lh) && c.pins.Keys == SetOf(lh)
    ensures |c.pins| == |lh|
  {
    L.HomesCount(start, lh);
    assert |c.pins| == |c.pins.Keys|;
  }

  /** A block that p may still add to the log has a buffer. */
  lemma Reachable(log: L.Log, p: nat, b: nat)
    requires log.Valid() && Resting(log.cache.State()) && p in log.left && log.left[p] > 0
    ensures Unlocked(log.cache.buf, b) && SomeFree(log.cache.buf) && |log.cache.buf| == NBUF && |log.lh| < LOGBLOCKS
    ensures log.cache.dirty == {} && |log.cache.holders| == NBUF
  {
    hide Good, Listed, RunTrace, Apply, Sum, HeadCount, TxnsOk, HomesOk, SetOf, SomeFree, Unlocked, L.Quiet;
    SumWithout(log.left, p);
    RestingUnlocked(log.cache.State(), log.start, log.lh, b);
    PinCount(log.cache.State(), log.start, log.lh);
    RoomLeft(log.cache.State());
  }

  method Update(log: L.Log, p: nat, b: nat, data: Block)
    requires log.Valid() && Resting(log.cache.State()) && p in log.left && log.left[p] > 0
    requires b < WORD_LIMIT && !InLog(log.start, b)
    modifies log`lh, log`left, log.cache
    ensures log.Valid() && Resting(log.cache.State())
    ensures log.cache.logical == old(log.cache.logical)[b := data]
    ensures log.lh == if b in old(log.lh) then old(log.lh) else old(log.lh) + [b]
    ensures log.left == if b in old(log.lh) then old(log.left) else old(log.left)[p := old(log.left)[p] - 1]
    ensures log.cache.trace == old(log.cache.trace) && log.cache.disk == old(log.cache.disk)
  {
    hide Good, Listed, LruSorted, RunTrace, Apply, Sum, HeadCount, TxnsOk, Resting, Unlocked, SomeFree, Cached;
    hide SetOf, HomesOk;
    ghost var c := log.cache.State();
    Reachable(log, p, b);
    var r := log.cache.Bread(b);
    log.cache.Modify(r.value, data);
    var ok := log.LogWrite(p, r.value);
    log.cache.Brelse(r.value);
    RestingAgain(c, r.value, log.cache.State());
  }
}
