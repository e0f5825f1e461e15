/** A log that operations within their limits fill, and whose commit then finds no buffer: NBUF
    equals LOGBLOCKS, so the blocks of a full log pin every buffer of the cache. */
module FullLog {
  import opened Disk
  import opened Bio
  import opened Cache
  import opened Crash
  import opened Sets
  import opened Transact
  import L = Log

  const OPERATIONS: nat := LOGBLOCKS / L.MAXOPBLOCKS

  /** The n blocks behind the log. */
  function Behind(start: nat, n: nat): (lh: seq<nat>)
    ensures |lh| == n && forall i | 0 <= i < n :: lh[i] == start + LOGBLOCKS + 1 + i
  {
    seq(n, i => start + LOGBLOCKS + 1 + i)
  }

  lemma BehindNext(start: nat, n: nat)
    ensures Behind(start, n) + [start + LOGBLOCKS + 1 + n] == Behind(start, n + 1)
    ensures start + LOGBLOCKS + 1 + n !in Behind(start, n)
  {
  }

  /** Operation p adds as many blocks to the log as it may. */
  method WriteAll(log: L.Log, p: nat, ghost n: nat)
    requires log.Valid() && Resting(log.cache.State()) && log.start + 2 * LOGBLOCKS < WORD_LIMIT
    requires p in log.left && log.left[p] == L.MAXOPBLOCKS
    requires log.lh == Behind(log.start, n) && n + L.MAXOPBLOCKS <= LOGBLOCKS
    modifies log`lh, log`left, log.cache
    ensures log.Valid() && Resting(log.cache.State()) && log.lh == Behind(log.start, n + L.MAXOPBLOCKS)
    ensures log.left == old(log.left)[p := 0] && log.cache.trace == old(log.cache.trace)
  {
    hide Behind, Resting, Good, Listed, RunTrace, Apply, Sum, HeadCount, TxnsOk, HomesOk, SetOf;
    for i := 0 to L.MAXOPBLOCKS
      invariant log.Valid() && Resting(log.cache.State()) && log.lh == Behind(log.start, n + i)
      invariant log.left == old(log.left)[p := L.MAXOPBLOCKS - i] && log.cache.trace == old(log.cache.trace)
    {
      BehindNext(log.start, n + i);
      Update(log, p, log.start + LOGBLOCKS + 1 + |log.lh|, ZERO);
    }
  }

  /** Of n operations the first k have written all they may, the others nothing. */
  ghost predicate Inside(left: map<nat, nat>, k: nat, n: nat) {
    && left.Keys == Range(n)
    && forall p: nat | p < n :: left[p] == if p < k then 0 else L.MAXOPBLOCKS
  }

  lemma NoneInside(left: map<nat, nat>)
    requires left == map[]
    ensures Inside(left, 0, 0)
  {
    assert left.Keys == {};
  }

  lemma OneMoreInside(left: map<nat, nat>, n: nat)
    requires Inside(left, 0, n)
    ensures n !in left && |left| == n && Inside(left[n := L.MAXOPBLOCKS], 0, n + 1)
  {
    hide Range;
    assert |left| == |left.Keys|;
    assert left[n := L.MAXOPBLOCKS].Keys == Range(n + 1);
  }

  lemma OneMoreDone(left: map<nat, nat>, k: nat, n: nat)
    requires Inside(left, k, n) && k < n
    ensures k in left && left[k] == L.MAXOPBLOCKS && Inside(left[k := 0], k + 1, n)
  {
    hide Range;
    assert k in left.Keys;
    assert left[k := 0].Keys == Range(n);
  }

  lemma OneFewerInside(left: map<nat, nat>, n: nat)
    requires Inside(left, n + 1, n + 1)
    ensures n in left && Inside(left - {n}, n, n)
  {
    hide Range;
    assert n in left.Keys;
    assert (left - {n}).Keys == Range(n);
  }

  /** Fill an idle log and commit: as many operations as the log admits, each adding no more blocks
      than it reserved, and the commit panics before its first write. */
  method Fill(log: L.Log) returns (ok: bool)
    requires log.Valid() && log.lh == [] && log.left == map[] && !log.committing && Resting(log.cache.State())
    requires log.start + 2 * LOGBLOCKS < WORD_LIMIT
    modifies log, log.cache
    ensures !ok && log.cache.trace == old(log.cache.trace) && log.done == old(log.done) && log.boot == old(log.boot)
  {
    hide Behind, Resting, Inside, Good, Listed, RunTrace, Apply, Sum, HeadCount, TxnsOk, HomesOk, SetOf;
    BeginAll(log);
    WriteEach(log);
    EndAll(log);
    RestingUnlocked(log.cache.State(), log.start, log.lh, 0);
    L.FullLogIsStuck(log.cache.State(), log.start, log.lh);
    ghost var k;
    ok, k := log.Commit();
    assert log.cache.trace == old(log.cache.trace) + [];
  }

  method BeginAll(log: L.Log)
    requires log.Valid() && log.lh == [] && log.left == map[] && !log.committing
    modifies log`outstanding, log`left
    ensures log.Valid() && Inside(log.left, 0, OPERATIONS)
  {
    hide Good, Listed, RunTrace, Apply, Sum, HeadCount, TxnsOk, HomesOk, SetOf, Inside;
    NoneInside(log.left);
    for p := 0 to OPERATIONS
      invariant log.Valid() && Inside(log.left, 0, p)
    {
      OneMoreInside(log.left, p);
      var ok := log.BeginOp(p);
    }
  }

  method WriteEach(log: L.Log)
    requires log.Valid() && log.lh == [] && Inside(log.left, 0, OPERATIONS) && Resting(log.cache.State())
    requires log.start + 2 * LOGBLOCKS < WORD_LIMIT
    modifies log`lh, log`left, log.cache
    ensures log.Valid() && Inside(log.left, OPERATIONS, OPERATIONS) && Resting(log.cache.State())
    ensures |log.lh| == LOGBLOCKS && log.cache.trace == old(log.cache.trace)
  {
    hide Resting, Good, Listed, RunTrace, Apply, Sum, HeadCount, TxnsOk, HomesOk, SetOf, Inside;
    for p := 0 to OPERATIONS
      invariant log.Valid() && Inside(log.left, p, OPERATIONS) && Resting(log.cache.State())
      invariant log.lh == Behind(log.start, p * L.MAXOPBLOCKS) && log.cache.trace == old(log.cache.trace)
    {
      OneMoreDone(log.left, p, OPERATIONS);
      WriteAll(log, p, p * L.MAXOPBLOCKS);
    }
  }

  method EndAll(log: L.Log)
    requires log.Valid() && Inside(log.left, OPERATIONS, OPERATIONS)
    modifies log`outstanding, log`committing, log`left
    ensures log.Valid() && log.committing
  {
    hide Good, Listed, RunTrace, Apply, Sum, HeadCount, TxnsOk, HomesOk, SetOf, Inside;
    for p := OPERATIONS downto 0
      invariant log.Valid() && Inside(log.left, p, p) && (p < OPERATIONS ==> (log.committing <==> log.left == map[]))
    {
      OneFewerInside(log.left, p);
      var last := log.EndOp(p);
    }
    EmptyInside(log.left);
  }

  lemma EmptyInside(left: map<nat, nat>)
    requires Inside(left, 0, 0)
    ensures left == map[]
  {
    assert left.Keys == {};
  }

  /** So it happens to a kernel that has just booted from a disk whose log starts at block 2. */
  method Boot() returns (log: L.Log, ok: bool)
    ensures !ok && log.done == [] && log.cache.trace == log.boot
  {
    hide Good, Listed, LruSorted, Apply, RunTrace, TxnsOk, RecoverTrace, Recover, L.AllFree, Resting;
    var cache := new Bcache(map[]);
    NewIsFree(cache.State());
    log := new L.Log(cache, 2);
    FreeRests(cache.State());
    ok := Fill(log);
  }
}
