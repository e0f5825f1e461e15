/** The redo log of log.c on top of the buffer cache: admission of operations against the
    space left in the log, absorption of repeated writes, group commit and recovery. */
module Log {
  import opened Options
  import opened Sets
  import opened Disk
  import opened Ring
  import opened Cache
  import opened Bio
  import opened Crash

  const MAXOPBLOCKS: nat := 10

  // ----- values the log works with

  /** The newest contents of the blocks lh. */
  function Newest(logical: Image, lh: seq<nat>): (data: seq<Block>)
    ensures |data| == |lh|
    ensures forall i | 0 <= i < |lh| :: data[i] == At(logical, lh[i])
  {
    if lh == [] then [] else Newest(logical, lh[..|lh| - 1]) + [At(logical, lh[|lh| - 1])]
  }

  /** No one holds the lock of a log block or of a logged block. */
  predicate Quiet(bufs: seq<Buf>, start: nat, lh: seq<nat>) {
    forall i | 0 <= i < |bufs| && bufs[i].dev == ROOTDEV && bufs[i].locked ::
      !InLog(start, bufs[i].blockno) && bufs[i].blockno !in lh
  }

  /** No buffer has gained a holder or a pin. */
  predicate CountsBelow(bufs: seq<Buf>, bufs': seq<Buf>) {
    |bufs| == |bufs'| && forall i | 0 <= i < |bufs| :: bufs'[i].refcnt <= bufs[i].refcnt
  }

  lemma PinnedIsCached(c: Cache, b: nat)
    requires Good(c) && b in c.pins
    ensures Cached(c.bufs, b)
  {
    assert Caches(c.bufs[c.pins[b]], b);
  }

  lemma PinIs(c: Cache, i: nat, b: nat)
    requires Good(c) && b in c.pins && i < NBUF && Caches(c.bufs[i], b)
    ensures Pin(c, i) == 1
  {
    OneBuffer(c.bufs, i, c.pins[b], b);
  }

  lemma QuietUnlocked(bufs: seq<Buf>, start: nat, lh: seq<nat>, b: nat)
    requires Quiet(bufs, start, lh) && (InLog(start, b) || b in lh)
    ensures Unlocked(bufs, b)
  {
  }

  lemma QuietPair(bufs: seq<Buf>, start: nat, lh: seq<nat>, k: nat)
    requires Quiet(bufs, start, lh) && HomesOk(start, lh) && k < |lh|
    ensures Unlocked(bufs, start + k + 1) && Unlocked(bufs, lh[k])
  {
    hide Quiet, Unlocked;
    QuietUnlocked(bufs, start, lh, start + k + 1);
    QuietUnlocked(bufs, start, lh, lh[k]);
  }

  class Log {
    const cache: Bcache
    const start: nat
    var lh: seq<nat>
    var outstanding: nat
    var committing: bool
    var left: map<nat, nat>          // operations between begin_op and end_op, and what each may still add

    ghost var boot: seq<Write>       // the writes up to the end of recovery
    ghost var base: Image            // the disk at that point
    ghost var done: seq<Txn>         // the transactions committed since

    /** The log as every caller outside commit and recovery sees it. */
    ghost predicate Valid()
      reads this, cache
    {
      && cache.Valid()
      && HomesOk(start, lh)
      && cache.pins.Keys == SetOf(lh)
      && HeadCount(cache.disk, start) == 0
      && Reserved()
      && History(cache.trace, cache.disk)
    }

    /** Everything written since recovery are the commits of done, one after another. */
    ghost predicate History(trace: seq<Write>, disk: Image)
      reads this
    {
      && TxnsOk(start, done) && HeadCount(base, start) == 0
      && trace == boot + RunTrace(start, base, done)
      && disk == Apply(base, RunTrace(start, base, done))
    }

    /** What is in the log and what the running operations may still add fits the log;
        nothing runs during a commit. */
    ghost predicate Reserved()
      reads this
    {
      && outstanding == |left|
      && (forall p | p in left :: left[p] <= MAXOPBLOCKS)
      && |lh| + Sum(left) <= LOGBLOCKS
      && (committing ==> outstanding == 0)
    }

    /** The transaction that a commit would write. */
    ghost function Pending(): Txn
      reads this, cache
    {
      Txn(lh, Newest(cache.logical, lh))
    }

    /** initlog: recover whatever the disk holds, on an empty cache. */
    constructor (c: Bcache, s: nat)
      requires c.Valid() && c.Lru() && c.pins == map[] && c.logical == c.disk && AllFree(c.buf)
      requires Recoverable(c.disk, s)
      modifies c
      ensures Valid() && cache == c && start == s && cache.Lru() && AllFree(c.buf)
      ensures lh == [] && outstanding == 0 && !committing && left == map[]
      ensures c.trace == boot == old(c.trace) + RecoverTrace(s, old(c.disk))
      ensures c.disk == c.logical == base == Recover(s, old(c.disk)) && done == []
    {
      hide Good, Listed, LruSorted, Apply, RecoverTrace, Recover, RunTrace, TxnOk, AllFree, Head, HeadCount, HeadOk;
      cache, start, lh, outstanding, committing, left := c, s, [], 0, false, map[];
      boot, base, done := [], map[], [];
      new;
      RecoverFromLog();
      boot, base := cache.trace, cache.disk;
      NoRun(start, base);
    }

    method RecoverFromLog()
      requires cache.Valid() && cache.Lru() && cache.pins == map[] && cache.logical == cache.disk && AllFree(cache.buf)
      requires Recoverable(cache.disk, start)
      requires outstanding == 0 && !committing && left == map[]
      modifies cache, `lh
      ensures cache.Valid() && cache.Lru() && lh == [] && AllFree(cache.buf) && cache.pins == map[]
      ensures HeadCount(cache.disk, start) == 0
      ensures cache.trace == old(cache.trace) + RecoverTrace(start, old(cache.disk))
      ensures cache.disk == cache.logical == Recover(start, old(cache.disk))
    {
      hide Good, Listed, LruSorted, AllFree, Apply, InstallWrites, Logged, HeadBlock, RecoverTrace, Recover;
      ReadHead();
      Reinstall();
      RecoveredAt(start, old(cache.disk));
      Clear();
    }

    /** install_trans(1) on an idle cache never runs out of buffers. */
    method Reinstall()
      requires cache.Valid() && cache.Lru() && cache.logical == cache.disk && AllFree(cache.buf) && HomesOk(start, lh)
      modifies cache
      ensures cache.Valid() && cache.Lru() && AllFree(cache.buf) && cache.pins == old(cache.pins)
      ensures var ws := InstallWrites(lh, Logged(old(cache.disk), start, |lh|));
              && cache.trace == old(cache.trace) + ws
              && cache.disk == cache.logical == Apply(old(cache.disk), ws)
    {
      hide Unique, Counted, Coherent, Listed, LruSorted, Apply, InstallWrites, Logged, HomesOk, AllFree;
      hide CountsBelow, Quiet;
      AllFreeQuiet(cache.buf, start, lh);
      ghost var ws := InstallWrites(lh, Logged(cache.disk, start, |lh|));
      var ok, k := InstallTrans(true);
      assert ws[..|lh|] == ws;
      AllFreeBelow(old(cache.buf), cache.State());
    }

    /** Write an empty header. */
    method Clear()
      requires cache.Valid() && cache.Lru() && cache.logical == cache.disk && AllFree(cache.buf)
      modifies cache, `lh
      ensures cache.Valid() && cache.Lru() && AllFree(cache.buf) && lh == [] && cache.pins == old(cache.pins)
      ensures var w := Write(start, HeadBlock(At(old(cache.disk), start), []));
              cache.trace == old(cache.trace) + [w] && cache.disk == cache.logical == old(cache.disk)[start := w.data]
    {
      hide Unique, Counted, Coherent, Listed, LruSorted, AllFree, CountsBelow, Quiet, HeadBlock;
      lh := [];
      AllFreeQuiet(cache.buf, start, lh);
      QuietUnlocked(cache.buf, start, lh, start);
      var ok := WriteHead();
      AllFreeBelow(old(cache.buf), cache.State());
    }

    /** read_head: copy the header entries of the disk into lh. */
    method ReadHead()
      requires cache.Valid() && cache.Lru() && cache.logical == cache.disk && AllFree(cache.buf)
      requires HeadOk(cache.disk, start)
      modifies cache, `lh
      ensures cache.Valid() && cache.Lru() && AllFree(cache.buf)
      ensures cache.disk == old(cache.disk) == cache.logical && cache.pins == old(cache.pins)
      ensures cache.trace == old(cache.trace)
      ensures lh == Head(cache.disk, start)
    {
      hide Unique, Counted, Coherent, Listed, LruSorted;
      AllFreeQuiet(cache.buf, start, []);
      QuietUnlocked(cache.buf, start, [], start);
      var r := cache.Bread(start);
      var hb := cache.buf[r.value].data;
      lh := [];
      for i := 0 to hb[0]
        invariant lh == hb[1..1 + i]
        modifies `lh
      {
        lh := lh + [hb[1 + i]];
      }
      cache.Brelse(r.value);
    }

    /** Read a log block and a home block. */
    method ReadPair(a: nat, b: nat) returns (r: Option<(nat, nat)>)
      requires cache.Valid() && a != b && Unlocked(cache.buf, a) && Unlocked(cache.buf, b)
      modifies cache
      ensures cache.Valid() && (old(cache.Lru()) ==> cache.Lru())
      ensures cache.disk == old(cache.disk) && cache.trace == old(cache.trace) && cache.logical == old(cache.logical)
      ensures cache.pins == old(cache.pins) && cache.dirty == old(cache.dirty)
      ensures r == None ==> !SomeFree(old(cache.buf)) || (b !in cache.pins && !TwoFree(old(cache.buf)))
      ensures Stuck(old(cache.buf), a) ==> r == None
      ensures b in cache.pins ==> (r == None <==> Stuck(old(cache.buf), a))
      ensures r.Some? ==>
                var (i, j) := r.value;
                && i < NBUF && j < NBUF && i != j && i !in cache.dirty && j !in cache.dirty
                && cache.buf == old(cache.buf)[i := Reading(old(cache.buf)[i], a, At(cache.logical, a))]
                                              [j := Reading(old(cache.buf)[j], b, At(cache.logical, b))]
                && cache.holders == old(cache.holders)[i := old(cache.holders)[i] + 1][j := old(cache.holders)[j] + 1]
                && (!SomeFree(old(cache.buf)) ==> Caches(old(cache.buf)[i], a) && Caches(old(cache.buf)[j], b))
                && (old(cache.buf)[i].refcnt > 0 ==> Caches(old(cache.buf)[i], a))
                && (old(cache.buf)[j].refcnt > 0 ==> Caches(old(cache.buf)[j], b))
                && (old(cache.buf)[i].refcnt > 0 ==> Caches(old(cache.buf)[i], a))
                && (old(cache.buf)[j].refcnt > 0 ==> Caches(old(cache.buf)[j], b))
    {
      hide Unique, Counted, Coherent, Linked, LruSorted;
      var x := cache.Bread(a);
      if x == None {
        return None;
      }
      if b in cache.pins { PinnedIsCached(cache.State(), b); }
      var y := cache.Bread(b);
      if y == None {
        FreeRemains(old(cache.buf), x.value, Reading(old(cache.buf)[x.value], a, At(cache.logical, a)));
        return None;
      }
      return Some((x.value, y.value));
    }

    /** Change the contents of a locked buffer and write it to the disk. */
    method Overwrite(i: nat, data: Block)
      requires cache.Valid() && i < NBUF && cache.buf[i].valid && cache.buf[i].locked && i !in cache.dirty
      modifies cache
      ensures cache.Valid() && (old(cache.Lru()) ==> cache.Lru())
      ensures var b := old(cache.buf)[i].blockno;
              && cache.buf == old(cache.buf)[i := old(cache.buf)[i].(data := data)]
              && cache.trace == old(cache.trace) + [Write(b, data)]
              && cache.disk == old(cache.disk)[b := data] && cache.logical == old(cache.logical)[b := data]
      ensures cache.pins == old(cache.pins) && cache.dirty == old(cache.dirty) && cache.holders == old(cache.holders)
    {
      hide Unique, Counted, Coherent, Linked, LruSorted;
      cache.Modify(i, data);
      cache.Bwrite(i);
    }

    method ReleasePair(i: nat, j: nat)
      requires cache.Valid() && i < NBUF && j < NBUF && i != j
      requires cache.buf[i].locked && cache.buf[j].locked && i !in cache.dirty && j !in cache.dirty
      modifies cache
      ensures cache.Valid() && (old(cache.Lru()) ==> cache.Lru())
      ensures cache.disk == old(cache.disk) && cache.trace == old(cache.trace) && cache.logical == old(cache.logical)
      ensures cache.pins == old(cache.pins) && cache.dirty == old(cache.dirty)
      ensures old(cache.buf)[i].refcnt > 0 && old(cache.buf)[j].refcnt > 0
      ensures cache.buf == old(cache.buf)[i := Dropped(old(cache.buf)[i])][j := Dropped(old(cache.buf)[j])]
      ensures old(cache.holders)[i] > 0 && old(cache.holders)[j] > 0
      ensures cache.holders == old(cache.holders)[i := old(cache.holders)[i] - 1][j := old(cache.holders)[j] - 1]
    {
      hide Unique, Counted, Coherent, Linked, LruSorted;
      cache.Brelse(i);
      cache.Brelse(j);
    }

    /** One iteration of write_log; false is the panic of bget. */
    method WriteLogBlock(tail: nat) returns (ok: bool)
      requires cache.Valid() && HomesOk(start, lh) && tail < |lh| && lh[tail] in cache.pins
      requires Unlocked(cache.buf, start + tail + 1) && Unlocked(cache.buf, lh[tail])
      modifies cache
      ensures cache.Valid() && (old(cache.Lru()) ==> cache.Lru())
      ensures !ok ==> !SomeFree(old(cache.buf)) && cache.trace == old(cache.trace) && cache.disk == old(cache.disk)
      ensures !ok <==> Stuck(old(cache.buf), start + tail + 1)
      ensures ok ==> Still(old(cache.buf), cache.buf, true)
      ensures ok ==>
                var w := Write(start + tail + 1, At(old(cache.logical), lh[tail]));
                && cache.trace == old(cache.trace) + [w]
                && cache.disk == old(cache.disk)[w.block := w.data]
                && cache.logical == old(cache.logical)[w.block := w.data]
                && cache.pins == old(cache.pins) && cache.holders == old(cache.holders)
                && cache.dirty == old(cache.dirty)
                && CountsBelow(old(cache.buf), cache.buf)
                && (Quiet(old(cache.buf), start, lh) ==> Quiet(cache.buf, start, lh))
                && Undisturbed(old(cache.State()), cache.State())
    {
      hide Unique, Counted, Coherent, Linked, LruSorted, Quiet, CountsBelow, Undisturbed, Still, Stuck, SomeFree;
      hide TwoFree;
      hide HomesOk, InLog, Unlocked;
      HomeApart(start, lh, tail);
      var r := ReadPair(start + tail + 1, lh[tail]);
      if r == None {
        return false;
      }
      var (to, from) := r.value;
      Overwrite(to, cache.buf[from].data);
      ReleasePair(from, to);
      PairEnd(old(cache.State()), cache.State(), start, lh, to, start + tail + 1, from, lh[tail], 0);
      return true;
    }

    /** Unpin the buffer of an installed block while it is still held. */
    method Unpin(i: nat, b: nat)
      requires cache.Valid() && i < NBUF && Caches(cache.buf[i], b) && cache.buf[i].locked && b in cache.pins
      requires At(cache.disk, b) == At(cache.logical, b)
      modifies cache
      ensures cache.Valid() && (old(cache.Lru()) ==> cache.Lru())
      ensures old(cache.buf)[i].refcnt > 0
      ensures cache.buf == old(cache.buf)[i := old(cache.buf)[i].(refcnt := old(cache.buf)[i].refcnt - 1)]
      ensures cache.pins == old(cache.pins) - {b}
      ensures cache.disk == old(cache.disk) && cache.trace == old(cache.trace) && cache.logical == old(cache.logical)
      ensures cache.holders == old(cache.holders) && cache.dirty == old(cache.dirty)
    {
      hide Unique, Counted, Coherent, Linked, LruSorted;
      PinIs(cache.State(), i, b);
      HoldersCount(cache.State(), i);
      cache.Bunpin(i);
    }

    /** Copy a log block that is held to its home block b, which is held as well, and release both. */
    method CopyHome(i: nat, j: nat, b: nat, recovering: bool)
      requires cache.Valid() && i < NBUF && j < NBUF && i != j && i !in cache.dirty && j !in cache.dirty
      requires cache.buf[i].locked && cache.buf[j].locked && cache.buf[j].valid && Caches(cache.buf[j], b)
      requires !recovering ==> b in cache.pins
      modifies cache
      ensures cache.Valid() && (old(cache.Lru()) ==> cache.Lru())
      ensures var w, x, y := Write(b, old(cache.buf)[i].data), old(cache.buf)[i], old(cache.buf)[j];
              var less := if recovering then 1 else 2;
              && cache.trace == old(cache.trace) + [w] && cache.disk == old(cache.disk)[b := w.data]
              && cache.logical == old(cache.logical)[b := w.data] && x.refcnt >= 1 && y.refcnt >= less
              && cache.buf == old(cache.buf)[i := x.(locked := false, refcnt := x.refcnt - 1)]
                                            [j := y.(locked := false, refcnt := y.refcnt - less, data := w.data)]
      ensures cache.pins == (if recovering then old(cache.pins) else old(cache.pins) - {b})
      ensures cache.dirty == old(cache.dirty)
      ensures old(cache.holders)[i] > 0 && old(cache.holders)[j] > 0
      ensures cache.holders == old(cache.holders)[i := old(cache.holders)[i] - 1][j := old(cache.holders)[j] - 1]
    {
      hide Unique, Counted, Coherent, Linked, LruSorted;
      Overwrite(j, cache.buf[i].data);
      if !recovering {
        Unpin(j, b);
      }
      ReleasePair(i, j);
    }

    /** One iteration of install_trans; false is the panic of bget. */
    method InstallBlock(tail: nat, recovering: bool) returns (ok: bool)
      requires cache.Valid() && HomesOk(start, lh) && tail < |lh|
      requires !recovering ==> lh[tail] in cache.pins
      requires Unlocked(cache.buf, start + tail + 1) && Unlocked(cache.buf, lh[tail])
      modifies cache
      ensures cache.Valid() && (old(cache.Lru()) ==> cache.Lru())
      ensures !ok ==> !SomeFree(old(cache.buf)) || (recovering && !TwoFree(old(cache.buf)))
      ensures !ok ==> cache.trace == old(cache.trace) && cache.disk == old(cache.disk)
      ensures !recovering && !ok ==> Stuck(old(cache.buf), start + tail + 1)
      ensures ok ==> Still(old(cache.buf), cache.buf, recovering)
      ensures ok ==>
                var w := Write(lh[tail], At(old(cache.logical), start + tail + 1));
                && cache.trace == old(cache.trace) + [w]
                && cache.disk == old(cache.disk)[w.block := w.data]
                && cache.logical == old(cache.logical)[w.block := w.data]
                && cache.pins == (if recovering then old(cache.pins) else old(cache.pins) - {lh[tail]})
                && cache.holders == old(cache.holders) && cache.dirty == old(cache.dirty)
                && CountsBelow(old(cache.buf), cache.buf)
                && (Quiet(old(cache.buf), start, lh) ==> Quiet(cache.buf, start, lh))
                && Undisturbed(old(cache.State()), cache.State())
    {
      hide Unique, Counted, Coherent, Linked, LruSorted, Quiet, CountsBelow, Undisturbed, Still, Stuck, SomeFree;
      hide TwoFree;
      hide HomesOk, InLog, Unlocked;
      HomeApart(start, lh, tail);
      var r := ReadPair(start + tail + 1, lh[tail]);
      if r == None {
        return false;
      }
      var (lbuf, dbuf) := r.value;
      CopyHome(lbuf, dbuf, lh[tail], recovering);
      PairEnd(old(cache.State()), cache.State(), start, lh, lbuf, start + tail + 1, dbuf, lh[tail],
          if recovering then 0 else 1);
      return true;
    }

    /** write_head: the header block on disk now lists lh. */
    method WriteHead() returns (ok: bool)
      requires cache.Valid() && HomesOk(start, lh) && Unlocked(cache.buf, start)
      modifies cache
      ensures cache.Valid() && (old(cache.Lru()) ==> cache.Lru())
      ensures !ok ==> !SomeFree(old(cache.buf)) && cache.trace == old(cache.trace) && cache.disk == old(cache.disk)
      ensures !ok <==> Stuck(old(cache.buf), start)
      ensures ok ==> Still(old(cache.buf), cache.buf, true)
      ensures ok ==>
                var w := Write(start, HeadBlock(At(old(cache.logical), start), lh));
                && cache.trace == old(cache.trace) + [w]
                && cache.disk == old(cache.disk)[w.block := w.data]
                && cache.logical == old(cache.logical)[w.block := w.data]
                && cache.pins == old(cache.pins) && cache.holders == old(cache.holders)
                && cache.dirty == old(cache.dirty)
                && CountsBelow(old(cache.buf), cache.buf)
                && (Quiet(old(cache.buf), start, lh) ==> Quiet(cache.buf, start, lh))
                && Undisturbed(old(cache.State()), cache.State())
    {
      hide Unique, Counted, Coherent, Linked, LruSorted, Quiet, CountsBelow, Undisturbed, HeadBlock;
      var r := cache.Bread(start);
      if r == None {
        return false;
      }
      var b := r.value;
      Overwrite(b, HeadBlock(cache.buf[b].data, lh));
      cache.Brelse(b);
      PairDone(old(cache.buf), cache.buf, start, lh, b, b);
      PairUndisturbed(old(cache.State()), cache.State(), b, b);
      StillPair(old(cache.buf), cache.buf, b, b, true);
      return true;
    }

    /** write_log: copy the newest contents of the logged blocks into the log area. k is how
        many were copied before the panic of bget, if it happened. */
    method WriteLog() returns (ok: bool, ghost k: nat)
      requires cache.Valid() && HomesOk(start, lh) && (forall b | b in lh :: b in cache.pins)
      requires Quiet(cache.buf, start, lh)
      modifies cache
      ensures cache.Valid() && (old(cache.Lru()) ==> cache.Lru())
      ensures k <= |lh| && (ok ==> k == |lh|) && (!ok ==> !SomeFree(old(cache.buf)))
      ensures |lh| > 0 && Stuck(old(cache.buf), start + 1) ==> !ok && k == 0
      ensures ok <==> Ready(old(cache.buf), start + 1, start + |lh|)
      ensures ok ==> Still(old(cache.buf), cache.buf, true)
      ensures var ws := LogWrites(start, Newest(old(cache.logical), lh))[..k];
              && cache.trace == old(cache.trace) + ws
              && cache.disk == Apply(old(cache.disk), ws)
              && (ok ==> cache.logical == Apply(old(cache.logical), ws))
      ensures ok ==>
                cache.pins == old(cache.pins) && cache.holders == old(cache.holders) && cache.dirty == old(cache.dirty)
      ensures ok ==> CountsBelow(old(cache.buf), cache.buf) && Quiet(cache.buf, start, lh)
    {
      hide Stuck, Good, Listed, LruSorted, Quiet, HomesOk, Apply, LogWrites, Still, Ready, Cached, SomeFree;
      hide CountsBelow, At, Newest;
      StillSelf(cache.buf);
      ReadyNone(cache.buf, start);
      ghost var ws := LogWrites(start, Newest(cache.logical, lh));
      var tail := 0;
      k := 0;
      ApplyNothing(cache.disk, ws);
      ApplyNothing(cache.logical, ws);
      CountsSelf(cache.buf);
      while tail < |lh|
        invariant k == tail <= |lh|
        invariant k == 0 ==> cache.buf == old(cache.buf)
        invariant k > 0 ==> !Stuck(old(cache.buf), start + 1)
        invariant Still(old(cache.buf), cache.buf, true) && Ready(old(cache.buf), start + 1, start + k)
        invariant cache.Valid() && (old(cache.Lru()) ==> cache.Lru())
        invariant cache.trace == old(cache.trace) + ws[..k]
        invariant cache.disk == Apply(old(cache.disk), ws[..k]) && cache.logical == Apply(old(cache.logical), ws[..k])
        invariant cache.pins == old(cache.pins) && cache.holders == old(cache.holders)
        invariant cache.dirty == old(cache.dirty)
        invariant CountsBelow(old(cache.buf), cache.buf) && Quiet(cache.buf, start, lh)
      {
        ghost var buf := cache.buf;
        LogWritesSpare(start, old(cache.logical), lh, k);
        QuietPair(cache.buf, start, lh, tail);
        var done := WriteLogBlock(tail);
        StillStuck(old(cache.buf), buf, start + tail + 1);
        if !done {
          CountsFree(old(cache.buf), buf);
          StuckIs(buf, start + tail + 1);
          ReadyAt(old(cache.buf), start + 1, start + |lh|, start + k + 1);
          return false, k;
        }
        CountsTrans(old(cache.buf), buf, cache.buf);
        StillTrans(old(cache.buf), buf, cache.buf, true, true);
        ReadyNext(old(cache.buf), start + 1, start + k);
        NextWrite(old(cache.disk), ws, k);
        NextWrite(old(cache.logical), ws, k);
        tail := tail + 1;
        k := k + 1;
      }
      ok := true;
    }

    /** install_trans: copy the log blocks home, and unpin them unless recovering. */
    method InstallTrans(recovering: bool) returns (ok: bool, ghost k: nat)
      requires cache.Valid() && HomesOk(start, lh)
      requires !recovering ==> forall b | b in lh :: b in cache.pins
      requires Quiet(cache.buf, start, lh)
      modifies cache
      ensures cache.Valid() && (old(cache.Lru()) ==> cache.Lru())
      ensures k <= |lh| && (ok ==> k == |lh|)
      ensures !ok ==> !SomeFree(old(cache.buf)) || (recovering && !TwoFree(old(cache.buf)))
      ensures var ws := InstallWrites(lh, Logged(old(cache.logical), start, |lh|))[..k];
              && cache.trace == old(cache.trace) + ws
              && cache.disk == Apply(old(cache.disk), ws)
              && (ok ==> cache.logical == Apply(old(cache.logical), ws))
      ensures ok ==> cache.pins == (if recovering then old(cache.pins) else old(cache.pins) - SetOf(lh))
      ensures ok ==> cache.holders == old(cache.holders) && cache.dirty == old(cache.dirty)
      ensures ok ==> CountsBelow(old(cache.buf), cache.buf) && Quiet(cache.buf, start, lh)
      ensures !recovering && Ready(old(cache.buf), start, start + |lh|) ==> ok && Ready(cache.buf, start, start + |lh|)
    {
      hide Good, Listed, LruSorted, Quiet, HomesOk, Apply, InstallWrites, Logged, Still, Ready, Stuck, At, CountsBelow;
      hide SomeFree, TwoFree, Undisturbed, Unlocked, SetOf;
      ghost var ws := InstallWrites(lh, Logged(cache.logical, start, |lh|));
      var tail := 0;
      k := 0;
      ApplyNothing(cache.disk, ws);
      ApplyNothing(cache.logical, ws);
      CountsSelf(cache.buf);
      NoneUnpinned(lh, cache.pins);
      while tail < |lh|
        invariant k == tail <= |lh|
        invariant cache.Valid() && (old(cache.Lru()) ==> cache.Lru())
        invariant cache.trace == old(cache.trace) + ws[..k]
        invariant cache.disk == Apply(old(cache.disk), ws[..k]) && cache.logical == Apply(old(cache.logical), ws[..k])
        invariant cache.pins == if recovering then old(cache.pins) else old(cache.pins) - SetOf(lh[..k])
        invariant cache.holders == old(cache.holders) && cache.dirty == old(cache.dirty)
        invariant CountsBelow(old(cache.buf), cache.buf) && Quiet(cache.buf, start, lh)
        invariant Ready(old(cache.buf), start, start + |lh|) ==> Ready(cache.buf, start, start + |lh|)
      {
        ghost var buf := cache.buf;
        ReadyAt(buf, start, start + |lh|, start + tail + 1);
        InstallsSpare(start, old(cache.logical), lh, k);
        NextPin(start, lh, old(cache.pins), k);
        QuietPair(cache.buf, start, lh, tail);
        var done := InstallBlock(tail, recovering);
        if !done {
          CountsFree(old(cache.buf), buf);
          return false, k;
        }
        if Ready(buf, start, start + |lh|) { ReadyKept(buf, cache.buf, start, start + |lh|, recovering); }
        CountsTrans(old(cache.buf), buf, cache.buf);
        NextWrite(old(cache.disk), ws, k);
        NextWrite(old(cache.logical), ws, k);
        tail := tail + 1;
        k := k + 1;
      }
      assert lh[..k] == lh;
      ok := true;
    }

    // ----- operations

    /** begin_op: false means that the caller must sleep and try again. */
    method BeginOp(p: nat) returns (admitted: bool)
      requires Valid() && p !in left
      modifies `outstanding, `left
      ensures Valid()
      ensures admitted <==> !committing && |lh| + (old(outstanding) + 1) * MAXOPBLOCKS <= LOGBLOCKS
      ensures left == if admitted then old(left)[p := MAXOPBLOCKS] else old(left)
    {
      hide Good, Listed, LruSorted, HomesOk, Sum, SetOf, HeadCount, TxnsOk, RunTrace, Apply;
      if committing {
        return false;
      } else if |lh| + (outstanding + 1) * MAXOPBLOCKS > LOGBLOCKS {
        return false;
      } else {
        SumChanged(left, p, MAXOPBLOCKS);
        SumBound(left);
        left := left[p := MAXOPBLOCKS];
        outstanding := outstanding + 1;
        return true;
      }
    }

    /** The absorption loop of log_write: where the header already lists b, or its length. */
    method Absorb(b: nat) returns (k: nat)
      ensures k <= |lh|
      ensures if k < |lh| then lh[k] == b else b !in lh
    {
      k := 0;
      while k < |lh| && lh[k] != b
        invariant k <= |lh| && b !in lh[..k]
      {
        k := k + 1;
      }
    }

    /** One more block for p. */
    method Spend(p: nat)
      requires p in left && left[p] > 0
      modifies `left
      ensures left == old(left)[p := old(left)[p] - 1]
      ensures |left| == |old(left)| && Sum(left) + 1 == Sum(old(left))
    {
      SumWithout(left, p);
      SumChanged(left, p, left[p] - 1);
      assert left[p := left[p] - 1].Keys == left.Keys;
      left := left[p := left[p] - 1];
    }

    /** A block that the header does not list yet is pinned and added. */
    method Enter(p: nat, i: nat)
      requires Valid() && p in left && left[p] > 0 && |lh| < LOGBLOCKS
      requires i < NBUF && cache.buf[i].valid && cache.buf[i].blockno !in lh
      requires cache.buf[i].blockno < WORD_LIMIT && !InLog(start, cache.buf[i].blockno)
      modifies `lh, `left, cache
      ensures Valid() && (old(cache.Lru()) ==> cache.Lru())
      ensures lh == old(lh) + [old(cache.buf)[i].blockno] && left == old(left)[p := old(left)[p] - 1]
      ensures cache.State() == Pinned(old(cache.State()), i) && cache.trace == old(cache.trace)
    {
      hide Unique, Counted, Coherent, Listed, LruSorted, HomesOk, Sum, RunTrace, TxnsOk, Apply;
      var b := cache.buf[i].blockno;
      SumWithout(left, p);
      cache.Bpin(i);
      Spend(p);
      AddHome(start, lh, b);
      lh := lh + [b];
    }

    /** log_write: record a changed buffer in the log. The operation promises to add no more
        than MAXOPBLOCKS blocks; false is the panic "too big a transaction". */
    method LogWrite(p: nat, i: nat) returns (ok: bool)
      requires Valid() && p in left
      requires i < NBUF && cache.buf[i].valid && cache.buf[i].locked
      requires cache.buf[i].blockno < WORD_LIMIT && !InLog(start, cache.buf[i].blockno)
      requires left[p] > 0 || cache.buf[i].blockno in lh
      modifies `lh, `left, cache
      ensures ok <==> |old(lh)| < LOGBLOCKS
      ensures old(left)[p] > 0 ==> ok
      ensures !ok ==> unchanged(this) && unchanged(cache)
      ensures Valid() && (old(cache.Lru()) ==> cache.Lru())
      ensures ok ==>
                var b := old(cache.buf)[i];
                && lh == (if b.blockno in old(lh) then old(lh) else old(lh) + [b.blockno])
                && left == (if b.blockno in old(lh) then old(left) else old(left)[p := old(left)[p] - 1])
                && cache.logical == old(cache.logical)[b.blockno := b.data]
                && cache.dirty == old(cache.dirty) - {i}
                && cache.disk == old(cache.disk) && cache.trace == old(cache.trace)
                && cache.holders == old(cache.holders)
                && cache.buf == (if b.blockno in old(lh) then old(cache.buf)
                                 else old(cache.buf)[i := b.(refcnt := b.refcnt + 1)])
    {
      hide Unique, Counted, Coherent, Listed, LruSorted, HomesOk, Sum, RunTrace, TxnsOk, Apply;
      SumWithout(left, p);
      MapHas(left, p);
      if |lh| >= LOGBLOCKS {
        return false;
      }
      if outstanding < 1 {
        return false;
      }
      var b := cache.buf[i].blockno;
      var k := Absorb(b);
      if k == |lh| {
        Enter(p, i);
      } else {
        assert lh[k := b] == lh;
        lh := lh[k := b];
      }
      cache.Record(i);
      return true;
    }

    /** end_op up to the commit: true means that the caller must commit. */
    method EndOp(p: nat) returns (doCommit: bool)
      requires Valid() && p in left
      modifies `outstanding, `committing, `left
      ensures !old(committing)
      ensures Valid() && left == old(left) - {p}
      ensures doCommit == committing == (left == map[])
    {
      hide Good, Listed, HomesOk, Sum, SetOf, HeadCount, TxnsOk, RunTrace, Apply;
      SumWithout(left, p);
      OneLeaves(left, p);
      left := left - {p};
      outstanding := outstanding - 1;
      if outstanding == 0 {
        committing := true;
        return true;
      }
      return false;
    }

    /** The first half of commit: the log blocks, then the header. */
    method LogTransaction() returns (ok: bool, ghost k: nat)
      requires cache.Valid() && HomesOk(start, lh) && (forall b | b in lh :: b in cache.pins)
      requires Quiet(cache.buf, start, lh)
      modifies cache
      ensures cache.Valid() && (old(cache.Lru()) ==> cache.Lru())
      ensures k <= |lh| && (!ok ==> !SomeFree(old(cache.buf)))
      ensures |lh| > 0 && Stuck(old(cache.buf), start + 1) ==> !ok && k == 0
      ensures ok <==> Ready(old(cache.buf), start, start + |lh|)
      ensures ok ==> Ready(cache.buf, start, start + |lh|)
      ensures var lw := LogWrites(start, Newest(old(cache.logical), lh));
              var hw := Write(start, HeadBlock(At(old(cache.logical), start), lh));
              if ok then
                && cache.trace == old(cache.trace) + lw + [hw]
                && cache.disk == Apply(old(cache.disk), lw)[start := hw.data]
                && cache.logical == Apply(old(cache.logical), lw)[start := hw.data]
                && cache.pins == old(cache.pins) && cache.holders == old(cache.holders)
                && cache.dirty == old(cache.dirty)
                && CountsBelow(old(cache.buf), cache.buf) && Quiet(cache.buf, start, lh)
              else
                cache.trace == old(cache.trace) + lw[..k] && cache.disk == Apply(old(cache.disk), lw[..k])
    {
      hide Stuck, Good, Listed, LruSorted, Apply, Newest, CountsBelow, Quiet, LogWrites, HeadBlock, Still, Ready;
      ReadyFirst(cache.buf, start, start + |lh|);
      ReadyAt(cache.buf, start, start + |lh|, start);
      ghost var lw := LogWrites(start, Newest(cache.logical, lh));
      assert lw[..|lh|] == lw;
      HeadSpared(start, cache.logical, Newest(cache.logical, lh));
      ok, k := WriteLog();
      if ok {
        ghost var b := cache.buf;
        QuietUnlocked(cache.buf, start, lh, start);
        ok := WriteHead();
        CountsFree(old(cache.buf), b);
        StillStuck(old(cache.buf), b, start);
        if ok {
          CountsTrans(old(cache.buf), b, cache.buf);
          StillTrans(old(cache.buf), b, cache.buf, true, true);
          ReadyKept(old(cache.buf), cache.buf, start, start + |lh|, true);
        } else {
          StuckIs(b, start);
        }
      }
    }

    /** The second half: the home blocks, then an empty header. */
    method InstallTransaction() returns (ok: bool, ghost k: nat)
      requires cache.Valid() && HomesOk(start, lh) && (forall b | b in lh :: b in cache.pins)
      requires Quiet(cache.buf, start, lh)
      modifies cache, `lh
      ensures cache.Valid() && (old(cache.Lru()) ==> cache.Lru())
      ensures k <= |old(lh)| && (!ok ==> !SomeFree(old(cache.buf))) && (ok ==> lh == [])
      ensures Ready(old(cache.buf), start, start + |old(lh)|) ==> ok
      ensures var iw := InstallWrites(old(lh), Logged(old(cache.logical), start, |old(lh)|));
              var cw := Write(start, HeadBlock(At(old(cache.logical), start), []));
              if ok then
                && cache.trace == old(cache.trace) + iw + [cw]
                && cache.disk == Apply(old(cache.disk), iw)[start := cw.data]
                && cache.logical == Apply(old(cache.logical), iw)[start := cw.data]
                && cache.pins == old(cache.pins) - SetOf(old(lh))
                && cache.holders == old(cache.holders) && cache.dirty == old(cache.dirty)
              else
                cache.trace == old(cache.trace) + iw[..k] && cache.disk == Apply(old(cache.disk), iw[..k])
    {
      hide Good, Listed, LruSorted, Apply, CountsBelow, Quiet, InstallWrites, Logged, HeadBlock, Ready, Stuck, Still;
      ghost var iw := InstallWrites(lh, Logged(cache.logical, start, |lh|));
      assert iw[..|lh|] == iw;
      HeadSparedByInstall(start, cache.logical, lh);
      ok, k := InstallTrans(false);
      if ok {
        ghost var b := cache.buf;
        QuietLess(cache.buf, start, lh);
        ReadyAt(cache.buf, start, start + |lh|, start);
        lh := [];
        QuietUnlocked(cache.buf, start, lh, start);
        ok := WriteHead();
        CountsFree(old(cache.buf), b);
      }
    }

    /** Both halves, as one prefix of the writes of the transaction t. */
    method CommitLogged(ghost t: Txn) returns (ok: bool, ghost k: nat)
      requires cache.Valid() && HomesOk(start, lh) && (forall b | b in lh :: b in cache.pins)
      requires Quiet(cache.buf, start, lh)
      requires TxnOk(start, t) && |lh| > 0 && t.lh == lh && t.data == Newest(cache.logical, lh)
      requires At(cache.disk, start) == At(cache.logical, start)
      modifies `lh, cache
      ensures cache.Valid() && (old(cache.Lru()) ==> cache.Lru())
      ensures var ws := CommitTrace(start, At(old(cache.disk), start), t);
              && k <= |ws|
              && cache.trace == old(cache.trace) + ws[..k]
              && cache.disk == Apply(old(cache.disk), ws[..k])
              && (ok ==> k == |ws| && ws[..k] == ws && lh == []
                         && cache.logical == Apply(old(cache.logical), ws)
                         && cache.pins == old(cache.pins) - SetOf(old(lh))
                         && cache.holders == old(cache.holders) && cache.dirty == old(cache.dirty))
      ensures !ok ==> !SomeFree(old(cache.buf)) && k <= |t.lh|
      ensures Stuck(old(cache.buf), start + 1) ==> !ok && k == 0
      ensures ok <==> Ready(old(cache.buf), start, start + |old(lh)|)
    {
      hide Ready, Stuck, Good, Listed, LruSorted, Apply, CommitTrace, Newest, CountsBelow, Quiet, InstallWrites;
      hide LogWrites, HeadBlock, HomesOk, TxnOk, Logged;
      ghost var d, l, n, tr := cache.disk, cache.logical, |lh|, cache.trace;
      Stages(start, d, t);
      Stages(start, l, t);
      ok, k := LogTransaction();
      if !ok {
        StoppedInLog(start, d, t, k);
        return false, k;
      }
      CountsFree(old(cache.buf), cache.buf);
      ok, k := InstallTransaction();
      NotStopped(start, d, t, tr);
      k := 2 * n + 2;
    }

    /** commit: write the log, the header, the home blocks, and an empty header. A commit
        that panics in bget has done the first k of its writes; a buffer no one references
        is all it takes to avoid that. */
    method Commit() returns (ok: bool, ghost k: nat)
      requires Valid() && committing && Quiet(cache.buf, start, lh)
      modifies `lh, `done, cache
      ensures var ws := CommitTrace(start, At(old(cache.disk), start), old(Pending()));
              && k <= |ws| && (ok ==> k == |ws|)
              && cache.trace == old(cache.trace) + ws[..k]
              && cache.disk == Apply(old(cache.disk), ws[..k])
      ensures ok ==> Valid() && lh == [] && done == old(done) + [old(Pending())] && (old(cache.Lru()) ==> cache.Lru())
      ensures ok ==> SameHome(start, cache.logical, old(cache.logical))
      ensures ok ==> cache.holders == old(cache.holders) && cache.dirty == old(cache.dirty)
      ensures !ok ==> !SomeFree(old(cache.buf))
      ensures |old(lh)| > 0 && Stuck(old(cache.buf), start + 1) ==> !ok && k == 0
      ensures ok <==> |old(lh)| == 0 || Ready(old(cache.buf), start, start + |old(lh)|)
      ensures Follows(start, base, boot, cache.trace, old(done) + [old(Pending())])
      ensures !ok ==> done == old(done) && Survivors(boot, old(done) + [old(Pending())], |cache.trace|) == done
    {
      hide Ready, Stuck, Good, Listed, LruSorted, Apply, CommitTrace, Newest, Quiet, SameHome, RunTrace, TxnsOk;
      hide TxnOk, Follows, Survivors, Sum;
      ghost var t, d, l := Pending(), cache.disk, cache.logical;
      PendingOk(start, lh, l);
      StartNotPinned(cache.State(), start, lh);
      CommitLeaves(start, d, l, t);
      if |lh| > 0 {
        ok, k := CommitLogged(t);
      } else {
        NothingToCommit(start, d, l, t);
        ok, k := true, 0;
      }
      RunGrows(start, base, done, t);
      CommitFollows(start, base, boot, done, t, d, cache.trace, k);
      if ok {
        done := done + [t];
      }
    }

    /** However many of the writes since recovery reached the disk before a crash, and
        however often recovery was cut short after it, the recovery that completes restores
        exactly the transactions whose header was written. */
    lemma CrashAt(ts: seq<Txn>, k: nat, ks: seq<nat>)
      requires Follows(start, base, boot, cache.trace, ts) && |boot| <= k <= |cache.trace|
      ensures TxnsOk(start, Survivors(boot, ts, k))
      ensures var e := Attempts(start, Apply(base, cache.trace[|boot|..k]), ks);
              Recoverable(e, start) && Idle(start, Recover(start, e), InstalledAll(start, base, Survivors(boot, ts, k)))
    {
      hide RunTrace, Idle, Attempts, Recover, InstalledAll, Committed, Apply, Head, HomesOk;
      assert cache.trace[|boot|..k] == RunTrace(start, base, ts)[..k - |boot|];
      RunAtomic(start, base, ts, k - |boot|, ks);
    }

    /** So it is at every moment at which the log is in order; Commit says the same of the moment
        at which it panics, and that nothing of its own transaction survives then. */
    lemma CrashNow(k: nat, ks: seq<nat>)
      requires Valid() && |boot| <= k <= |cache.trace|
      ensures TxnsOk(start, Survivors(boot, done, k))
      ensures var e := Attempts(start, Apply(base, cache.trace[|boot|..k]), ks);
              Recoverable(e, start) && Idle(start, Recover(start, e),
                  InstalledAll(start, base, Survivors(boot, done, k)))
    {
      hide RunTrace, Idle, Attempts, Recover, InstalledAll, Committed, Apply, Good, Listed, Head, HomesOk, TxnsOk;
      assert cache.trace[|boot|..] == RunTrace(start, base, done);
      CrashAt(done, k, ks);
    }

    /** The rest of end_op: let operations in again. */
    method EndCommit()
      requires Valid()
      modifies `committing
      ensures Valid() && !committing
    {
      committing := false;
    }
  }

  /** Every buffer is referenced, and none of them caches b. */
  predicate Stuck(bufs: seq<Buf>, b: nat) {
    !SomeFree(bufs) && !Cached(bufs, b)
  }

  predicate TwoFree(bufs: seq<Buf>) {
    exists i, j | 0 <= i < j < |bufs| :: bufs[i].refcnt == 0 && bufs[j].refcnt == 0
  }

  lemma FreeRemains(bufs: seq<Buf>, i: nat, b: Buf)
    requires i < |bufs|
    ensures TwoFree(bufs) ==> SomeFree(bufs[i := b])
  {
    if TwoFree(bufs) {
      var j, k :| 0 <= j < k < |bufs| && bufs[j].refcnt == 0 && bufs[k].refcnt == 0;
      assert bufs[i := b][if j == i then k else j].refcnt == 0;
    }
  }

  /** A buffer b after Bread of blockno. */
  function Reading(b: Buf, blockno: nat, data: Block): Buf {
    Buf(ROOTDEV, blockno, true, true, b.refcnt + 1, data)
  }

  /** ... and after Brelse. */
  function Dropped(b: Buf): Buf
    requires b.refcnt > 0
  {
    b.(locked := false, refcnt := b.refcnt - 1)
  }

  /** Reading two buffers and releasing them again leaves the counts and locks as before. */
  lemma PairDone(bufs: seq<Buf>, bufs': seq<Buf>, start: nat, lh: seq<nat>, i: nat, j: nat)
    requires |bufs| == |bufs'| && i < |bufs| && j < |bufs|
    requires forall k | 0 <= k < |bufs| && k != i && k != j :: bufs'[k] == bufs[k]
    requires bufs'[i].refcnt <= bufs[i].refcnt && bufs'[j].refcnt <= bufs[j].refcnt
    requires !bufs'[i].locked && !bufs'[j].locked
    ensures (Quiet(bufs, start, lh) ==> Quiet(bufs', start, lh)) && CountsBelow(bufs, bufs')
  {
  }

  /** ... and whoever holds or awaits a buffer does not notice. */
  lemma PairUndisturbed(c: Cache, c': Cache, i: nat, j: nat)
    requires Good(c) && |c'.bufs| == |c.bufs| && c'.holders == c.holders && i < |c.bufs| && j < |c.bufs|
    requires forall k | 0 <= k < |c.bufs| && k != i && k != j :: c'.bufs[k] == c.bufs[k]
    requires forall k | k == i || k == j ::
               c.bufs[k].refcnt > 0 ==> c'.bufs[k].dev == c.bufs[k].dev && c'.bufs[k].blockno == c.bufs[k].blockno
    requires forall k | k == i || k == j :: c.bufs[k].refcnt > 0 ==> !c.bufs[k].locked && !c'.bufs[k].locked
    ensures Undisturbed(c, c')
  {
    hide Unique, Coherent;
    forall k | 0 <= k < |c.bufs| && c.holders[k] > 0 ensures c.bufs[k].refcnt > 0 {
      HoldersCount(c, k);
    }
  }

  /** Both, for buffer i that was read as block a, and buffer j as block b, and unpinned perhaps. */
  lemma PairEnd(c: Cache, c': Cache, start: nat, lh: seq<nat>, i: nat, a: nat, j: nat, b: nat, less: nat)
    requires Good(c) && i < |c.bufs| && j < |c.bufs| && i != j && |c'.bufs| == |c.bufs| && less <= c.bufs[j].refcnt
    requires c'.bufs == c.bufs[i := Buf(ROOTDEV, a, true, false, c.bufs[i].refcnt, c'.bufs[i].data)]
                              [j := Buf(ROOTDEV, b, true, false, c.bufs[j].refcnt - less, c'.bufs[j].data)]
    requires Unlocked(c.bufs, a) && Unlocked(c.bufs, b) && c'.holders == c.holders
    requires (c.bufs[i].refcnt > 0 ==> Caches(c.bufs[i], a)) && (c.bufs[j].refcnt > 0 ==> Caches(c.bufs[j], b))
    ensures CountsBelow(c.bufs, c'.bufs) && (Quiet(c.bufs, start, lh) ==> Quiet(c'.bufs, start, lh))
    ensures Undisturbed(c, c') && Still(c.bufs, c'.bufs, less == 0)
  {
    hide Good;
    PairDone(c.bufs, c'.bufs, start, lh, i, j);
    PairUndisturbed(c, c', i, j);
    StillPair(c.bufs, c'.bufs, i, j, less == 0);
  }

  lemma ApplyNothing(d: Image, ws: seq<Write>)
    ensures Apply(d, ws[..0]) == d
  {
  }

  lemma NextWrite(d: Image, ws: seq<Write>, k: nat)
    requires k < |ws|
    ensures Apply(d, ws[..k + 1]) == Apply(d, ws[..k])[ws[k].block := ws[k].data]
    ensures ws[..k + 1] == ws[..k] + [ws[k]]
  {
    assert ws[..k + 1] == ws[..k] + [ws[k]];
    ApplyOne(d, ws[..k], ws[k]);
  }

  /** Writing log blocks leaves the newest contents of the logged blocks alone. */
  lemma LogWritesSpare(start: nat, logical: Image, lh: seq<nat>, k: nat)
    requires HomesOk(start, lh) && k < |lh|
    ensures var ws := LogWrites(start, Newest(logical, lh));
            && At(Apply(logical, ws[..k]), lh[k]) == At(logical, lh[k])
            && ws[k] == Write(start + k + 1, At(logical, lh[k]))
  {
    hide LogWrites, Newest, Apply;
    var ws := LogWrites(start, Newest(logical, lh));
    assert forall i | 0 <= i < k :: ws[..k][i] == ws[i] && InLog(start, ws[i].block);
    ApplyUntouched(logical, ws[..k], lh[k]);
  }

  lemma CountsSelf(bufs: seq<Buf>)
    ensures CountsBelow(bufs, bufs)
  {
  }

  lemma CountsTrans(a: seq<Buf>, b: seq<Buf>, c: seq<Buf>)
    requires CountsBelow(a, b) && CountsBelow(b, c)
    ensures CountsBelow(a, c)
  {
  }

  lemma CountsFree(a: seq<Buf>, b: seq<Buf>)
    requires CountsBelow(a, b)
    ensures SomeFree(a) ==> SomeFree(b)
    ensures TwoFree(a) ==> TwoFree(b)
  {
    if SomeFree(a) {
      var i :| 0 <= i < |a| && a[i].refcnt == 0;
      assert b[i].refcnt == 0;
    }
    if TwoFree(a) {
      var i, j :| 0 <= i < j < |a| && a[i].refcnt == 0 && a[j].refcnt == 0;
      assert b[i].refcnt == 0 && b[j].refcnt == 0;
    }
  }

  lemma NoneUnpinned(lh: seq<nat>, pins: map<nat, nat>)
    ensures pins - SetOf(lh[..0]) == pins
  {
  }

  lemma HomeApart(start: nat, lh: seq<nat>, k: nat)
    requires HomesOk(start, lh) && k < |lh|
    ensures lh[k] != start + k + 1
  {
  }

  lemma AddHome(start: nat, lh: seq<nat>, b: nat)
    requires HomesOk(start, lh) && b !in lh && b < WORD_LIMIT && !InLog(start, b) && |lh| < LOGBLOCKS
    ensures HomesOk(start, lh + [b]) && SetOf(lh + [b]) == SetOf(lh) + {b}
  {
  }

  lemma OneLeaves(m: map<nat, nat>, p: nat)
    requires p in m
    ensures |m - {p}| == |m| - 1 && (|m - {p}| == 0 <==> m - {p} == map[])
  {
    assert (m - {p}).Keys == m.Keys - {p};
    assert |m - {p}| == |(m - {p}).Keys| && |m| == |m.Keys|;
  }

  lemma MapHas(m: map<nat, nat>, p: nat)
    requires p in m
    ensures |m| >= 1
  {
  }

  /** Installing blocks leaves the log blocks alone. */
  lemma InstallsSpare(start: nat, logical: Image, lh: seq<nat>, k: nat)
    requires HomesOk(start, lh) && k < |lh|
    ensures var ws := InstallWrites(lh, Logged(logical, start, |lh|));
            && At(Apply(logical, ws[..k]), start + k + 1) == At(logical, start + k + 1)
            && ws[k] == Write(lh[k], At(logical, start + k + 1))
  {
    hide InstallWrites, Logged, Apply;
    var ws := InstallWrites(lh, Logged(logical, start, |lh|));
    assert forall i | 0 <= i < k :: ws[..k][i] == ws[i] && !InLog(start, ws[i].block);
    ApplyUntouched(logical, ws[..k], start + k + 1);
  }

  /** Unpinning the logged blocks one by one. */
  lemma NextPin(start: nat, lh: seq<nat>, pins: map<nat, nat>, k: nat)
    requires HomesOk(start, lh) && k < |lh|
    ensures lh[k] in pins ==> lh[k] in pins - SetOf(lh[..k])
    ensures pins - SetOf(lh[..k]) - {lh[k]} == pins - SetOf(lh[..k + 1])
  {
    assert SetOf(lh[..k + 1]) == SetOf(lh[..k]) + {lh[k]};
  }

  // ----- an idle cache

  predicate AllFree(bufs: seq<Buf>) {
    |bufs| == NBUF && forall i | 0 <= i < NBUF :: bufs[i].refcnt == 0 && !bufs[i].locked
  }

  lemma AllFreeQuiet(bufs: seq<Buf>, start: nat, lh: seq<nat>)
    requires AllFree(bufs)
    ensures Quiet(bufs, start, lh) && SomeFree(bufs) && TwoFree(bufs)
  {
    assert bufs[0].refcnt == 0 && bufs[1].refcnt == 0;
  }

  lemma AllFreeBelow(bufs: seq<Buf>, c: Cache)
    requires AllFree(bufs) && CountsBelow(bufs, c.bufs) && Good(c)
    ensures AllFree(c.bufs)
  {
    forall i: nat | i < NBUF ensures c.bufs[i].refcnt == 0 && !c.bufs[i].locked {
      HoldersCount(c, i);
    }
  }

  /** What recovery finds in the header is what it found before installing. */
  lemma RecoveredAt(start: nat, d: Image)
    requires HeadOk(d, start) && HomesOk(start, Head(d, start))
    ensures var n := HeadCount(d, start);
            var ws := InstallWrites(Head(d, start), Logged(d, start, n));
            var hb := HeadBlock(At(Apply(d, ws), start), []);
            && ws[..n] == ws
            && At(Apply(d, ws), start) == At(d, start)
            && Recover(start, d) == Apply(d, ws)[start := hb]
            && RecoverTrace(start, d) == ws + [Write(start, hb)]
            && HeadCount(Apply(d, ws)[start := hb], start) == 0
  {
    hide InstallWrites, Logged, Apply, HeadBlock;
    var n := HeadCount(d, start);
    var ws := InstallWrites(Head(d, start), Logged(d, start, n));
    ApplyUntouched(d, ws, start);
    ApplyOne(d, ws, Write(start, HeadBlock(At(d, start), [])));
  }

  lemma {:induction false} SumBound(m: map<nat, nat>)
    requires forall p | p in m :: m[p] <= MAXOPBLOCKS
    ensures Sum(m) <= |m| * MAXOPBLOCKS
    decreases |m|
  {
    if m != map[] {
      var p :| p in m;
      SumWithout(m, p);
      assert |m - {p}| == |m| - 1;
      SumBound(m - {p});
    }
  }

  // ----- the stages of a commit

  lemma PendingOk(start: nat, lh: seq<nat>, logical: Image)
    requires HomesOk(start, lh)
    ensures TxnOk(start, Txn(lh, Newest(logical, lh)))
  {
  }

  lemma StartNotPinned(c: Cache, start: nat, lh: seq<nat>)
    requires Good(c) && HomesOk(start, lh) && c.pins.Keys == SetOf(lh)
    ensures At(c.disk, start) == At(c.logical, start)
    ensures forall b | b in lh :: b in c.pins
    ensures c.pins - SetOf(lh) == map[]
  {
    assert InLog(start, start);
    assert start !in c.pins;
  }

  lemma NothingToCommit(start: nat, d: Image, l: Image, t: Txn)
    requires TxnOk(start, t) && |t.lh| == 0
    ensures CommitTrace(start, At(d, start), t) == [] && Apply(d, []) == d && SameHome(start, l, l)
  {
  }

  lemma HeadSpared(start: nat, d: Image, data: seq<Block>)
    ensures At(Apply(d, LogWrites(start, data)), start) == At(d, start)
  {
    ApplyUntouched(d, LogWrites(start, data), start);
  }

  lemma HeadSparedByInstall(start: nat, d: Image, lh: seq<nat>)
    requires HomesOk(start, lh)
    ensures At(Apply(d, InstallWrites(lh, Logged(d, start, |lh|))), start) == At(d, start)
  {
    hide InstallWrites, Logged, Apply;
    ApplyUntouched(d, InstallWrites(lh, Logged(d, start, |lh|)), start);
  }

  /** A whole commit clears the header on the disk and keeps the newest contents. */
  lemma CommitLeaves(start: nat, d: Image, l: Image, t: Txn)
    requires TxnOk(start, t) && HeadCount(d, start) == 0 && At(d, start) == At(l, start)
    requires t.data == Newest(l, t.lh)
    ensures HeadCount(Apply(d, CommitTrace(start, At(d, start), t)), start) == 0
    ensures SameHome(start, Apply(l, CommitTrace(start, At(l, start), t)), l)
  {
    hide Apply, CommitTrace, Newest, InstallWrites;
    CommitDone(start, d, t);
    CommitDone(start, l, t);
    NewestInstalled(start, l, t);
  }

  /** The disk at each stage of a commit, and what the next stage reads there. */
  lemma Stages(start: nat, d: Image, t: Txn)
    requires TxnOk(start, t) && |t.lh| > 0
    ensures var n, lw, iw := |t.lh|, LogWrites(start, t.data), InstallWrites(t.lh, t.data);
            var hb := HeadBlock(At(d, start), t.lh);
            var e := Apply(d, lw)[start := hb];
            && lw[..n] == lw
            && At(Apply(d, lw), start) == At(d, start)
            && Logged(e, start, n) == t.data
            && iw[..n] == iw
            && At(Apply(e, iw), start) == hb
            && Apply(d, CommitTrace(start, At(d, start), t)) == Apply(e, iw)[start := HeadBlock(hb, [])]
  {
    hide Apply, CommitTrace, InstallWrites, LogWrites, HeadBlock;
    var n, lw, iw := |t.lh|, LogWrites(start, t.data), InstallWrites(t.lh, t.data);
    var hb := HeadBlock(At(d, start), t.lh);
    var e := Apply(d, lw)[start := hb];
    ApplyUntouched(d, lw, start);
    LogWritten(start, d, t);
    ApplyUntouched(e, iw, start);
    CommitIs(start, At(d, start), t);
    ApplyOne(d, lw, Write(start, hb));
    ApplyConcat(d, lw + [Write(start, hb)], iw);
    ApplyOne(d, lw + [Write(start, hb)] + iw, Write(start, HeadBlock(hb, [])));
  }

  lemma CommitIs(start: nat, hb: Block, t: Txn)
    requires TxnOk(start, t) && |t.lh| > 0
    ensures CommitTrace(start, hb, t) ==
            LogWrites(start, t.data) + [Write(start, HeadBlock(hb, t.lh))] + InstallWrites(t.lh, t.data)
            + [Write(start, HeadBlock(HeadBlock(hb, t.lh), []))]
  {
  }

  lemma StoppedInLog(start: nat, d: Image, t: Txn, k: nat)
    requires TxnOk(start, t) && |t.lh| > 0 && k <= |t.lh|
    ensures CommitTrace(start, At(d, start), t)[..k] == LogWrites(start, t.data)[..k]
  {
    hide InstallWrites, LogWrites, HeadBlock, At;
  }

  lemma NotStopped(start: nat, d: Image, t: Txn, tr: seq<Write>)
    requires TxnOk(start, t) && |t.lh| > 0
    ensures var lw, iw, hw := LogWrites(start, t.data), InstallWrites(t.lh, t.data),
              Write(start, HeadBlock(At(d, start), t.lh));
            var ws := CommitTrace(start, At(d, start), t);
            && |ws| == 2 * |t.lh| + 2 && ws[..|ws|] == ws
            && tr + lw + [hw] + iw + [Write(start, HeadBlock(hw.data, []))] == tr + ws
  {
    hide InstallWrites, LogWrites, HeadBlock;
    CommitIs(start, At(d, start), t);
  }

  lemma QuietLess(bufs: seq<Buf>, start: nat, lh: seq<nat>)
    requires Quiet(bufs, start, lh)
    ensures Quiet(bufs, start, [])
  {
  }

  /** Installing the newest contents changes nothing in the newest contents. */
  lemma NewestInstalled(start: nat, logical: Image, t: Txn)
    requires TxnOk(start, t) && t.data == Newest(logical, t.lh)
    ensures SameHome(start, Installed(logical, t), logical)
  {
    forall b: nat | !InLog(start, b) ensures At(Installed(logical, t), b) == At(logical, b) {
      InstalledAt(start, logical, t, b);
      if b in t.lh {
        var i :| 0 <= i < |t.lh| && t.lh[i] == b;
        assert t.data[i] == At(logical, b);
      }
    }
  }

  /** One more commit at the end of a run. */
  lemma {:induction false} RunGrows(start: nat, d: Image, ts: seq<Txn>, t: Txn)
    requires TxnsOk(start, ts) && TxnOk(start, t)
    ensures var e := Apply(d, RunTrace(start, d, ts));
            var ws := CommitTrace(start, At(e, start), t);
            && TxnsOk(start, ts + [t])
            && RunTrace(start, d, ts + [t]) == RunTrace(start, d, ts) + ws
            && Apply(d, RunTrace(start, d, ts + [t])) == Apply(e, ws)
    decreases |ts|
  {
    hide CommitTrace, Apply, TxnOk;
    var e := Apply(d, RunTrace(start, d, ts));
    var ws := CommitTrace(start, At(e, start), t);
    if ts == [] {
      RunOfOne(start, d, t);
    } else {
      var cw := CommitTrace(start, At(d, start), ts[0]);
      RunGrows(start, Apply(d, cw), ts[1..], t);
      assert (ts + [t])[1..] == ts[1..] + [t] && (ts + [t])[0] == ts[0];
      ApplyConcat(d, cw, RunTrace(start, Apply(d, cw), ts[1..]));
    }
    ApplyConcat(d, RunTrace(start, d, ts), ws);
  }

  /** The writes since boot are a first part of those that commit ts one after another. */
  ghost predicate Follows(start: nat, base: Image, boot: seq<Write>, trace: seq<Write>, ts: seq<Txn>) {
    && TxnsOk(start, ts) && HeadCount(base, start) == 0
    && boot <= trace && trace[|boot|..] <= RunTrace(start, base, ts)
  }

  /** The transactions whose header is among the first k writes. */
  ghost function Survivors(boot: seq<Write>, ts: seq<Txn>, k: nat): seq<Txn> {
    if |boot| <= k then ts[..Committed(ts, k - |boot|)] else []
  }

  /** A commit of t that has done k writes, after all of ts. */
  lemma CommitFollows(start: nat, base: Image, boot: seq<Write>, ts: seq<Txn>, t: Txn, e: Image, trace: seq<Write>,
                      k: nat)
    requires TxnsOk(start, ts) && TxnOk(start, t) && HeadCount(base, start) == 0
    requires e == Apply(base, RunTrace(start, base, ts)) && k <= |CommitTrace(start, At(e, start), t)|
    requires trace == boot + RunTrace(start, base, ts) + CommitTrace(start, At(e, start), t)[..k]
    ensures Follows(start, base, boot, trace, ts + [t])
    ensures 0 < |t.lh| && k <= |t.lh| ==> Survivors(boot, ts + [t], |trace|) == ts
  {
    hide RunTrace, CommitTrace, Apply, Committed, TxnOk;
    RunGrows(start, base, ts, t);
    var a, ws := RunTrace(start, base, ts), CommitTrace(start, At(e, start), t);
    assert trace[|boot|..] == a + ws[..k];
    if 0 < |t.lh| && k <= |t.lh| {
      CommittedMore(start, base, ts, t, k);
      assert (ts + [t])[..|ts|] == ts;
    }
  }

  /** Before its header is written the last transaction does not count, and all others do. */
  lemma {:induction false} CommittedMore(start: nat, d: Image, ts: seq<Txn>, t: Txn, k: nat)
    requires TxnsOk(start, ts) && k <= |t.lh| && |t.lh| > 0
    ensures Committed(ts + [t], |RunTrace(start, d, ts)| + k) == |ts|
    decreases |ts|
  {
    hide CommitTrace, Apply, TxnOk, At;
    if ts == [] {
      assert ts + [t] == [t];
    } else {
      var cw := CommitTrace(start, At(d, start), ts[0]);
      CommittedMore(start, Apply(d, cw), ts[1..], t, k);
      CommittedNext(ts[0], ts[1..] + [t], |cw|, |RunTrace(start, Apply(d, cw), ts[1..])| + k);
      assert ts + [t] == [ts[0]] + (ts[1..] + [t]);
    }
  }

  lemma CommittedNext(t: Txn, ts: seq<Txn>, n: nat, k: nat)
    requires n == if |t.lh| == 0 then 0 else 2 * |t.lh| + 2
    ensures Committed([t] + ts, n + k) == 1 + Committed(ts, k)
  {
    assert ([t] + ts)[1..] == ts;
  }

  lemma NoRun(start: nat, d: Image)
    ensures RunTrace(start, d, []) == [] && Apply(d, []) == d
  {
  }

  lemma RunOfOne(start: nat, d: Image, t: Txn)
    requires TxnOk(start, t)
    ensures Apply(d, RunTrace(start, d, [])) == d
    ensures [] + [t] == [t] && RunTrace(start, d, [t]) == CommitTrace(start, At(d, start), t)
  {
    hide CommitTrace;
    assert [t][1..] == [];
  }

  // ----- a full log

  /** NBUF equals LOGBLOCKS: a transaction that fills the log pins every buffer, so the
      commit that follows finds no buffer for its first log block. */
  lemma FullLogIsStuck(c: Cache, start: nat, lh: seq<nat>)
    requires Good(c) && HomesOk(start, lh) && c.pins.Keys == SetOf(lh) && |lh| == LOGBLOCKS
    ensures Stuck(c.bufs, start + 1)
  {
    hide Good, HomesOk, Reaches, Range, Caches, SetOf;
    PinnedSize(c);
    HomesCount(start, lh);
    assert |c.pins| == |c.pins.Keys|;
    PinsApart(c);
    var used := InjectiveSize(c.pins);
    forall v | v in used ensures v < NBUF {
      PinnedBuffer(c, start, lh, v);
    }
    SubsetIsAll(used, Range(NBUF));
    forall i: nat | i < NBUF ensures c.bufs[i].refcnt > 0 && !Caches(c.bufs[i], start + 1) {
      assert i in Range(NBUF);
      PinnedBuffer(c, start, lh, i);
    }
  }

  lemma PinnedSize(c: Cache)
    requires Good(c)
    ensures |c.bufs| == NBUF
  {
    hide Unique, Counted, Coherent;
  }

  lemma PinsApart(c: Cache)
    requires Good(c)
    ensures forall a, b | a in c.pins && b in c.pins && a != b :: c.pins[a] != c.pins[b]
  {
    hide Unique, Counted;
  }

  /** A buffer that a pin leads to is referenced and holds a home block. */
  lemma PinnedBuffer(c: Cache, start: nat, lh: seq<nat>, i: nat)
    requires Good(c) && HomesOk(start, lh) && c.pins.Keys == SetOf(lh) && Reaches(c.pins, i)
    ensures i < NBUF && i < |c.bufs| && c.bufs[i].refcnt > 0 && !Caches(c.bufs[i], start + 1)
  {
    hide Unique;
    var b :| b in c.pins && c.pins[b] == i;
    assert b in c.pins.Keys;
  }

  lemma HomesCount(start: nat, lh: seq<nat>)
    requires HomesOk(start, lh)
    ensures |SetOf(lh)| == |lh|
  {
    DistinctCount(lh);
  }

  lemma {:induction false} DistinctCount(s: seq<nat>)
    requires forall i, j | 0 <= i < j < |s| :: s[i] != s[j]
    ensures |SetOf(s)| == |s|
  {
    if s != [] {
      DistinctCount(s[1..]);
      assert SetOf(s) == SetOf(s[1..]) + {s[0]};
    }
  }

  // ----- when a commit panics

  /** If every buffer is referenced, each keeps its block (and stays referenced). */
  ghost predicate Still(bufs: seq<Buf>, bufs': seq<Buf>, counts: bool) {
    && |bufs'| == |bufs|
    && (!SomeFree(bufs) ==>
          forall i | 0 <= i < |bufs| :: bufs'[i].dev == bufs[i].dev && bufs'[i].blockno == bufs[i].blockno
              && (counts ==> bufs'[i].refcnt > 0))
  }

  lemma StillSelf(bufs: seq<Buf>)
    ensures Still(bufs, bufs, true)
  {
  }

  lemma StillPair(bufs: seq<Buf>, bufs': seq<Buf>, i: nat, j: nat, counts: bool)
    requires |bufs'| == |bufs| && i < |bufs| && j < |bufs|
    requires forall k | 0 <= k < |bufs| && k != i && k != j :: bufs'[k] == bufs[k]
    requires !SomeFree(bufs) ==> forall k | k == i || k == j ::
               bufs'[k].dev == bufs[k].dev
               && bufs'[k].blockno == bufs[k].blockno && (counts ==> bufs'[k].refcnt == bufs[k].refcnt)
    ensures Still(bufs, bufs', counts)
  {
  }

  lemma StillTrans(a: seq<Buf>, b: seq<Buf>, c: seq<Buf>, x: bool, y: bool)
    requires Still(a, b, true) && Still(b, c, y)
    ensures Still(a, c, y)
  {
  }

  /** The blocks from lo to hi are in the cache. */
  predicate AllCached(bufs: seq<Buf>, lo: nat, hi: nat) {
    forall b: nat | lo <= b <= hi :: Cached(bufs, b)
  }

  /** bget finds a buffer for each of the blocks from lo to hi. */
  predicate Ready(bufs: seq<Buf>, lo: nat, hi: nat) {
    SomeFree(bufs) || AllCached(bufs, lo, hi)
  }

  lemma ReadyNone(bufs: seq<Buf>, lo: nat)
    ensures Ready(bufs, lo + 1, lo)
  {
  }

  lemma ReadyNext(bufs: seq<Buf>, lo: nat, hi: nat)
    requires Ready(bufs, lo, hi) && !Stuck(bufs, hi + 1)
    ensures Ready(bufs, lo, hi + 1)
  {
    hide Cached;
  }

  lemma ReadyAt(bufs: seq<Buf>, lo: nat, hi: nat, b: nat)
    requires lo <= b <= hi
    ensures Ready(bufs, lo, hi) ==> !Stuck(bufs, b)
  {
    hide Cached;
  }

  lemma ReadyFirst(bufs: seq<Buf>, lo: nat, hi: nat)
    ensures Ready(bufs, lo, hi) <== Ready(bufs, lo + 1, hi) && !Stuck(bufs, lo)
    ensures Ready(bufs, lo, hi) ==> Ready(bufs, lo + 1, hi)
  {
    hide Cached;
  }

  /** Readiness lasts as long as counts do not rise. */
  lemma ReadyKept(bufs: seq<Buf>, bufs': seq<Buf>, lo: nat, hi: nat, counts: bool)
    requires Ready(bufs, lo, hi) && CountsBelow(bufs, bufs') && Still(bufs, bufs', counts)
    ensures Ready(bufs', lo, hi)
  {
    CountsFree(bufs, bufs');
    if !SomeFree(bufs) {
      forall b: nat | lo <= b <= hi ensures Cached(bufs', b) {
        assert Cached(bufs, b);
        var i :| 0 <= i < |bufs| && Caches(bufs[i], b);
        assert Caches(bufs'[i], b);
      }
    }
  }

  /** As long as every buffer stays referenced, the same blocks are out of reach. */
  lemma StillStuck(bufs: seq<Buf>, bufs': seq<Buf>, b: nat)
    requires Still(bufs, bufs', true)
    ensures Stuck(bufs, b) ==> Stuck(bufs', b)
    ensures !SomeFree(bufs) && Stuck(bufs', b) ==> Stuck(bufs, b)
  {
    if !SomeFree(bufs) {
      forall i | 0 <= i < |bufs| ensures Caches(bufs'[i], b) == Caches(bufs[i], b) { }
    }
  }

  lemma StuckIs(bufs: seq<Buf>, b: nat)
    requires Stuck(bufs, b)
    ensures !SomeFree(bufs)
  {
  }
}
