/** The log and the buffer cache with many threads: file system operations, readers that take no
    part in any operation, and a commit, which must wait for a buffer like everybody else.

    A step of a thread is what it does under one lock: bget under bcache.lock, the taking of a sleep
    lock, a change followed by log_write, brelse, begin_op, end_op, or one block of a commit. */
module LogRuns {
  import opened Options
  import opened Sets
  import opened Disk
  import opened Ring
  import opened Cache
  import opened Bio
  import opened Crash
  import L = Log
  import T = Transact

  // ----- who holds which buffer

  /** Somebody has been counted in buffer i for block b, and has its lock or waits for it. A thread
      that reads several blocks has several hands. */
  datatype Hand = Hand(i: nat, b: nat, locked: bool)

  ghost function Users(hands: map<nat, Hand>, i: nat): set<nat> {
    set p | p in hands && hands[p].i == i
  }

  /** holders counts the hands on each buffer; a buffer that somebody has or awaits caches its block;
      no lock is in two hands, and whoever has one sees the newest contents. */
  ghost predicate HandsOk(c: Cache, hands: map<nat, Hand>) {
    && |c.bufs| == |c.holders| == NBUF && c.dirty == {}
    && (forall i | 0 <= i < NBUF :: c.holders[i] == |Users(hands, i)|)
    && (forall p | p in hands :: HandOk(c, hands[p]))
    && (forall p, q | p in hands && q in hands && p != q && hands[p].locked && hands[q].locked ::
         hands[p].i != hands[q].i)
  }

  ghost predicate HandOk(c: Cache, h: Hand) {
    h.i < |c.bufs| && Caches(c.bufs[h.i], h.b) && (h.locked ==> c.bufs[h.i].locked && c.bufs[h.i].valid)
  }

  lemma UsersAdded(hands: map<nat, Hand>, p: nat, h: Hand, i: nat)
    requires p !in hands
    ensures |Users(hands[p := h], i)| == |Users(hands, i)| + if h.i == i then 1 else 0
  {
    assert Users(hands[p := h], i) == Users(hands, i) + if h.i == i then {p} else {};
  }

  lemma UsersRemoved(hands: map<nat, Hand>, p: nat, i: nat)
    requires p in hands
    ensures |Users(hands, i)| == |Users(hands - {p}, i)| + if hands[p].i == i then 1 else 0
  {
    assert Users(hands, i) == Users(hands - {p}, i) + if hands[p].i == i then {p} else {};
  }

  lemma UsersSame(hands: map<nat, Hand>, p: nat, h: Hand, i: nat)
    requires p in hands && hands[p].i == h.i
    ensures Users(hands[p := h], i) == Users(hands, i)
  {
  }

  lemma HasUser(c: Cache, hands: map<nat, Hand>, p: nat)
    requires HandsOk(c, hands) && p in hands
    ensures hands[p].i < NBUF && c.holders[hands[p].i] > 0
  {
    assert p in Users(hands, hands[p].i);
  }

  lemma HandsAwaited(c: Cache, hands: map<nat, Hand>, p: nat, i: nat, b: nat)
    requires HandsOk(c, hands) && p !in hands && i < NBUF && Caches(c.bufs[i], b)
    ensures HandsOk(Awaited(c, i), hands[p := Hand(i, b, false)])
  {
    hide Users;
    forall k: nat { UsersAdded(hands, p, Hand(i, b, false), k); }
  }

  lemma HandsRecycled(c: Cache, hands: map<nat, Hand>, p: nat, i: nat, b: nat)
    requires Good(c) && HandsOk(c, hands) && p !in hands && i < NBUF && c.bufs[i].refcnt == 0
    ensures HandsOk(Recycled(c, i, b), hands[p := Hand(i, b, false)])
  {
    hide Users, Unique, Coherent;
    HoldersCount(c, i);
    forall k: nat { UsersAdded(hands, p, Hand(i, b, false), k); }
    forall q | q in hands ensures hands[q].i != i { HasUser(c, hands, q); }
  }

  lemma HandsTaken(c: Cache, hands: map<nat, Hand>, p: nat, c': Cache)
    requires HandsOk(c, hands) && p in hands && hands[p].i < NBUF && !c.bufs[hands[p].i].locked
    requires c'.holders == c.holders && c'.dirty == {} && |c'.bufs| == NBUF
    requires var i := hands[p].i; forall k | 0 <= k < NBUF && k != i :: c'.bufs[k] == c.bufs[k]
    requires var i := hands[p].i; Caches(c'.bufs[i], hands[p].b) && c'.bufs[i].locked && c'.bufs[i].valid
    ensures HandsOk(c', hands[p := hands[p].(locked := true)])
  {
    hide Users;
    forall k: nat { UsersSame(hands, p, hands[p].(locked := true), k); }
  }

  lemma HandsReleased(c: Cache, hands: map<nat, Hand>, p: nat)
    requires Good(c) && HandsOk(c, hands) && p in hands && hands[p].locked
    ensures hands[p].i < NBUF && c.bufs[hands[p].i].refcnt > 0 && c.holders[hands[p].i] > 0
    ensures HandsOk(Released(c, hands[p].i), hands - {p})
  {
    hide Users, Unique, Coherent;
    HasUser(c, hands, p);
    HoldersCount(c, hands[p].i);
    forall k: nat { UsersRemoved(hands, p, k); }
  }

  lemma HandsUndisturbed(c: Cache, c': Cache, hands: map<nat, Hand>)
    requires HandsOk(c, hands) && Undisturbed(c, c') && c'.dirty == {}
    ensures HandsOk(c', hands)
  {
    hide Users;
    forall p | p in hands ensures HandOk(c', hands[p]) { HasUser(c, hands, p); }
  }

  // ----- a commit under way

  /** The log in the middle of committing t, with j of its writes done. */
  ghost predicate MidOk(c: Cache, trace: seq<Write>, start: nat, base: Image, boot: seq<Write>, done: seq<Txn>, t: Txn,
                        j: nat) {
    && TxnOk(start, t) && |t.lh| > 0 && TxnsOk(start, done) && HeadCount(base, start) == 0
    && (var d := Apply(base, RunTrace(start, base, done));
        var ws := CommitTrace(start, At(d, start), t);
        && j < |ws| && HeadCount(d, start) == 0
        && trace == boot + RunTrace(start, base, done) + ws[..j] && c.disk == Apply(d, ws[..j]))
    && c.pins.Keys == SetOf(Installing(t.lh, j))
    && forall k | 0 <= k < |t.lh| :: At(c.logical, t.lh[k]) == t.data[k]
  }

  /** The blocks that are not installed yet after j writes. */
  function Installing(lh: seq<nat>, j: nat): seq<nat> {
    lh[HowMany(|lh|, j)..]
  }

  function HowMany(n: nat, j: nat): (k: nat)
    ensures k <= n
  {
    if j <= n + 1 then 0 else if j > 2 * n + 1 then n else j - n - 1
  }

  /** What write number j is, and what the blocks hold from which it is made. */
  lemma WriteIs(start: nat, d: Image, t: Txn, j: nat)
    requires TxnOk(start, t) && |t.lh| > 0 && HeadCount(d, start) == 0 && j < 2 * |t.lh| + 2
    ensures var ws := CommitTrace(start, At(d, start), t);
            var n, e := |t.lh|, Apply(d, ws[..j]);
            && |ws| == 2 * n + 2
            && (j < n ==> ws[j] == Write(start + j + 1, t.data[j]))
            && (j == n ==> ws[j] == Write(start, HeadBlock(At(e, start), t.lh)))
            && (n < j <= 2 * n ==>
                 && ws[j] == Write(t.lh[j - n - 1], At(e, start + (j - n - 1) + 1))
                 && At(e, start + (j - n - 1) + 1) == t.data[j - n - 1])
            && (j == 2 * n + 1 ==> ws[j] == Write(start, HeadBlock(At(e, start), [])))
            && Apply(d, ws[..j + 1]) == e[ws[j].block := ws[j].data] && ws[..j + 1] == ws[..j] + [ws[j]]
  {
    hide CommitTrace, Apply, InstallWrites, LogWrites, HeadBlock, At, TxnOk, HeadCount;
    var ws, n := CommitTrace(start, At(d, start), t), |t.lh|;
    L.CommitIs(start, At(d, start), t);
    L.NextWrite(d, ws, j);
    if j == n {
      L.StoppedInLog(start, d, t, n);
      L.Stages(start, d, t);
    } else if n < j <= 2 * n {
      InstallReads(start, d, t, j);
    } else if j == 2 * n + 1 {
      L.Stages(start, d, t);
      AllButLast(start, d, t);
    }
  }

  lemma InstallReads(start: nat, d: Image, t: Txn, j: nat)
    requires TxnOk(start, t) && |t.lh| > 0 && HeadCount(d, start) == 0 && |t.lh| < j <= 2 * |t.lh|
    ensures |CommitTrace(start, At(d, start), t)| == 2 * |t.lh| + 2
    ensures var k := j - |t.lh| - 1; At(Apply(d, CommitTrace(start, At(d, start), t)[..j]), start + k + 1) == t.data[k]
  {
    hide CommitTrace, Apply, TxnOk, HeadBlock;
    CrashAfterHead(start, d, t, j);
  }

  lemma AllButLast(start: nat, d: Image, t: Txn)
    requires TxnOk(start, t) && |t.lh| > 0
    ensures var ws, hb := CommitTrace(start, At(d, start), t), HeadBlock(At(d, start), t.lh);
            && |ws| == 2 * |t.lh| + 2
            && Apply(d, ws[..2 * |t.lh| + 1])
                 == Apply(Apply(d, LogWrites(start, t.data))[start := hb], InstallWrites(t.lh, t.data))
  {
    hide CommitTrace, Apply, InstallWrites, LogWrites, HeadBlock;
    var hb := HeadBlock(At(d, start), t.lh);
    var lw, iw, hw := LogWrites(start, t.data), InstallWrites(t.lh, t.data), Write(start, hb);
    L.CommitIs(start, At(d, start), t);
    assert CommitTrace(start, At(d, start), t)[..2 * |t.lh| + 1] == lw + [hw] + iw;
    ApplyOne(d, lw, hw);
    ApplyConcat(d, lw + [hw], iw);
  }

  /** What the commit writes next is what it finds in the cache: the newest contents of a logged
      block, the header, or a log block. */
  lemma MidReads(c: Cache, trace: seq<Write>, start: nat, base: Image, boot: seq<Write>, done: seq<Txn>, t: Txn, j: nat)
    requires Good(c) && MidOk(c, trace, start, base, boot, done, t, j)
    ensures At(c.logical, start) == At(c.disk, start) && j < 2 * |t.lh| + 2
    ensures |t.lh| < j <= 2 * |t.lh| ==>
              At(c.logical, start + (j - |t.lh| - 1) + 1) == At(c.disk, start + (j - |t.lh| - 1) + 1)
    ensures j < |t.lh| ==> t.lh[j] in c.pins
    ensures |t.lh| < j <= 2 * |t.lh| ==> t.lh[j - |t.lh| - 1] in c.pins
  {
    hide Unique, Counted, RunTrace, Apply, CommitTrace, HeadCount;
    var lh := Installing(t.lh, j);
    forall b | InLog(start, b) ensures At(c.logical, b) == At(c.disk, b) {
      assert b !in t.lh;
      assert b !in lh;
      assert b !in c.pins.Keys;
    }
    if j < |t.lh| { assert t.lh[j] in lh; assert t.lh[j] in c.pins.Keys; }
    if |t.lh| < j <= 2 * |t.lh| { assert t.lh[j - |t.lh| - 1] == lh[0]; assert lh[0] in c.pins.Keys; }
  }

  /** The cache after write number j of the commit. */
  ghost predicate Stepped(c: Cache, c': Cache, w: Write, t: Txn, j: nat) {
    && c'.disk == c.disk[w.block := w.data] && c'.logical == c.logical[w.block := w.data]
    && c'.pins == if |t.lh| < j <= 2 * |t.lh| then c.pins - {t.lh[j - |t.lh| - 1]} else c.pins
  }

  lemma MidStep(c: Cache, trace: seq<Write>, start: nat, base: Image, boot: seq<Write>, done: seq<Txn>, t: Txn, j: nat,
                c': Cache, w: Write)
    requires MidOk(c, trace, start, base, boot, done, t, j) && Stepped(c, c', w, t, j) && j + 1 < 2 * |t.lh| + 2
    requires var d := Apply(base, RunTrace(start, base, done)); w == CommitTrace(start, At(d, start), t)[j]
    ensures MidOk(c', trace + [w], start, base, boot, done, t, j + 1)
  {
    hide RunTrace, Apply, CommitTrace, HeadCount, TxnsOk, HeadBlock, TxnOk, Installing, SetOf, At;
    var d := Apply(base, RunTrace(start, base, done));
    WriteIs(start, d, t, j);
    MidPins(c, c', t, j, start);
    MidLogical(c.logical, start, d, t, j, w);
    MidTrace(trace, boot, RunTrace(start, base, done), CommitTrace(start, At(d, start), t), j);
  }

  /** The last write of the commit. */
  lemma MidLast(c: Cache, trace: seq<Write>, start: nat, base: Image, boot: seq<Write>, done: seq<Txn>, t: Txn, j: nat,
                c': Cache, w: Write)
    requires MidOk(c, trace, start, base, boot, done, t, j) && Stepped(c, c', w, t, j) && j + 1 == 2 * |t.lh| + 2
    requires var d := Apply(base, RunTrace(start, base, done)); w == CommitTrace(start, At(d, start), t)[j]
    ensures TxnsOk(start, done + [t]) && HeadCount(c'.disk, start) == 0 && c'.pins == map[]
    ensures trace + [w] == boot + RunTrace(start, base, done + [t])
    ensures c'.disk == Apply(base, RunTrace(start, base, done + [t]))
  {
    hide RunTrace, Apply, CommitTrace, HeadCount, TxnsOk, HeadBlock, TxnOk, Installing, SetOf, At;
    var d := Apply(base, RunTrace(start, base, done));
    var ws := CommitTrace(start, At(d, start), t);
    WriteIs(start, d, t, j);
    MidPins(c, c', t, j, start);
    assert ws[..j + 1] == ws;
    L.RunGrows(start, base, done, t);
    CommitDone(start, d, t);
    MidTrace(trace, boot, RunTrace(start, base, done), ws, j);
  }

  /** No write of a commit changes the newest contents of a home block. */
  lemma MidLogical(l: Image, start: nat, d: Image, t: Txn, j: nat, w: Write)
    requires TxnOk(start, t) && |t.lh| > 0 && HeadCount(d, start) == 0 && j < 2 * |t.lh| + 2
    requires |CommitTrace(start, At(d, start), t)| == 2 * |t.lh| + 2 && w == CommitTrace(start, At(d, start), t)[j]
    requires forall k | 0 <= k < |t.lh| :: At(l, t.lh[k]) == t.data[k]
    ensures SameHome(start, l[w.block := w.data], l)
    ensures forall k | 0 <= k < |t.lh| :: At(l[w.block := w.data], t.lh[k]) == t.data[k]
  {
    hide Apply, CommitTrace, HeadCount, HeadBlock;
    WriteIs(start, d, t, j);
  }

  lemma MidTrace(trace: seq<Write>, boot: seq<Write>, a: seq<Write>, ws: seq<Write>, j: nat)
    requires j < |ws| && trace == boot + a + ws[..j]
    ensures trace + [ws[j]] == boot + a + ws[..j + 1]
    ensures j + 1 == |ws| ==> trace + [ws[j]] == boot + (a + ws)
  {
    assert ws[..j + 1] == ws[..j] + [ws[j]];
    if j + 1 == |ws| { assert ws[..j + 1] == ws; }
  }

  lemma MidPins(c: Cache, c': Cache, t: Txn, j: nat, start: nat)
    requires TxnOk(start, t) && j < 2 * |t.lh| + 2 && c.pins.Keys == SetOf(Installing(t.lh, j))
    requires c'.pins == if |t.lh| < j <= 2 * |t.lh| then c.pins - {t.lh[j - |t.lh| - 1]} else c.pins
    ensures j + 1 < 2 * |t.lh| + 2 ==> c'.pins.Keys == SetOf(Installing(t.lh, j + 1))
    ensures j + 1 == 2 * |t.lh| + 2 ==> c'.pins == map[]
  {
    hide SetOf;
    if |t.lh| < j <= 2 * |t.lh| {
      TailSet(t.lh, j - |t.lh| - 1);
    } else if j + 1 == 2 * |t.lh| + 2 {
      NoneLeft(t.lh);
    }
  }

  lemma NoneLeft(lh: seq<nat>)
    ensures SetOf(lh[|lh|..]) == {}
  {
  }

  lemma TailSet(lh: seq<nat>, k: nat)
    requires k < |lh| && forall i, j | 0 <= i < j < |lh| :: lh[i] != lh[j]
    ensures SetOf(lh[k..]) - {lh[k]} == SetOf(lh[k + 1..])
  {
    assert lh[k..] == [lh[k]] + lh[k + 1..];
  }

  // ----- runs

  datatype Act =
    | Begin(p: nat)                          // begin_op of operation p
    | End(p: nat)                            // end_op
    | Get(h: nat, b: nat)                    // bget with hand h, up to the wait for the lock
    | Take(h: nat)                           // the lock is free: take it, and read the block if need be
    | Change(p: nat, h: nat, data: Block)    // p changes the buffer in hand h and log_writes it
    | Put(h: nat)                            // brelse
    | Commit                                 // start a commit that is due, or go on with it by one block

  /** What can be seen of the log and the cache at one moment. */
  datatype Shot =
    | Shot(hands: map<nat, Hand>, left: map<nat, nat>, lh: seq<nat>, committing: bool, busy: bool, step: nat,
                       panicked: bool, bufs: seq<Buf>, logical: Image, trace: seq<Write>, txns: seq<Txn>)

  /** An operation starts if no commit is due and the log has room for it beside all the others. */
  predicate Admitted(s: Shot, p: nat) {
    !s.busy && !s.committing && p !in s.left && |s.lh| + (|s.left| + 1) * L.MAXOPBLOCKS <= LOGBLOCKS
  }

  /** Hand h is on a buffer whose lock nobody has. */
  predicate Takes(s: Shot, h: nat) {
    h in s.hands && !s.hands[h].locked && s.hands[h].i < |s.bufs| && !s.bufs[s.hands[h].i].locked
  }

  /** Hand h has its buffer's lock. */
  predicate Has(s: Shot, h: nat) {
    h in s.hands && s.hands[h].locked
  }

  /** Operation p may change the block in hand h. */
  predicate Changes(start: nat, s: Shot, p: nat, h: nat) {
    && !s.busy && Has(s, h) && p in s.left && s.hands[h].b < WORD_LIMIT && !InLog(start, s.hands[h].b)
    && (s.left[p] > 0 || s.hands[h].b in s.lh)
  }

  /** The commit needs a buffer that somebody has locked. */
  predicate Waits(start: nat, s: Shot) {
    var n := |s.lh|;
    if s.step < n then !Unlocked(s.bufs, start + s.step + 1) || !Unlocked(s.bufs, s.lh[s.step])
    else if n < s.step <= 2 * n then
      !Unlocked(s.bufs, start + s.step - n) || !Unlocked(s.bufs, s.lh[s.step - n - 1])
    else !Unlocked(s.bufs, start)
  }

  /** What a step of a thread does. */
  ghost predicate Did(start: nat, s: Shot, a: Act, t: Shot) {
    if s.panicked then t == s
    else
      match a
      case Begin(p) => t == if Admitted(s, p) then s.(left := s.left[p := L.MAXOPBLOCKS]) else s
      case End(p) =>
        t == if !s.busy && p in s.left then s.(left := s.left - {p}, committing := s.left.Keys == {p}) else s
      case Get(h, b) => DidGet(s, h, b, t)
      case Take(h) => DidTake(s, h, t)
      case Change(p, h, data) => DidChange(start, s, p, h, data, t)
      case Put(h) => DidPut(s, h, t)
      case Commit =>
        if s.busy then DidCommit(start, s, t)
        else if !s.committing then t == s
        else if s.lh == [] then t == s.(committing := false)
        else
          && t == s.(busy := true, step := 0, txns := t.txns)
          && exists x: Txn :: t.txns == s.txns + [x] && x.lh == s.lh && Snapshot(s.logical, x)
  }

  /** The transaction takes the newest contents of its blocks. */
  predicate Snapshot(l: Image, x: Txn) {
    |x.data| == |x.lh| && forall k | 0 <= k < |x.lh| :: x.data[k] == At(l, x.lh[k])
  }

  /** bget: one more user of the buffer that caches the block, or of a free one that is given to it. */
  ghost predicate DidGet(s: Shot, h: nat, b: nat, t: Shot) {
    if h in s.hands then t == s
    else if !Cached(s.bufs, b) && !SomeFree(s.bufs) then t == s.(panicked := true)
    else
      && h in t.hands && t == s.(hands := t.hands, bufs := t.bufs)
      && (var i := t.hands[h].i;
          && t.hands == s.hands[h := Hand(i, b, false)] && i < |s.bufs| == |t.bufs| && Caches(t.bufs[i], b)
          && (if Cached(s.bufs, b) then Caches(s.bufs[i], b) else s.bufs[i].refcnt == 0)
          && t.bufs == s.bufs[i := t.bufs[i]] && t.bufs[i].refcnt == s.bufs[i].refcnt + 1)
  }

  /** The lock is taken exactly if it was free, and then the buffer has the newest contents. */
  ghost predicate DidTake(s: Shot, h: nat, t: Shot) {
    if !Takes(s, h) then t == s
    else
      var i := s.hands[h].i;
      && t == s.(hands := s.hands[h := s.hands[h].(locked := true)], bufs := t.bufs)
      && |t.bufs| == |s.bufs| && t.bufs == s.bufs[i := t.bufs[i]]
      && t.bufs[i].locked && t.bufs[i].valid && t.bufs[i].data == At(s.logical, s.hands[h].b)
  }

  /** brelse. */
  ghost predicate DidPut(s: Shot, h: nat, t: Shot) {
    if !Has(s, h) then t == s
    else
      var i := s.hands[h].i;
      && t == s.(hands := s.hands - {h}, bufs := t.bufs) && i < |s.bufs| == |t.bufs|
      && t.bufs == s.bufs[i := t.bufs[i]] && !t.bufs[i].locked && t.bufs[i].refcnt == s.bufs[i].refcnt - 1
  }

  /** The block has the new contents for every later reader, and the log lists it once. */
  ghost predicate DidChange(start: nat, s: Shot, p: nat, h: nat, data: Block, t: Shot) {
    if !Changes(start, s, p, h) then t == s
    else if |s.lh| == LOGBLOCKS then t == s.(panicked := true)
    else
      var b := s.hands[h].b;
      && t == s.(lh := t.lh, left := t.left, bufs := t.bufs, logical := s.logical[b := data])
      && (if b in s.lh then t.lh == s.lh && t.left == s.left
          else t.lh == s.lh + [b] && s.left[p] > 0 && t.left == s.left[p := s.left[p] - 1])
  }

  /** One block of a commit is written, unless a buffer is locked or there is none. */
  ghost predicate DidCommit(start: nat, s: Shot, t: Shot) {
    && t.hands == s.hands && t.left == s.left && t.txns == s.txns
    && if Waits(start, s) then t == s
       else if t.panicked then t.trace == s.trace && !SomeFree(s.bufs)
       else
         && |t.trace| == |s.trace| + 1
         && if s.step < 2 * |s.lh| + 1 then t.busy && t.step == s.step + 1 && t.lh == s.lh
            else !t.busy && t.lh == [] && !t.committing
  }

  class Kernel {
    const log: L.Log
    var hands: map<nat, Hand>
    var busy: bool                   // a commit is under way
    var step: nat                    // how many blocks it has written
    var panicked: bool               // bget found no buffer, or log_write no room
    ghost var txn: Txn               // what it commits

    ghost predicate Valid()
      reads this, log, log.cache
    {
      && HandsOk(log.cache.State(), hands)
      && if busy then Mid() else log.Valid()
    }

    ghost predicate Mid()
      reads this, log, log.cache
    {
      && log.cache.Valid() && log.committing && log.outstanding == 0 && log.left == map[]
      && log.lh == txn.lh
      && MidOk(log.cache.State(), log.cache.trace, log.start, log.base, log.boot, log.done, txn, step)
    }

    /** The transactions that the writes so far belong to. */
    ghost function Txns(): seq<Txn>
      reads this, log
    {
      if busy then log.done + [txn] else log.done
    }

    ghost function Now(): Shot
      reads this, log, log.cache
    {
      Shot(hands, log.left, log.lh, log.committing, busy, step, panicked, log.cache.buf, log.cache.logical,
          log.cache.trace,
           Txns())
    }

    /** Whatever has happened, the disk writes are a first part of committing those one by one. */
    ghost predicate Tracked()
      reads this, log, log.cache
    {
      L.Follows(log.start, log.base, log.boot, log.cache.trace, Txns())
    }

    constructor (l: L.Log)
      requires l.Valid() && l.left == map[] && !l.committing && L.AllFree(l.cache.buf)
      ensures log == l && Valid() && Tracked() && !panicked && hands == map[] && !busy
    {
      hide HandsOk, L.AllFree, Good, Listed, MidOk, RunTrace, Apply, Sum, SetOf, HeadCount, HomesOk, TxnsOk, L.Follows;
      log, hands, busy, step, panicked, txn := l, map[], false, 0, false, Txn([], []);
      new;
      NobodyHolds(l.cache.State());
      ValidTracked();
    }

    lemma ValidTracked()
      requires Valid()
      ensures Tracked()
    {
      hide HandsOk, Good, Listed, RunTrace, Apply, CommitTrace, TxnsOk, HeadCount, Installing, SetOf;
      if busy {
        var d := Apply(log.base, RunTrace(log.start, log.base, log.done));
        L.CommitFollows(log.start, log.base, log.boot, log.done, txn, d, log.cache.trace, step);
      } else {
        assert log.cache.trace[|log.boot|..] == RunTrace(log.start, log.base, log.done);
      }
    }

    /** bget: the caller counts itself in the buffer of b. */
    method DoGet(p: nat, b: nat)
      requires Valid() && !panicked && p !in hands
      modifies this`hands, this`panicked, log.cache
      ensures panicked || Valid()
      ensures DidGet(old(Now()), p, b, Now())
    {
      hide HandsOk, Good, Listed, LruSorted, HomesOk, Cached, SomeFree, RunTrace, Apply, CommitTrace, TxnsOk, HeadCount;
      hide SetOf, Sum, Installing, TxnOk;
      ghost var c := log.cache.State();
      HandsClean(c, hands);
      var r := log.cache.Reference(b);
      if r == None {
        panicked := true;
        return;
      }
      if Cached(old(log.cache.buf), b) {
        HandsAwaited(c, hands, p, r.value, b);
      } else {
        HandsRecycled(c, hands, p, r.value, b);
      }
      hands := hands[p := Hand(r.value, b, false)];
    }

    /** The sleep lock, if it is free, and the contents: then the hand has the newest of its block. */
    method DoTake(p: nat)
      requires Valid() && !panicked && p in hands && !hands[p].locked
      modifies this`hands, log.cache
      ensures Valid() && DidTake(old(Now()), p, Now())
    {
      hide HandsOk, Good, Listed, LruSorted, HomesOk, RunTrace, Apply, CommitTrace, Installing, TxnsOk, HeadCount;
      hide SetOf, Sum, TxnOk;
      ghost var c := log.cache.State();
      var i := hands[p].i;
      HasUser(c, hands, p);
      HandAt(c, hands, p);
      if log.cache.buf[i].locked {
        return;
      }
      log.cache.Acquire(i);
      log.cache.Load(i);
      HandsTaken(c, hands, p, log.cache.State());
      hands := hands[p := hands[p].(locked := true)];
    }

    /** brelse. */
    method DoPut(p: nat)
      requires Valid() && !panicked && p in hands && hands[p].locked
      modifies this`hands, log.cache
      ensures Valid() && DidPut(old(Now()), p, Now())
    {
      hide HandsOk, Good, Listed, LruSorted, HomesOk, RunTrace, Apply, CommitTrace, Installing;
      ghost var c := log.cache.State();
      HandAt(c, hands, p);
      HandsReleased(c, hands, p);
      log.cache.Brelse(hands[p].i);
      hands := hands - {p};
    }

    /** Operation p changes the buffer in hand h and records it in the log. */
    method DoChange(p: nat, h: nat, data: Block)
      requires Valid() && !panicked && !busy && h in hands && hands[h].locked && p in log.left
      requires hands[h].b < WORD_LIMIT && !InLog(log.start, hands[h].b) && (log.left[p] > 0 || hands[h].b in log.lh)
      modifies this`panicked, log, log.cache
      ensures panicked ==> unchanged(log) && unchanged(log.cache)
      ensures Valid() && log.done == old(log.done) && log.base == old(log.base) && log.boot == old(log.boot)
      ensures DidChange(log.start, old(Now()), p, h, data, Now())
    {
      hide HandsOk, Good, Listed, LruSorted, HomesOk, RunTrace, Apply, CommitTrace, Installing, SetOf, HeadCount, Sum;
      ghost var c := log.cache.State();
      HandAt(c, hands, h);
      LogRoom();
      if |log.lh| == LOGBLOCKS {
        panicked := true;
        return;
      }
      log.cache.Modify(hands[h].i, data);
      var ok := log.LogWrite(p, hands[h].i);
      HandsChanged(c, hands, h, log.cache.State());
    }

    /** begin_op: wait while the log is committing or short of space. */
    method DoBegin(p: nat)
      requires Valid() && !panicked && !busy && p !in log.left
      modifies log
      ensures Valid() && log.done == old(log.done) && log.base == old(log.base) && log.boot == old(log.boot)
      ensures Did(log.start, old(Now()), Begin(p), Now())
    {
      hide HandsOk, Good, Listed, HomesOk, RunTrace, Apply, SetOf, HeadCount, Sum;
      var ok := log.BeginOp(p);
    }

    /** end_op; the last operation leaves a commit to be done. */
    method DoEnd(p: nat)
      requires Valid() && !panicked && !busy && p in log.left
      modifies log
      ensures Valid() && log.done == old(log.done) && log.base == old(log.base) && log.boot == old(log.boot)
      ensures Did(log.start, old(Now()), End(p), Now())
    {
      hide HandsOk, Good, Listed, HomesOk, RunTrace, Apply, SetOf, HeadCount, Sum;
      var last := log.EndOp(p);
    }

    /** The test at the start of commit. */
    method StartCommit()
      requires Valid() && !panicked && !busy && log.committing
      modifies this`busy, this`step, this`txn, log`committing
      ensures Valid() && (busy ==> txn == log.Pending())
      ensures Did(log.start, old(Now()), Commit, Now())
    {
      hide HandsOk, Good, Listed, LruSorted, RunTrace, Apply, CommitTrace, TxnsOk, HeadCount, Installing, SetOf;
      hide Sum, L.Newest;
      if |log.lh| == 0 {
        log.EndCommit();
      } else {
        busy, step, txn := true, 0, log.Pending();
        MidStart(log.cache.State(), log.cache.trace, log.start, log.base, log.boot, log.done, txn);
        NoneInside(log.left);
      }
    }

    /** Write number step of the commit is w. */
    ghost predicate Next(w: Write)
      reads this, log
    {
      && TxnsOk(log.start, log.done) && TxnOk(log.start, txn)
      && (var d := Apply(log.base, RunTrace(log.start, log.base, log.done));
          var ws := CommitTrace(log.start, At(d, log.start), txn);
          |ws| > step && w == ws[step])
    }

    /** What the commit writes next, in terms of what the cache holds. */
    lemma NextIs()
      requires Valid() && busy
      ensures var n, start, c := |log.lh|, log.start, log.cache.State();
              && 0 < n && HomesOk(start, log.lh) && step < 2 * n + 2
              && (step < n ==> log.lh[step] in c.pins && Next(Write(start + step + 1, At(c.logical, log.lh[step]))))
              && (step == n ==> Next(Write(start, HeadBlock(At(c.logical, start), log.lh))))
              && (n < step <= 2 * n ==>
                    var k := step - n - 1;
                    log.lh[k] in c.pins && Next(Write(log.lh[k], At(c.logical, start + k + 1))))
              && (step == 2 * n + 1 ==> Next(Write(start, HeadBlock(At(c.logical, start), []))))
    {
      hide HandsOk, Good, Listed, RunTrace, Apply, CommitTrace, TxnsOk, HeadCount, Installing, SetOf, HeadBlock, At;
      var d := Apply(log.base, RunTrace(log.start, log.base, log.done));
      MidReads(log.cache.State(), log.cache.trace, log.start, log.base, log.boot, log.done, txn, step);
      WriteIs(log.start, d, txn, step);
    }

    /** Count the write w, which the cache has just made. */
    lemma Advance(c: Cache, trace: seq<Write>, w: Write)
      requires busy && log.cache.Valid() && log.committing && log.outstanding == 0 && log.left == map[]
      requires log.lh == txn.lh
      requires MidOk(c, trace, log.start, log.base, log.boot, log.done, txn, step) && Next(w)
      requires Stepped(c, log.cache.State(), w, txn, step) && log.cache.trace == trace + [w] && step < 2 * |txn.lh| + 1
      requires HandsOk(c, hands) && Undisturbed(c, log.cache.State()) && log.cache.dirty == {}
      ensures HandsOk(log.cache.State(), hands)
      ensures MidOk(log.cache.State(), log.cache.trace, log.start, log.base, log.boot, log.done, txn, step + 1)
    {
      hide HandsOk, MidOk, Stepped, Good, Listed, RunTrace, Apply, CommitTrace;
      MidStep(c, trace, log.start, log.base, log.boot, log.done, txn, step, log.cache.State(), w);
      HandsUndisturbed(c, log.cache.State(), hands);
    }

    /** An iteration of write_log. */
    method LogStep()
      requires Valid() && !panicked && busy && step < |log.lh|
      requires Unlocked(log.cache.buf, log.start + step + 1) && Unlocked(log.cache.buf, log.lh[step])
      modifies this`step, this`panicked, log.cache
      ensures panicked || (Valid() && step == old(step) + 1 && |log.cache.trace| == |old(log.cache.trace)| + 1)
      ensures panicked ==> log.cache.trace == old(log.cache.trace) && !SomeFree(old(log.cache.buf))
    {
      hide HandsOk, Good, Listed, LruSorted, MidOk, RunTrace, Apply, CommitTrace, Next, Undisturbed, Unlocked;
      hide HeadBlock;
      NextIs();
      ghost var c, trace := log.cache.State(), log.cache.trace;
      HandsClean(c, hands);
      var ok := log.WriteLogBlock(step);
      if !ok {
        panicked := true;
        return;
      }
      Advance(c, trace, Write(log.start + step + 1, At(c.logical, log.lh[step])));
      step := step + 1;
    }

    /** write_head with the blocks of the transaction. */
    method HeadStep()
      requires Valid() && !panicked && busy && step == |log.lh| && Unlocked(log.cache.buf, log.start)
      modifies this`step, this`panicked, log.cache
      ensures panicked || (Valid() && step == old(step) + 1 && |log.cache.trace| == |old(log.cache.trace)| + 1)
      ensures panicked ==> log.cache.trace == old(log.cache.trace) && !SomeFree(old(log.cache.buf))
    {
      hide HandsOk, Good, Listed, LruSorted, MidOk, RunTrace, Apply, CommitTrace, Next, Undisturbed, Unlocked;
      hide HeadBlock;
      NextIs();
      ghost var c, trace := log.cache.State(), log.cache.trace;
      HandsClean(c, hands);
      var ok := log.WriteHead();
      if !ok {
        panicked := true;
        return;
      }
      Advance(c, trace, Write(log.start, HeadBlock(At(c.logical, log.start), log.lh)));
      step := step + 1;
    }

    /** An iteration of install_trans. */
    method InstallStep()
      requires Valid() && !panicked && busy && |log.lh| < step <= 2 * |log.lh|
      requires var k := step - |log.lh| - 1;
               Unlocked(log.cache.buf, log.start + k + 1) && Unlocked(log.cache.buf, log.lh[k])
      modifies this`step, this`panicked, log.cache
      ensures panicked || (Valid() && step == old(step) + 1 && |log.cache.trace| == |old(log.cache.trace)| + 1)
      ensures panicked ==> log.cache.trace == old(log.cache.trace) && !SomeFree(old(log.cache.buf))
    {
      hide HandsOk, Good, Listed, LruSorted, MidOk, RunTrace, Apply, CommitTrace, Next, Undisturbed, Unlocked;
      hide HeadBlock;
      NextIs();
      ghost var c, trace := log.cache.State(), log.cache.trace;
      HandsClean(c, hands);
      var k := step - |log.lh| - 1;
      var ok := log.InstallBlock(k, false);
      if !ok {
        panicked := true;
        return;
      }
      Advance(c, trace, Write(log.lh[k], At(c.logical, log.start + k + 1)));
      step := step + 1;
    }

    /** write_head with an empty log, and the rest of end_op. */
    method ClearStep()
      requires Valid() && !panicked && busy && step == 2 * |log.lh| + 1 && Unlocked(log.cache.buf, log.start)
      modifies this`step, this`busy, this`panicked, log, log.cache
      ensures log.base == old(log.base) && log.boot == old(log.boot)
      ensures panicked ==>
                && log.cache.trace == old(log.cache.trace) && busy && txn == old(txn) && log.done == old(log.done)
                && !SomeFree(old(log.cache.buf))
      ensures !panicked ==>
                && Valid() && !busy && log.done == old(log.done) + [txn] && log.lh == [] && !log.committing
                && |log.cache.trace| == |old(log.cache.trace)| + 1
      ensures log.left == old(log.left)
    {
      hide HandsOk, Good, Listed, LruSorted, MidOk, RunTrace, Apply, CommitTrace, Undisturbed, Unlocked, HeadBlock;
      hide SetOf, HeadCount, TxnsOk;
      NextIs();
      ghost var c, trace := log.cache.State(), log.cache.trace;
      HandsClean(c, hands);
      log.lh := [];
      var ok := log.WriteHead();
      if !ok {
        panicked := true;
        return;
      }
      Conclude(c, trace, Write(log.start, HeadBlock(At(c.logical, log.start), [])));
      log.done := log.done + [txn];
      busy := false;
      log.EndCommit();
    }

    lemma Conclude(c: Cache, trace: seq<Write>, w: Write)
      requires MidOk(c, trace, log.start, log.base, log.boot, log.done, txn, step) && Next(w)
      requires Stepped(c, log.cache.State(), w, txn, step) && log.cache.trace == trace + [w] && step == 2 * |txn.lh| + 1
      requires HandsOk(c, hands) && Undisturbed(c, log.cache.State()) && log.cache.dirty == {}
      ensures HandsOk(log.cache.State(), hands)
      ensures var ts, start := log.done + [txn], log.start;
              && TxnsOk(start, ts) && HeadCount(log.cache.disk, start) == 0 && HeadCount(log.base, start) == 0
              && log.cache.pins == map[] && log.cache.pins.Keys == SetOf([])
              && log.cache.trace == log.boot + RunTrace(start, log.base, ts)
              && log.cache.disk == Apply(log.base, RunTrace(start, log.base, ts))
    {
      hide HandsOk, Stepped, Good, Listed, RunTrace, Apply, CommitTrace, HeadCount;
      MidLast(c, trace, log.start, log.base, log.boot, log.done, txn, step, log.cache.State(), w);
      HandsUndisturbed(c, log.cache.State(), hands);
    }

    /** The next block of a commit, unless it must wait for a buffer. */
    method CommitStep()
      requires Valid() && !panicked && busy
      modifies this`step, this`busy, this`panicked, log, log.cache
      ensures log.base == old(log.base) && log.boot == old(log.boot)
      ensures panicked || Valid()
      ensures DidCommit(log.start, old(Now()), Now())
    {
      hide HandsOk, Good, Listed, MidOk, RunTrace, Apply, CommitTrace, Next, Unlocked, SetOf, HeadCount, TxnsOk, Sum;
      NextIs();
      var n, c := |log.lh|, log.cache;
      if step < n {
        if Unlocked(c.buf, log.start + step + 1) && Unlocked(c.buf, log.lh[step]) {
          LogStep();
        }
      } else if step == n {
        if Unlocked(c.buf, log.start) {
          HeadStep();
        }
      } else if step <= 2 * n {
        if Unlocked(c.buf, log.start + step - n) && Unlocked(c.buf, log.lh[step - n - 1]) {
          InstallStep();
        }
      } else if Unlocked(c.buf, log.start) {
        ClearStep();
      }
    }

    /** Any thread takes its next step, if it can. */
    method Step(a: Act)
      requires Tracked() && (panicked || Valid())
      modifies this, log, log.cache
      ensures Tracked() && (panicked || Valid())
      ensures log.base == old(log.base) && log.boot == old(log.boot)
      ensures old(Txns()) <= Txns() && Did(log.start, old(Now()), a, Now())
    {
      hide Valid, L.Follows, RunTrace, HomesOk, Cached, SomeFree, HeadCount, InLog;
      if panicked {
        return;
      }
      match a {
        case Begin(p) => if !busy && p !in log.left { DoBegin(p); }
        case End(p) => if !busy && p in log.left { DoEnd(p); }
        case Get(h, b) => if h !in hands { DoGet(h, b); }
        case Take(h) => if h in hands && !hands[h].locked { DoTake(h); }
        case Change(p, h, data) => TryChange(p, h, data);
        case Put(h) => if h in hands && hands[h].locked { DoPut(h); }
        case Commit =>
          if busy {
            CommitStep();
          } else if log.committing {
            StartCommit();
          }
      }
      if !panicked { ValidTracked(); }
    }

    /** An operation changes blocks outside the log only, and no more than it has reserved. */
    method TryChange(p: nat, h: nat, data: Block)
      requires Valid() && !panicked
      modifies this`panicked, log, log.cache
      ensures Valid() && log.done == old(log.done) && log.base == old(log.base) && log.boot == old(log.boot)
      ensures DidChange(log.start, old(Now()), p, h, data, Now())
    {
      hide HandsOk, Good, Listed, MidOk, RunTrace, Apply, CommitTrace, SetOf, HeadCount, TxnsOk, Sum;
      if h in hands && hands[h].locked && p in log.left {
        var b := hands[h].b;
        if b < WORD_LIMIT && !InLog(log.start, b) && (log.left[p] > 0 || b in log.lh) {
          DoChange(p, h, data);
        }
      }
    }

    /** After any steps of any threads in any order, and even at a panic, the disk writes are a first
        part of committing the transactions one by one; and every step did what its thread asked for. */
    method Run(acts: seq<Act>) returns (ghost shots: seq<Shot>)
      requires Tracked() && (panicked || Valid())
      modifies this, log, log.cache
      ensures Tracked() && (panicked || Valid())
      ensures log.base == old(log.base) && log.boot == old(log.boot)
      ensures old(Txns()) <= Txns()
      ensures |shots| == |acts| + 1 && shots[0] == old(Now()) && shots[|acts|] == Now()
      ensures forall k | 0 <= k < |acts| :: Did(log.start, shots[k], acts[k], shots[k + 1])
    {
      hide Valid, Tracked, Did;
      shots := [Now()];
      for i := 0 to |acts|
        invariant Tracked() && (panicked || Valid())
        invariant log.base == old(log.base) && log.boot == old(log.boot)
        invariant old(Txns()) <= Txns()
        invariant |shots| == i + 1 && shots[0] == old(Now()) && shots[i] == Now()
        invariant forall k | 0 <= k < i :: Did(log.start, shots[k], acts[k], shots[k + 1])
      {
        Step(acts[i]);
        shots := shots + [Now()];
      }
    }

    /** So a crash after any of those writes, and recoveries cut short after it, leave exactly the
        transactions whose header was written. */
    lemma CrashIn(k: nat, ks: seq<nat>)
      requires Tracked() && |log.boot| <= k <= |log.cache.trace|
      ensures TxnsOk(log.start, L.Survivors(log.boot, Txns(), k))
      ensures var e := Attempts(log.start, Apply(log.base, log.cache.trace[|log.boot|..k]), ks);
              && Recoverable(e, log.start)
              && Idle(log.start, Recover(log.start, e),
                   InstalledAll(log.start, log.base, L.Survivors(log.boot, Txns(), k)))
    {
      hide L.Follows, RunTrace, Idle, Attempts, Recover, InstalledAll, Committed, Apply, Head, HomesOk, TxnsOk;
      log.CrashAt(Txns(), k, ks);
    }

    /** Whoever has the lock of a buffer has it alone, and sees the newest contents of its block. */
    lemma HolderSees(p: nat, q: nat)
      requires Valid() && p in hands && hands[p].locked
      ensures var i := hands[p].i;
              && i < |log.cache.buf| && log.cache.buf[i].data == At(log.cache.logical, hands[p].b)
              && (q in hands && hands[q].i == i && hands[q].locked ==> q == p)
    {
      hide Users, Unique, Counted, Listed, MidOk, RunTrace, Apply;
      HandAt(log.cache.State(), hands, p);
    }

    lemma LogRoom()
      requires log.Valid()
      ensures |log.lh| <= LOGBLOCKS
    {
      hide Good, Listed, RunTrace, Apply, Sum;
    }
  }

  lemma HandAt(c: Cache, hands: map<nat, Hand>, p: nat)
    requires HandsOk(c, hands) && p in hands
    ensures HandOk(c, hands[p]) && |c.bufs| == |c.holders| == NBUF && c.dirty == {}
  {
    hide Users;
  }

  lemma HandsClean(c: Cache, hands: map<nat, Hand>)
    requires HandsOk(c, hands)
    ensures c.dirty == {} && |c.bufs| == NBUF
  {
    hide Users;
  }

  lemma HandsChanged(c: Cache, hands: map<nat, Hand>, p: nat, c': Cache)
    requires HandsOk(c, hands) && p in hands && c'.holders == c.holders && c'.dirty == {} && |c'.bufs| == |c.bufs|
    requires forall k | 0 <= k < |c.bufs| :: c'.bufs[k]
               == c.bufs[k].(data := c'.bufs[k].data, refcnt := c'.bufs[k].refcnt)
    ensures HandsOk(c', hands)
  {
    hide Users;
  }

  lemma MidStart(c: Cache, trace: seq<Write>, start: nat, base: Image, boot: seq<Write>, done: seq<Txn>, t: Txn)
    requires HomesOk(start, t.lh) && |t.lh| > 0 && t.data == L.Newest(c.logical, t.lh) && c.pins.Keys == SetOf(t.lh)
    requires TxnsOk(start, done) && HeadCount(base, start) == 0 && HeadCount(c.disk, start) == 0
    requires trace == boot + RunTrace(start, base, done) && c.disk == Apply(base, RunTrace(start, base, done))
    ensures MidOk(c, trace, start, base, boot, done, t, 0)
  {
    hide RunTrace, CommitTrace, TxnsOk, HeadCount, SetOf, Apply, At, HeadBlock, LogWrites, InstallWrites, HomesOk;
    hide L.Newest;
    L.PendingOk(start, t.lh, c.logical);
    L.CommitIs(start, At(c.disk, start), t);
    L.ApplyNothing(c.disk, CommitTrace(start, At(c.disk, start), t));
  }

  lemma NoneInside(left: map<nat, nat>)
    ensures |left| == 0 ==> left == map[]
  {
  }

  lemma NobodyHolds(c: Cache)
    requires Good(c) && L.AllFree(c.bufs)
    ensures HandsOk(c, map[])
  {
    hide Unique;
    T.FreeRests(c);
    forall i | 0 <= i < NBUF ensures c.holders[i] == |Users(map[], i)| {
      HoldersCount(c, i);
      assert Users(map[], i) == {};
    }
  }
}
