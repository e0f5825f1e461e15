/** What the redo log promises: a transaction that is cut short by a crash, any number
    of times, is either entirely installed or entirely absent after recovery.

    A transaction logs the blocks lh, whose new contents are data. Committing it is a
    fixed sequence of block writes (CommitTrace); recovery is the sequence of writes that
    RecoverTrace reads off the disk it finds. */
module Crash {
  import opened Disk

  const LOGBLOCKS: nat := 30

  datatype Txn = Txn(lh: seq<nat>, data: seq<Block>)

  /** The log area: a header block, then LOGBLOCKS blocks. */
  predicate InLog(start: nat, b: nat) {
    start <= b <= start + LOGBLOCKS
  }

  /** Header entries: distinct home blocks, no more than the log has room for. */
  predicate HomesOk(start: nat, lh: seq<nat>) {
    && |lh| <= LOGBLOCKS
    && (forall i | 0 <= i < |lh| :: lh[i] < WORD_LIMIT && !InLog(start, lh[i]))
    && (forall i, j | 0 <= i < j < |lh| :: lh[i] != lh[j])
  }

  predicate TxnOk(start: nat, t: Txn) {
    |t.lh| == |t.data| && HomesOk(start, t.lh)
  }

  // ----- the header block

  /** hb with the count and the first |lh| entries overwritten, as write_head leaves it. */
  function HeadBlock(hb: Block, lh: seq<nat>): (r: Block)
    requires |lh| <= LOGBLOCKS && forall i | 0 <= i < |lh| :: lh[i] < WORD_LIMIT
    ensures r[0] == |lh|
    ensures r[1..1 + |lh|] == lh
    ensures r[1 + |lh|..] == hb[1 + |lh|..]
  {
    [|lh|] + lh + hb[1 + |lh|..]
  }

  function HeadCount(d: Image, start: nat): nat {
    At(d, start)[0]
  }

  /** A header whose count fits; every header the log writes does. */
  predicate HeadOk(d: Image, start: nat) {
    HeadCount(d, start) <= LOGBLOCKS
  }

  function Head(d: Image, start: nat): (lh: seq<nat>)
    requires HeadOk(d, start)
  {
    At(d, start)[1..1 + HeadCount(d, start)]
  }

  /** A disk on which recovery can start: the header lists distinct home blocks. */
  predicate Recoverable(d: Image, start: nat) {
    HeadOk(d, start) && HomesOk(start, Head(d, start))
  }

  // ----- the write sequences

  /** write_log: copy every logged block into the log area. */
  function LogWrites(start: nat, data: seq<Block>): (ws: seq<Write>)
    ensures |ws| == |data|
    ensures forall i | 0 <= i < |data| :: ws[i] == Write(start + 1 + i, data[i])
  {
    if data == [] then []
    else LogWrites(start, data[..|data| - 1]) + [Write(start + |data|, data[|data| - 1])]
  }

  /** install_trans: copy every logged block to its home. */
  function InstallWrites(lh: seq<nat>, data: seq<Block>): (ws: seq<Write>)
    requires |lh| == |data|
    ensures |ws| == |lh|
    ensures forall i | 0 <= i < |lh| :: ws[i] == Write(lh[i], data[i])
  {
    if lh == [] then []
    else InstallWrites(lh[..|lh| - 1], data[..|data| - 1]) + [Write(lh[|lh| - 1], data[|data| - 1])]
  }

  /** Everything commit writes, in order, when the header block on disk is hb. */
  function CommitTrace(start: nat, hb: Block, t: Txn): (ws: seq<Write>)
    requires TxnOk(start, t)
    ensures |ws| == if |t.lh| == 0 then 0 else 2 * |t.lh| + 2
  {
    if |t.lh| == 0 then []
    else
      LogWrites(start, t.data) + [Write(start, HeadBlock(hb, t.lh))]
      + InstallWrites(t.lh, t.data) + [Write(start, HeadBlock(HeadBlock(hb, t.lh), []))]
  }

  /** The log blocks that the header on disk speaks of. */
  function Logged(d: Image, start: nat, n: nat): (data: seq<Block>)
    ensures |data| == n
    ensures forall i | 0 <= i < n :: data[i] == At(d, start + 1 + i)
  {
    if n == 0 then [] else Logged(d, start, n - 1) + [At(d, start + n)]
  }

  /** Everything recover_from_log writes when it finds the disk d. */
  function RecoverTrace(start: nat, d: Image): (ws: seq<Write>)
    requires HeadOk(d, start)
    ensures |ws| == HeadCount(d, start) + 1
  {
    InstallWrites(Head(d, start), Logged(d, start, HeadCount(d, start)))
    + [Write(start, HeadBlock(At(d, start), []))]
  }

  // ----- crashes

  /** The disk after the first k writes of a commit. */
  function CrashedCommit(start: nat, d: Image, t: Txn, k: nat): Image
    requires TxnOk(start, t) && k <= |CommitTrace(start, At(d, start), t)|
  {
    Apply(d, CommitTrace(start, At(d, start), t)[..k])
  }

  /** A recovery that stops after k of its writes, or finishes if it has no more than k. */
  function Attempt(start: nat, d: Image, k: nat): Image
    requires HeadOk(d, start)
  {
    var ws := RecoverTrace(start, d);
    Apply(d, if k < |ws| then ws[..k] else ws)
  }

  /** Recovery attempts, one after another. (No attempt gets a header whose count is too
      big; see CrashAtomic.) */
  function Attempts(start: nat, d: Image, ks: seq<nat>): Image
    decreases |ks|
  {
    if ks == [] || !HeadOk(d, start) then d
    else Attempts(start, Attempt(start, d, ks[0]), ks[1..])
  }

  function Recover(start: nat, d: Image): Image
    requires HeadOk(d, start)
  {
    Apply(d, RecoverTrace(start, d))
  }

  /** The disk the transaction asks for. */
  function Installed(d: Image, t: Txn): Image
    requires |t.lh| == |t.data|
  {
    Apply(d, InstallWrites(t.lh, t.data))
  }

  ghost predicate SameHome(start: nat, d: Image, d': Image) {
    forall b: nat | !InLog(start, b) :: At(d, b) == At(d', b)
  }

  // ----- the three situations a crash can leave

  /** No transaction in the log, and the home blocks are those of d0. */
  ghost predicate Idle(start: nat, d: Image, d0: Image) {
    HeadCount(d, start) == 0 && SameHome(start, d, d0)
  }

  /** t is committed but perhaps not installed: every other home block is that of d0. */
  ghost predicate Pending(start: nat, d: Image, d0: Image, t: Txn)
  {
    && TxnOk(start, t)
    && HeadOk(d, start)
    && Head(d, start) == t.lh
    && (forall i | 0 <= i < |t.lh| :: At(d, start + 1 + i) == t.data[i])
    && (forall b: nat | !InLog(start, b) && b !in t.lh :: At(d, b) == At(d0, b))
  }

  lemma InstallTouches(start: nat, t: Txn, k: nat, b: nat)
    requires TxnOk(start, t) && k <= |t.lh|
    requires InLog(start, b) || b !in t.lh
    ensures !Touches(InstallWrites(t.lh, t.data)[..k], b)
  {
    var ws := InstallWrites(t.lh, t.data);
    forall i | 0 <= i < k ensures ws[..k][i].block != b {
      assert ws[..k][i] == Write(t.lh[i], t.data[i]);
    }
  }

  /** Installed sets exactly the logged home blocks. */
  lemma InstalledAt(start: nat, d: Image, t: Txn, b: nat)
    requires TxnOk(start, t)
    ensures b !in t.lh ==> At(Installed(d, t), b) == At(d, b)
    ensures forall i | 0 <= i < |t.lh| && t.lh[i] == b :: At(Installed(d, t), b) == t.data[i]
  {
    var ws := InstallWrites(t.lh, t.data);
    if b !in t.lh {
      InstallTouches(start, t, |t.lh|, b);
      assert ws[..|t.lh|] == ws;
      ApplyUntouched(d, ws, b);
    }
    forall i | 0 <= i < |t.lh| && t.lh[i] == b ensures At(Installed(d, t), b) == t.data[i] {
      ApplyLast(d, ws, i);
    }
  }

  /** A prefix of the installation keeps the transaction pending. */
  lemma InstallPrefixPending(start: nat, d: Image, d0: Image, t: Txn, k: nat)
    requires Pending(start, d, d0, t) && k <= |t.lh|
    ensures Pending(start, Apply(d, InstallWrites(t.lh, t.data)[..k]), d0, t)
  {
    var ws := InstallWrites(t.lh, t.data)[..k];
    var e := Apply(d, ws);
    forall b: nat | InLog(start, b) || b !in t.lh ensures At(e, b) == At(d, b) {
      InstallTouches(start, t, k, b);
      ApplyUntouched(d, ws, b);
    }
    assert At(e, start) == At(d, start);
    forall i | 0 <= i < |t.lh| ensures At(e, start + 1 + i) == t.data[i] {
      assert InLog(start, start + 1 + i);
    }
  }

  /** Installing a pending transaction gives the new contents of every home block. */
  lemma InstallCatchesUp(start: nat, d: Image, d0: Image, t: Txn, b: nat)
    requires Pending(start, d, d0, t) && !InLog(start, b)
    ensures At(Installed(d, t), b) == At(Installed(d0, t), b)
  {
    hide Apply;
    InstalledAt(start, d, t, b);
    InstalledAt(start, d0, t, b);
    if b in t.lh {
      var i :| 0 <= i < |t.lh| && t.lh[i] == b;
      assert At(Installed(d, t), b) == t.data[i];
    }
  }

  lemma ApplyOne(d: Image, ws: seq<Write>, w: Write)
    ensures Apply(d, ws + [w]) == Apply(d, ws)[w.block := w.data]
  {
    assert (ws + [w])[..|ws|] == ws;
  }

  /** Installing a pending transaction and clearing the header leaves exactly the new disk. */
  lemma ClearedInstall(start: nat, d: Image, d0: Image, t: Txn)
    requires Pending(start, d, d0, t)
    ensures Idle(start, Apply(d, InstallWrites(t.lh, t.data) + [Write(start, HeadBlock(At(d, start), []))]),
              Installed(d0, t))
  {
    hide HeadBlock, Apply;
    var w := Write(start, HeadBlock(At(d, start), []));
    ApplyOne(d, InstallWrites(t.lh, t.data), w);
    forall b: nat | !InLog(start, b) ensures At(Installed(d, t), b) == At(Installed(d0, t), b) {
      InstallCatchesUp(start, d, d0, t, b);
    }
  }

  lemma PendingRecovers(start: nat, d: Image, d0: Image, t: Txn)
    requires Pending(start, d, d0, t)
    ensures RecoverTrace(start, d) == InstallWrites(t.lh, t.data) + [Write(start, HeadBlock(At(d, start), []))]
  {
    assert Logged(d, start, |t.lh|) == t.data;
  }

  /** One interrupted recovery of a pending transaction leaves it pending or done. */
  lemma PendingAttempt(start: nat, d: Image, d0: Image, t: Txn, k: nat)
    requires Pending(start, d, d0, t)
    ensures HeadOk(d, start)
    ensures if k <= |t.lh| then Pending(start, Attempt(start, d, k), d0, t)
            else Idle(start, Attempt(start, d, k), Installed(d0, t))
  {
    hide HeadBlock, InstallWrites, Apply;
    PendingRecovers(start, d, d0, t);
    var ws := RecoverTrace(start, d);
    if k <= |t.lh| {
      assert ws[..k] == InstallWrites(t.lh, t.data)[..k];
      InstallPrefixPending(start, d, d0, t, k);
    } else {
      ClearedInstall(start, d, d0, t);
    }
  }

  lemma IdleRecoverTrace(start: nat, d: Image, d0: Image)
    requires Idle(start, d, d0)
    ensures RecoverTrace(start, d) == [Write(start, HeadBlock(At(d, start), []))]
  {
    hide HeadBlock, At;
    assert InstallWrites([], []) == [];
    assert Logged(d, start, 0) == [];
  }

  lemma ApplySingle(d: Image, w: Write)
    ensures Apply(d, [w]) == d[w.block := w.data]
  {
    assert [w][..0] == [];
  }

  lemma IdleAttempt(start: nat, d: Image, d0: Image, k: nat)
    requires Idle(start, d, d0)
    ensures Idle(start, Attempt(start, d, k), d0)
  {
    hide HeadBlock, RecoverTrace, InstallWrites, Logged, Apply;
    var w := Write(start, HeadBlock(At(d, start), []));
    IdleRecoverTrace(start, d, d0);
    ApplySingle(d, w);
    ApplyNone(d);
    assert [w][..0] == [];
  }

  lemma {:induction false} IdleAttempts(start: nat, d: Image, d0: Image, ks: seq<nat>)
    requires Idle(start, d, d0)
    ensures Idle(start, Attempts(start, d, ks), d0)
    decreases |ks|
  {
    hide Attempt;
    if ks != [] {
      IdleAttempt(start, d, d0, ks[0]);
      IdleAttempts(start, Attempt(start, d, ks[0]), d0, ks[1..]);
    }
  }

  lemma {:induction false} PendingAttempts(start: nat, d: Image, d0: Image, t: Txn, ks: seq<nat>)
    requires Pending(start, d, d0, t)
    ensures var e := Attempts(start, d, ks);
            Pending(start, e, d0, t) || Idle(start, e, Installed(d0, t))
    decreases |ks|
  {
    hide Attempt, Idle, Installed;
    if ks != [] {
      PendingAttempt(start, d, d0, t, ks[0]);
      var e := Attempt(start, d, ks[0]);
      if ks[0] <= |t.lh| {
        PendingAttempts(start, e, d0, t, ks[1..]);
      } else {
        IdleAttempts(start, e, Installed(d0, t), ks[1..]);
      }
    }
  }

  lemma IdleRecovers(start: nat, d: Image, d0: Image)
    requires Idle(start, d, d0)
    ensures Recoverable(d, start) && Idle(start, Recover(start, d), d0)
  {
    hide HeadBlock, RecoverTrace, Apply;
    IdleAttempt(start, d, d0, |RecoverTrace(start, d)|);
  }

  lemma PendingRecovered(start: nat, d: Image, d0: Image, t: Txn)
    requires Pending(start, d, d0, t)
    ensures Recoverable(d, start) && Idle(start, Recover(start, d), Installed(d0, t))
  {
    hide HeadBlock, InstallWrites, RecoverTrace, Apply;
    PendingAttempt(start, d, d0, t, |RecoverTrace(start, d)|);
  }

  // ----- where a crash inside commit leaves the disk

  /** Before the header write, the home blocks and the header are untouched. */
  lemma CrashBeforeHead(start: nat, d: Image, t: Txn, k: nat)
    requires TxnOk(start, t) && HeadCount(d, start) == 0
    requires k <= |t.lh| && k <= |CommitTrace(start, At(d, start), t)|
    ensures Idle(start, CrashedCommit(start, d, t, k), d)
  {
    var ws := CommitTrace(start, At(d, start), t)[..k];
    forall i | 0 <= i < k ensures ws[i].block == start + 1 + i {
      assert ws[i] == LogWrites(start, t.data)[i];
    }
    forall b: nat | b == start || !InLog(start, b) ensures At(Apply(d, ws), b) == At(d, b) {
      ApplyUntouched(d, ws, b);
    }
  }

  /** The writes of write_log fill the log blocks and spare the home blocks. */
  lemma LogWritten(start: nat, d: Image, t: Txn)
    requires TxnOk(start, t)
    ensures forall i | 0 <= i < |t.lh| :: At(Apply(d, LogWrites(start, t.data)), start + 1 + i) == t.data[i]
    ensures SameHome(start, Apply(d, LogWrites(start, t.data)), d)
  {
    hide Apply, LogWrites;
    var lw := LogWrites(start, t.data);
    forall i | 0 <= i < |t.lh| ensures At(Apply(d, lw), start + 1 + i) == t.data[i] {
      ApplyLast(d, lw, i);
    }
    forall b: nat | !InLog(start, b) ensures At(Apply(d, lw), b) == At(d, b) {
      forall i | 0 <= i < |lw| ensures lw[i].block != b {
        assert InLog(start, start + 1 + i);
      }
      ApplyUntouched(d, lw, b);
    }
  }

  lemma CommitUpToHead(start: nat, hb: Block, t: Txn)
    requires TxnOk(start, t) && |t.lh| > 0
    ensures CommitTrace(start, hb, t)[..|t.lh| + 1] == LogWrites(start, t.data) + [Write(start, HeadBlock(hb, t.lh))]
  {
    hide HeadBlock;
  }

  /** Right after the header write the transaction is pending. */
  lemma HeadWritten(start: nat, d: Image, t: Txn)
    requires TxnOk(start, t) && |t.lh| > 0
    ensures Pending(start, CrashedCommit(start, d, t, |t.lh| + 1), d, t)
    ensures At(CrashedCommit(start, d, t, |t.lh| + 1), start) == HeadBlock(At(d, start), t.lh)
  {
    hide HeadBlock, Apply, CommitTrace, LogWrites;
    CommitUpToHead(start, At(d, start), t);
    LogWritten(start, d, t);
    ApplyOne(d, LogWrites(start, t.data), Write(start, HeadBlock(At(d, start), t.lh)));
  }

  /** The writes after the header write. */
  lemma AfterHead(start: nat, hb: Block, t: Txn, k: nat)
    requires TxnOk(start, t) && |t.lh| < k <= |CommitTrace(start, hb, t)|
    ensures var ws, n, iw := CommitTrace(start, hb, t), |t.lh|, InstallWrites(t.lh, t.data);
            && ws[..k] == ws[..n + 1] + ws[n + 1..k]
            && (k <= 2 * n + 1 ==> ws[n + 1..k] == iw[..k - n - 1])
            && (k == 2 * n + 2 ==> ws[n + 1..k] == iw + [Write(start, HeadBlock(HeadBlock(hb, t.lh), []))])
  {
    hide HeadBlock;
  }

  /** Any later crash leaves it pending, and the whole commit leaves it installed. */
  lemma CrashAfterHead(start: nat, d: Image, t: Txn, k: nat)
    requires TxnOk(start, t) && HeadCount(d, start) == 0
    requires |t.lh| < k <= |CommitTrace(start, At(d, start), t)|
    ensures var e := CrashedCommit(start, d, t, k);
            if k < 2 * |t.lh| + 2 then Pending(start, e, d, t) else Idle(start, e, Installed(d, t))
  {
    hide HeadBlock, CommitTrace, Apply, Pending, Idle;
    var n := |t.lh|;
    var ws := CommitTrace(start, At(d, start), t);
    HeadWritten(start, d, t);
    AfterHead(start, At(d, start), t, k);
    ApplyConcat(d, ws[..n + 1], ws[n + 1..k]);
    if k < 2 * n + 2 {
      InstallPrefixPending(start, Apply(d, ws[..n + 1]), d, t, k - n - 1);
    } else {
      ClearedInstall(start, Apply(d, ws[..n + 1]), d, t);
    }
  }

  /** CRASH ATOMICITY. Stop a commit after any k of its writes, then stop recovery after
      any number of its writes, any number of times. The recovery that completes leaves
      the new home blocks if the header write happened, else the old ones, and a clear log. */
  lemma CrashAtomic(start: nat, d: Image, t: Txn, k: nat, ks: seq<nat>)
    requires TxnOk(start, t) && HeadCount(d, start) == 0
    requires k <= |CommitTrace(start, At(d, start), t)|
    ensures var e := Attempts(start, CrashedCommit(start, d, t, k), ks);
            && Recoverable(e, start)
            && Idle(start, Recover(start, e), if k > |t.lh| then Installed(d, t) else d)
  {
    hide HeadBlock, Pending, Idle, Attempts, CommitTrace, RecoverTrace, Apply, Head, HomesOk;
    var c := CrashedCommit(start, d, t, k);
    if k <= |t.lh| {
      CrashBeforeHead(start, d, t, k);
      IdleAttempts(start, c, d, ks);
      IdleRecovers(start, Attempts(start, c, ks), d);
    } else {
      CrashAfterHead(start, d, t, k);
      if Pending(start, c, d, t) {
        PendingAttempts(start, c, d, t, ks);
      } else {
        IdleAttempts(start, c, Installed(d, t), ks);
      }
      if Pending(start, Attempts(start, c, ks), d, t) {
        PendingRecovered(start, Attempts(start, c, ks), d, t);
      } else {
        IdleRecovers(start, Attempts(start, c, ks), Installed(d, t));
      }
    }
  }

  // ----- whole runs

  predicate TxnsOk(start: nat, ts: seq<Txn>) {
    forall i | 0 <= i < |ts| :: TxnOk(start, ts[i])
  }

  /** Every write of a run that commits ts one after another, starting on the disk d. */
  function RunTrace(start: nat, d: Image, ts: seq<Txn>): seq<Write>
    requires TxnsOk(start, ts)
    decreases |ts|
  {
    if ts == [] then []
    else
      var ws := CommitTrace(start, At(d, start), ts[0]);
      ws + RunTrace(start, Apply(d, ws), ts[1..])
  }

  /** The disk after the first k transactions, each all at once. */
  function InstalledAll(start: nat, d: Image, ts: seq<Txn>): Image
    requires TxnsOk(start, ts)
    decreases |ts|
  {
    if ts == [] then d else InstalledAll(start, Installed(d, ts[0]), ts[1..])
  }

  /** How many of the transactions have their header on disk after k writes of the run. */
  function Committed(ts: seq<Txn>, k: nat): (c: nat)
    ensures c <= |ts|
    decreases |ts|
  {
    if ts == [] then 0
    else
      var n := |ts[0].lh|;
      if n == 0 then 1 + Committed(ts[1..], k)
      else if k <= n then 0
      else if k < 2 * n + 2 then 1
      else 1 + Committed(ts[1..], k - (2 * n + 2))
  }

  /** Transactions do not mind the log area, so they agree on disks with the same home. */
  lemma {:induction false} InstalledAllSameHome(start: nat, d: Image, e: Image, ts: seq<Txn>)
    requires SameHome(start, d, e) && TxnsOk(start, ts)
    ensures SameHome(start, InstalledAll(start, d, ts), InstalledAll(start, e, ts))
    decreases |ts|
  {
    if ts != [] {
      var t := ts[0];
      forall b: nat | !InLog(start, b) ensures At(Installed(d, t), b) == At(Installed(e, t), b) {
        InstalledAt(start, d, t, b);
        InstalledAt(start, e, t, b);
        if b in t.lh { var i :| 0 <= i < |t.lh| && t.lh[i] == b; }
      }
      InstalledAllSameHome(start, Installed(d, t), Installed(e, t), ts[1..]);
    }
  }

  /** CRASH ATOMICITY OVER A RUN. Whenever a run of transactions is cut, and however often
      recovery is cut after that, what is recovered is exactly the transactions whose header
      had reached the disk, each in full and in order, and nothing of the others. */
  lemma {:induction false} RunAtomic(start: nat, d: Image, ts: seq<Txn>, k: nat, ks: seq<nat>)
    requires TxnsOk(start, ts)
    requires HeadCount(d, start) == 0
    requires k <= |RunTrace(start, d, ts)|
    ensures var e := Attempts(start, Apply(d, RunTrace(start, d, ts)[..k]), ks);
            && Recoverable(e, start)
            && Idle(start, Recover(start, e), InstalledAll(start, d, ts[..Committed(ts, k)]))
    decreases |ts|
  {
    hide HeadBlock, Pending, Idle, Attempts, CommitTrace, RecoverTrace, Apply, Head, HomesOk;
    var ws := RunTrace(start, d, ts);
    if ts == [] {
      assert ws[..k] == [];
      ApplyNone(d);
      IdleSelf(start, d);
      IdleAttempts(start, d, d, ks);
      IdleRecovers(start, Attempts(start, d, ks), d);
    } else {
      var t, ts' := ts[0], ts[1..];
      var cw := CommitTrace(start, At(d, start), t);
      var c := Committed(ts, k);
      if k < |cw| {
        assert ws[..k] == cw[..k];
        CrashAtomic(start, d, t, k, ks);
        if k > |t.lh| {
          assert ts[..c] == [t] && ts[..c][1..] == [];
        }
      } else {
        RunAfterFirst(start, d, ts, k);
        RunAtomic(start, Apply(d, cw), ts', k - |cw|, ks);
        RunCatchesUp(start, d, ts, k);
        var e := Attempts(start, Apply(d, ws[..k]), ks);
        IdleTrans(start, Recover(start, e), InstalledAll(start, Apply(d, cw), ts'[..c - 1]),
                  InstalledAll(start, d, ts[..c]));
      }
    }
  }

  /** Once the first commit is over, the rest of the run goes on from the disk it left. */
  lemma RunAfterFirst(start: nat, d: Image, ts: seq<Txn>, k: nat)
    requires TxnsOk(start, ts) && ts != [] && HeadCount(d, start) == 0
    requires |CommitTrace(start, At(d, start), ts[0])| <= k <= |RunTrace(start, d, ts)|
    ensures var cw := CommitTrace(start, At(d, start), ts[0]);
            var ws' := RunTrace(start, Apply(d, cw), ts[1..]);
            && HeadCount(Apply(d, cw), start) == 0
            && k - |cw| <= |ws'|
            && Apply(d, RunTrace(start, d, ts)[..k]) == Apply(Apply(d, cw), ws'[..k - |cw|])
  {
    hide CommitTrace, HeadBlock, Apply;
    var cw := CommitTrace(start, At(d, start), ts[0]);
    var ws' := RunTrace(start, Apply(d, cw), ts[1..]);
    CommitDone(start, d, ts[0]);
    assert RunTrace(start, d, ts)[..k] == cw + ws'[..k - |cw|];
    ApplyConcat(d, cw, ws'[..k - |cw|]);
  }

  /** ... and what the rest of the run promises is what the whole run promises. */
  lemma RunCatchesUp(start: nat, d: Image, ts: seq<Txn>, k: nat)
    requires TxnsOk(start, ts) && ts != [] && HeadCount(d, start) == 0
    requires |CommitTrace(start, At(d, start), ts[0])| <= k <= |RunTrace(start, d, ts)|
    ensures var cw := CommitTrace(start, At(d, start), ts[0]);
            var c := Committed(ts, k);
            && c == 1 + Committed(ts[1..], k - |cw|)
            && TxnsOk(start, ts[1..][..c - 1]) && TxnsOk(start, ts[..c])
            && SameHome(start, InstalledAll(start, Apply(d, cw), ts[1..][..c - 1]), InstalledAll(start, d, ts[..c]))
  {
    hide CommitTrace, HeadBlock, Apply, InstallWrites;
    var cw := CommitTrace(start, At(d, start), ts[0]);
    var c := Committed(ts, k);
    CommitDone(start, d, ts[0]);
    assert ts[..c][1..] == ts[1..][..c - 1] && ts[..c][0] == ts[0];
    InstalledAllSameHome(start, Apply(d, cw), Installed(d, ts[0]), ts[1..][..c - 1]);
  }

  lemma IdleSelf(start: nat, d: Image)
    requires HeadCount(d, start) == 0
    ensures Idle(start, d, d)
  {
  }

  lemma IdleTrans(start: nat, d: Image, e: Image, f: Image)
    requires Idle(start, d, e) && SameHome(start, e, f)
    ensures Idle(start, d, f)
  {
  }

  /** A commit that is not interrupted installs its transaction and clears the log. */
  lemma CommitDone(start: nat, d: Image, t: Txn)
    requires TxnOk(start, t) && HeadCount(d, start) == 0
    ensures var e := Apply(d, CommitTrace(start, At(d, start), t));
            HeadCount(e, start) == 0 && SameHome(start, e, Installed(d, t))
  {
    hide HeadBlock;
    var cw := CommitTrace(start, At(d, start), t);
    assert cw[..|cw|] == cw;
    if |t.lh| > 0 {
      CrashAfterHead(start, d, t, |cw|);
    } else {
      InstallNothing(d, t);
    }
  }

  lemma InstallNothing(d: Image, t: Txn)
    requires |t.lh| == |t.data| == 0
    ensures Installed(d, t) == d
  {
    assert InstallWrites(t.lh, t.data) == [];
  }

  /** A transaction that is committed stays so: when all writes of ts are done, none of ts is lost,
      whatever is committed later and whenever the crash comes. */
  lemma {:induction false} Lasting(start: nat, d: Image, ts: seq<Txn>, more: seq<Txn>, k: nat)
    requires TxnsOk(start, ts) && k >= |RunTrace(start, d, ts)|
    ensures Committed(ts + more, k) >= |ts|
    decreases |ts|
  {
    hide CommitTrace, Apply, TxnOk, At;
    if ts != [] {
      var cw := CommitTrace(start, At(d, start), ts[0]);
      assert (ts + more)[0] == ts[0] && (ts + more)[1..] == ts[1..] + more;
      Lasting(start, Apply(d, cw), ts[1..], more, k - |cw|);
    }
  }
}
