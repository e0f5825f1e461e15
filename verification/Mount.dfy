/** Files on the log on the buffer cache: what an operation of the file system changes goes to the
    log block by block, operations that overlap are committed together, and a crash at any moment
    leaves the files of a whole number of commits. Durable speaks of groups of operations; here they
    are what begin_op, log_write, end_op and commit make of a run. */
module Mount {
  import D = Disk
  import C = Crash
  import F = Files
  import FS = FileSys
  import L = Log
  import T = Transact
  import Bio
  import Cache
  import Ring
  import opened Sets
  import opened Durable

  class Mount {
    const log: L.Log
    const l: Layout

    ghost var f: F.Image                    // the files as the operations so far left them
    ghost var first: F.Image                // the files after recovery
    ghost var groups: seq<Group>            // the commits since
    ghost var ops: seq<FS.Operation>        // the operations since the last commit

    /** The newest contents of the blocks hold the files, and the header lists what was logged. */
    ghost predicate Valid()
      reads this, log, log.cache
    {
      && log.Valid() && T.Resting(log.cache.State()) && log.start == l.start
      && Recorded(l, log.base, first, groups, log.done)
      && FS.Operations(ops, AfterAll(first, groups), f, l.bmapstart, l.inodestart)
      && Lists(l, log.lh, Blocks(ops))
      && Holds(l, log.cache.logical, f)
    }

    /** Whatever has happened, the disk writes are a first part of the commits of groups. */
    ghost predicate Tracked()
      reads this, log, log.cache
    {
      && log.start == l.start && Started(l, log.base, first, groups)
      && L.Follows(log.start, log.base, log.boot, log.cache.trace, TxnsOf(l, first, groups))
    }

    constructor (log: L.Log, l: Layout, ghost f: F.Image)
      requires log.Valid() && log.start == l.start && L.AllFree(log.cache.buf) && log.lh == [] && log.done == []
      requires LayoutOk(l) && Holds(l, log.base, f) && log.cache.logical == log.base
      ensures Valid() && this.log == log && this.l == l && this.f == first == f && groups == [] && ops == []
    {
      hide Cache.Good, Bio.Listed, C.RunTrace, D.Apply, Holds, FS.Operations;
      this.log, this.l, this.f, this.first, this.groups, this.ops := log, l, f, f, [], [];
      new;
      FS.NoOperations(f, l.bmapstart, l.inodestart);
      T.FreeRests(log.cache.State());
    }

    /** begin_op. */
    method Enter(p: nat) returns (admitted: bool)
      requires Valid() && p !in log.left
      modifies log`outstanding, log`left
      ensures Valid()
      ensures admitted <==> !log.committing && |log.lh| + (old(log.outstanding) + 1) * L.MAXOPBLOCKS <= C.LOGBLOCKS
      ensures log.left == if admitted then old(log.left)[p := L.MAXOPBLOCKS] else old(log.left)
    {
      hide Recorded, FS.Operations, Lists, Holds, T.Resting, C.HomesOk, C.RunTrace, D.Apply, Sum, C.HeadCount;
      hide SetOf, Cache.Good, Bio.Listed;
      admitted := log.BeginOp(p);
    }

    /** Operation p changes the files: every block that it logs is read, changed, recorded in the log
        and released. It never runs out of log or of buffers. */
    method Put(p: nat, op: FS.Operation)
      requires Valid() && p in log.left && log.left[p] == L.MAXOPBLOCKS
      requires FS.Operations([op], f, op.after, l.bmapstart, l.inodestart)
      requires forall b | b in op.logged :: l.inodestart <= b < D.WORD_LIMIT
      modifies this`f, this`ops, log`lh, log`left, log.cache
      ensures Valid() && f == op.after && ops == old(ops) + [op]
      ensures log.cache.trace == old(log.cache.trace) && SameBut(old(log.left), log.left, p)
      ensures |log.lh| <= |old(log.lh)| + |op.logged|
    {
      hide Recorded, FS.Operations, FS.Covered, Lists, Holds, Half, T.Resting, L.Log.Valid, Blocks, SameBut, AfterAll;
      OnlyOne(op, f, l);
      LayoutFacts(l, log.base, first, groups, log.done, 0);
      HalfNone(l, log.cache.logical, op);
      PutBlocks(p, op);
      HalfDone(l, log.cache.logical, op);
      FS.OperationsJoin(ops, [op], AfterAll(first, groups), f, op.after, l.bmapstart, l.inodestart);
      BlocksNext(ops, op);
      ops := ops + [op];
      f := op.after;
    }

    /** All its blocks, in any order. */
    method PutBlocks(p: nat, op: FS.Operation)
      requires log.Valid() && T.Resting(log.cache.State()) && log.start == l.start
      requires p in log.left && |op.logged| <= log.left[p]
      requires forall b | b in op.logged :: l.inodestart <= b < D.WORD_LIMIT
      requires Half(l, log.cache.logical, op, {}) && Lists(l, log.lh, Blocks(ops))
      modifies log`lh, log`left, log.cache
      ensures log.Valid() && T.Resting(log.cache.State())
      ensures Half(l, log.cache.logical, op, op.logged) && Lists(l, log.lh, Blocks(ops) + op.logged)
      ensures log.cache.trace == old(log.cache.trace) && SameBut(old(log.left), log.left, p)
      ensures |log.lh| <= |old(log.lh)| + |op.logged|
    {
      hide Lists, Half, T.Resting, L.Log.Valid, Blocks, SameBut;
      SameSelf(log.left, p);
      ghost var blocks := Blocks(ops);
      assert op.logged - op.logged == {} && blocks + {} == blocks;
      var todo := op.logged;
      while todo != {}
        invariant log.Valid() && T.Resting(log.cache.State()) && todo <= op.logged
        invariant Half(l, log.cache.logical, op, op.logged - todo) && Lists(l, log.lh, blocks + (op.logged - todo))
        invariant p in log.left && |todo| <= log.left[p] && SameBut(old(log.left), log.left, p)
        invariant log.cache.trace == old(log.cache.trace) && |log.lh| + |todo| <= |old(log.lh)| + |op.logged|
        decreases |todo|
      {
        var b :| b in todo;
        ghost var left := log.left;
        OneFewer(op.logged, todo, blocks, b);
        PutBlock(p, op, b, op.logged - todo);
        SameTrans(old(log.left), left, log.left, p);
        todo := todo - {b};
      }
      assert op.logged - {} == op.logged;
    }

    /** One of its blocks. */
    method PutBlock(p: nat, op: FS.Operation, b: nat, ghost put: set<nat>)
      requires log.Valid() && T.Resting(log.cache.State()) && p in log.left && log.left[p] > 0
      requires log.start == l.start && l.inodestart <= b < D.WORD_LIMIT
      requires Half(l, log.cache.logical, op, put) && Lists(l, log.lh, Blocks(ops) + put)
      modifies log`lh, log`left, log.cache
      ensures log.Valid() && T.Resting(log.cache.State())
      ensures Half(l, log.cache.logical, op, put + {b}) && Lists(l, log.lh, Blocks(ops) + put + {b})
      ensures p in log.left && log.left[p] + 1 >= old(log.left)[p] && SameBut(old(log.left), log.left, p)
      ensures log.cache.trace == old(log.cache.trace) && |log.lh| <= |old(log.lh)| + 1
    {
      hide Lists, T.Resting, L.Log.Valid, Enc, Blocks, Half;
      HalfNext(l, log.cache.logical, op, put, b);
      ListsNext(l, log.lh, Blocks(ops) + put, b);
      T.Update(log, p, b, Enc(l, op.after, b));
    }

    /** end_op, with the commit if p is the last one inside. false is the panic of bget in the commit,
        which needs a full log. */
    method Leave(p: nat) returns (ok: bool)
      requires Valid() && p in log.left
      modifies this`groups, this`ops, log, log.cache
      ensures ok ==> Valid() && !log.committing && log.left == old(log.left) - {p}
      ensures ok && log.left == map[] ==>
                log.lh == [] && ops == [] && groups == old(groups) + [Group(old(ops), old(log.lh))]
      ensures ok && log.left != map[] ==> ops == old(ops) && groups == old(groups) && log.lh == old(log.lh)
      ensures |old(log.lh)| < C.LOGBLOCKS ==> ok
      ensures Tracked() && log.boot == old(log.boot) && log.base == old(log.base)
    {
      hide Recorded, Started, FS.Operations, Lists, Holds, T.Resting, C.HomesOk, C.RunTrace, D.Apply, Sum;
      hide C.HeadCount, SetOf, Cache.Good, Bio.Listed;
      hide L.Follows, C.TxnsOk, C.SameHome, C.CommitTrace;
      var last := log.EndOp(p);
      if last {
        ok := Flush();
      } else {
        ValidTracked();
        ok := true;
      }
    }

    /** commit. */
    method Flush() returns (ok: bool)
      requires Valid() && log.committing
      modifies this`groups, this`ops, log`lh, log`done, log`committing, log.cache
      ensures ok ==> Valid() && !log.committing && log.lh == [] && ops == []
      ensures groups == old(groups) + [Group(old(ops), old(log.lh))]
      ensures |old(log.lh)| < C.LOGBLOCKS ==> ok
      ensures Tracked()
    {
      hide Started, FS.Operations, Lists, Holds, T.Resting, C.HomesOk, C.RunTrace, D.Apply, Sum, C.HeadCount;
      hide SetOf, Cache.Good, Bio.Listed;
      hide L.Follows, C.TxnsOk, C.SameHome, C.CommitTrace, GroupsOk, GroupOk, TxnsOf, TxnOf, AfterAll, L.Newest;
      hide L.Ready;
      ghost var gr, now := Group(ops, log.lh), AfterAll(first, groups);
      ghost var logical, t := log.cache.logical, log.Pending();
      LayoutFacts(l, log.base, first, groups, log.done, 0);
      T.RestingUnlocked(log.cache.State(), log.start, log.lh, 0);
      RoomToCommit();
      GroupFits(l, log.base, first, groups, log.lh, ops, f, logical);
      GroupsGrow(l, log.base, first, groups, gr);
      ghost var k;
      ok, k := log.Commit();
      groups := groups + [gr];
      if ok {
        ops := [];
        log.EndCommit();
        HoldsSame(l, logical, log.cache.logical, f);
        FS.NoOperations(f, l.bmapstart, l.inodestart);
        ListsNothing(l);
        T.RestingStill(old(log.cache.State()), log.cache.State());
      }
    }

    lemma RoomToCommit()
      requires Valid()
      ensures |log.lh| < C.LOGBLOCKS ==> L.Ready(log.cache.buf, log.start, log.start + |log.lh|)
    {
      hide Recorded, FS.Operations, Lists, Holds, T.Resting, C.HomesOk, C.RunTrace, D.Apply, Sum, C.HeadCount;
      hide SetOf, Cache.Good, Bio.Listed;
      if |log.lh| < C.LOGBLOCKS {
        T.PinCount(log.cache.State(), log.start, log.lh);
        T.RoomLeft(log.cache.State());
      }
    }

    lemma ValidTracked()
      requires Valid()
      ensures Tracked()
    {
      hide FS.Operations, Lists, Holds, T.Resting, C.HomesOk, C.RunTrace, D.Apply, Sum, C.HeadCount, SetOf;
      hide Cache.Good, Bio.Listed, GroupsOk, TxnsOf, C.TxnsOk;
      assert log.cache.trace[|log.boot|..] == C.RunTrace(log.start, log.base, log.done);
    }

    /** However many writes reached the disk before a crash, and however often recovery was cut short
        after it, the recovery that completes leaves the files as a whole number of commits did. */
    lemma FilesAfterCrash(k: nat, ks: seq<nat>)
      requires Tracked() && |log.boot| <= k <= |log.cache.trace|
      ensures var e := C.Attempts(l.start, D.Apply(log.base, log.cache.trace[|log.boot|..k]), ks);
              var c := C.Committed(TxnsOf(l, first, groups), k - |log.boot|);
              && C.Recoverable(e, l.start) && c <= |groups|
              && Holds(l, C.Recover(l.start, e), AfterAll(first, groups[..c]))
    {
      hide Holds, C.RunTrace, D.Apply, C.Attempts, C.Recover, GroupsOk, TxnsOf, AfterAll, C.Committed, C.Head;
      hide C.HomesOk;
      assert log.cache.trace[|log.boot|..k]
          == C.RunTrace(log.start, log.base, TxnsOf(l, first, groups))[..k - |log.boot|];
      FilesSurvive(l, log.base, first, groups, k - |log.boot|, ks);
    }

    /** ... and never fewer than those that were complete before: once the commit of n groups has made
        its last write, they survive every later crash. */
    lemma Lasts(n: nat, k: nat)
      requires Tracked() && n <= |groups|
      requires k >= |log.boot| + |C.RunTrace(l.start, log.base, TxnsOf(l, first, groups)[..n])|
      ensures C.Committed(TxnsOf(l, first, groups), k - |log.boot|) >= n
    {
      hide Holds, C.RunTrace, GroupsOk, TxnsOf, C.Committed, C.TxnOk;
      var ts := TxnsOf(l, first, groups);
      C.Lasting(l.start, log.base, ts[..n], ts[n..], k - |log.boot|);
      assert ts[..n] + ts[n..] == ts;
    }

    /** The file system in memory is the one on the disk, laid out as mkfs does it. */
    ghost predicate Mounts(fs: FS.Fs)
      reads this, fs
    {
      && fs.Valid() && fs.disk == fs.inodes && fs.Img() == f && FS.NBitmap(|fs.bitmap|) < FS.MAXOPBLOCKS
      && fs.inodestart == l.inodestart && fs.bmapstart == l.bmapstart && fs.nmeta == l.nmeta
      && FS.Laid(l.inodestart, l.bmapstart, l.nmeta, |fs.bitmap|, fs.inodes.Keys) && |fs.bitmap| <= D.WORD_LIMIT
    }

    /** One call, each chunk of a write an operation and a commit of its own. Whichever of these commits
        is the last to survive, the files are in some stage of the call. */
    method ServeOne(fs: FS.Fs, op: FS.FileOp) returns (a: FS.Reply)
      requires Idle() && Mounts(fs)
      modifies this`f, this`groups, this`ops, log, log.cache, fs`bitmap, fs`blocks, fs`inodes, fs`disk, fs`logged,
          fs`own
      ensures Idle() && Mounts(fs) && FS.Answered(old(f), op, a, f)
      ensures log.boot == old(log.boot) && log.base == old(log.base) && old(groups) <= groups
      ensures Staged(first, groups, |old(groups)|, |groups|, old(f), op, f)
    {
      hide FS.Operations, FS.AllWithin, FS.Laid, FS.Answered, FS.Partly, AfterAll, Valid, FS.Fs.Valid, Staged;
      hide FS.NBitmap;
      ghost var before := f;
      var trace;
      trace, a := fs.Perform(op);
      ghost var goal := fs.Img();
      IdleIs();
      StagedNone(first, groups, before, op, goal);
      for k := 0 to |trace|
        invariant Idle() && f == (if k == 0 then before else trace[k - 1].after)
        invariant log.boot == old(log.boot) && log.base == old(log.base) && old(groups) <= groups
        invariant Staged(first, groups, |old(groups)|, |groups|, before, op, goal)
        modifies this`f, this`groups, this`ops, log, log.cache
      {
        OneOf(trace, k, before, fs.OnDisk(), l, |fs.bitmap|, fs.inodes.Keys);
        ghost var gs := groups;
        Transaction(trace[k]);
        IdleIs();
        InStage(trace, k, before, op, a, goal, l);
        StagedNext(first, gs, groups, |old(groups)|, before, op, goal);
      }
      EndsAt(trace, before, fs.OnDisk(), l);
    }

    /** The calls of a process, one after another: each does what it says and gets its reply, nothing
        panics, and the commits come in the order of the calls. */
    method Serve(fs: FS.Fs, calls: seq<FS.FileOp>)
      returns (replies: seq<FS.Reply>, ghost images: seq<F.Image>, ghost cuts: seq<nat>)
      requires Idle() && Mounts(fs)
      modifies this`f, this`groups, this`ops, log, log.cache, fs`bitmap, fs`blocks, fs`inodes, fs`disk, fs`logged,
          fs`own
      ensures Idle() && Mounts(fs) && log.boot == old(log.boot) && log.base == old(log.base)
      ensures FS.Answers(calls, replies, images) && images[0] == old(f) && images[|calls|] == f
      ensures old(groups) <= groups && Served(first, groups, calls, images, cuts)
      ensures cuts[0] == |old(groups)| && cuts[|calls|] == |groups|
    {
      hide FS.Answered, FS.Laid, AfterAll, Valid, FS.Fs.Valid, Staged, FS.NBitmap;
      replies, images, cuts := [], [f], [|groups|];
      for k := 0 to |calls|
        invariant Idle() && Mounts(fs) && log.boot == old(log.boot) && log.base == old(log.base)
        invariant FS.Answers(calls[..k], replies, images) && images[0] == old(f) && images[k] == f
        invariant old(groups) <= groups && Served(first, groups, calls[..k], images, cuts)
        invariant cuts[0] == |old(groups)| && cuts[k] == |groups|
      {
        ghost var gs := groups;
        var a := ServeOne(fs, calls[k]);
        FS.AnswersNext(calls, k, replies, images, a, f);
        ServedNext(first, gs, groups, calls, k, images, cuts, f);
        replies, images, cuts := replies + [a], images + [f], cuts + [|groups|];
      }
      assert calls[..|calls|] == calls;
    }

    /** After calls that were served, and any crash and recoveries: the files are those in some stage of
        one call, with all calls before it done and none after it begun. */
    lemma CallsAfterCrash(calls: seq<FS.FileOp>, images: seq<F.Image>, cuts: seq<nat>, k: nat, ks: seq<nat>)
      returns (m: nat, x: F.Image)
      requires Tracked() && |log.boot| <= k <= |log.cache.trace| && Served(first, groups, calls, images, cuts)
      requires |calls| > 0 && cuts[|calls|] == |groups|
      requires cuts[0] <= C.Committed(TxnsOf(l, first, groups), k - |log.boot|)
      ensures m < |calls| && Stage(images[m], calls[m], images[m + 1], x)
      ensures var e := C.Attempts(l.start, D.Apply(log.base, log.cache.trace[|log.boot|..k]), ks);
              C.Recoverable(e, l.start) && Holds(l, C.Recover(l.start, e), x)
    {
      hide Holds, C.RunTrace, D.Apply, C.Attempts, C.Recover, GroupsOk, TxnsOf, AfterAll, C.Committed, C.Head;
      hide C.HomesOk, Stage, L.Follows;
      FilesAfterCrash(k, ks);
      var c := C.Committed(TxnsOf(l, first, groups), k - |log.boot|);
      m := Between(cuts, c);
      x := AfterAll(first, groups[..c]);
    }

    /** No operation is inside, and all are committed. */
    ghost predicate Idle()
      reads this, log, log.cache
    {
      Valid() && log.left == map[] && log.lh == [] && !log.committing && ops == []
    }

    lemma IdleIs()
      requires Idle()
      ensures log.outstanding == 0 && f == AfterAll(first, groups)
    {
      hide Recorded, Lists, Holds, T.Resting, FS.Covered, AfterAll;
      hide C.HomesOk, C.RunTrace, D.Apply, Sum, C.HeadCount, SetOf, Cache.Good, Bio.Listed;
      EndsAt([], AfterAll(first, groups), f, l);
    }

    /** begin_op, one operation, end_op. */
    method Transaction(op: FS.Operation)
      requires Idle() && FS.Operations([op], f, op.after, l.bmapstart, l.inodestart) && |op.logged| <= L.MAXOPBLOCKS
      requires forall b | b in op.logged :: l.inodestart <= b < D.WORD_LIMIT
      modifies this`f, this`groups, this`ops, log, log.cache
      ensures Idle() && f == op.after && log.boot == old(log.boot) && log.base == old(log.base)
      ensures |groups| == |old(groups)| + 1 && old(groups) <= groups
    {
      hide FS.Operations, AfterAll, Valid;
      hide SameBut, Tracked;
      IdleIs();
      var admitted := Enter(0);
      ghost var left := log.left;
      Put(0, op);
      Alone(left, log.left, 0);
      var ok := Leave(0);
    }
  }

  /** The kernel boots from the disk that a crash has left, after recoveries that crashed as well: it
      mounts the files of a whole number of commits. */
  method Reboot(m: Mount, image: D.Image, ghost k: nat, ghost ks: seq<nat>) returns (n: Mount)
    requires m.Tracked() && |m.log.boot| <= k <= |m.log.cache.trace|
    requires image == C.Attempts(m.l.start, D.Apply(m.log.base, m.log.cache.trace[|m.log.boot|..k]), ks)
    ensures fresh(n) && n.Idle() && n.l == m.l
    ensures n.f == n.first == AfterAll(m.first,
              m.groups[..C.Committed(TxnsOf(m.l, m.first, m.groups), k - |m.log.boot|)])
  {
    hide Holds, C.RunTrace, D.Apply, C.Attempts, C.Recover, GroupsOk, TxnsOf, AfterAll, C.Committed, C.Head, C.HomesOk;
    hide Cache.Good, Bio.Listed, Bio.LruSorted, C.RecoverTrace, L.AllFree, L.Log.Valid;
    m.FilesAfterCrash(k, ks);
    var cache := new Bio.Bcache(image);
    T.NewIsFree(cache.State());
    var log := new L.Log(cache, m.l.start);
    n := new Mount(log, m.l, AfterAll(m.first,
        m.groups[..C.Committed(TxnsOf(m.l, m.first, m.groups), k - |m.log.boot|)]));
  }

  // ----- values

  ghost predicate Started(l: Layout, base: D.Image, first: F.Image, groups: seq<Group>) {
    LayoutOk(l) && Holds(l, base, first) && GroupsOk(l, first, groups)
  }

  ghost predicate Recorded(l: Layout, base: D.Image, first: F.Image, groups: seq<Group>, done: seq<C.Txn>) {
    Started(l, base, first, groups) && done == TxnsOf(l, first, groups)
  }

  // ----- the stages of a call

  /** The files x at some moment of a call that leads from f to g. */
  ghost predicate Stage(f: F.Image, op: FS.FileOp, g: F.Image, x: F.Image) {
    x == f || x == g || (op.Put? && exists t | 0 <= t <= |op.src| :: FS.PutSome(f, x, op.i, op.off, op.src[..t]))
  }

  /** After each of the commits from number lo to number hi the call is in some stage. */
  ghost predicate Staged(first: F.Image, groups: seq<Group>, lo: nat, hi: nat, f: F.Image, op: FS.FileOp, g: F.Image) {
    lo <= hi <= |groups| && forall c: nat | lo <= c <= hi :: Stage(f, op, g, AfterAll(first, groups[..c]))
  }

  lemma StagedNone(first: F.Image, groups: seq<Group>, f: F.Image, op: FS.FileOp, g: F.Image)
    requires AfterAll(first, groups) == f
    ensures Staged(first, groups, |groups|, |groups|, f, op, g)
  {
    hide AfterAll;
    assert groups[..|groups|] == groups;
  }

  lemma StagedNext(first: F.Image, gs: seq<Group>, gs': seq<Group>, lo: nat, f: F.Image, op: FS.FileOp, g: F.Image)
    requires Staged(first, gs, lo, |gs|, f, op, g) && gs <= gs' && |gs'| == |gs| + 1
    requires Stage(f, op, g, AfterAll(first, gs'))
    ensures Staged(first, gs', lo, |gs'|, f, op, g)
  {
    hide AfterAll, Stage;
    assert gs'[..|gs'|] == gs';
    forall c: nat | lo <= c <= |gs'| ensures Stage(f, op, g, AfterAll(first, gs'[..c])) {
      if c <= |gs| { assert gs'[..c] == gs[..c]; }
    }
  }

  /** What the operations of one call leave behind are stages of it. */
  lemma InStage(trace: seq<FS.Operation>, k: nat, f: F.Image, op: FS.FileOp, a: FS.Reply, g: F.Image, l: Layout)
    requires FS.Operations(trace, f, g, l.bmapstart, l.inodestart) && k < |trace| && FS.Answered(f, op, a, g)
    requires if a.DidPut? then FS.Partly(trace, f, op.i, op.off, op.src)
             else if a.DidTruncate? then |trace| == 1 else trace == []
    ensures Stage(f, op, g, trace[k].after)
  {
    hide FS.Covered, FS.PutSome, F.Content, F.SameFile;
  }

  /** The commits up to cuts[k] are those of the first k calls. */
  ghost predicate Served(first: F.Image, groups: seq<Group>, calls: seq<FS.FileOp>, images: seq<F.Image>,
                         cuts: seq<nat>) {
    && |images| == |cuts| == |calls| + 1
    && (forall k | 0 <= k <= |calls| :: cuts[k] <= |groups|)
    && forall k | 0 <= k < |calls| ::
         Staged(first, groups, cuts[k], cuts[k + 1], images[k], calls[k], images[k + 1])
  }

  lemma ServedNext(first: F.Image, gs: seq<Group>, gs': seq<Group>, calls: seq<FS.FileOp>, k: nat, images: seq<F.Image>,
                   cuts: seq<nat>, g: F.Image)
    requires k < |calls| && Served(first, gs, calls[..k], images, cuts) && cuts[k] == |gs| && gs <= gs'
    requires Staged(first, gs', |gs|, |gs'|, images[k], calls[k], g)
    ensures Served(first, gs', calls[..k + 1], images + [g], cuts + [|gs'|])
  {
    hide Staged;
    forall j | 0 <= j < k
      ensures Staged(first, gs', cuts[j], cuts[j + 1], images[j], calls[j], images[j + 1])
    {
      assert calls[..k][j] == calls[j];
      StagedLater(first, gs, gs', cuts[j], cuts[j + 1], images[j], calls[j], images[j + 1]);
    }
  }

  lemma StagedLater(first: F.Image, gs: seq<Group>, gs': seq<Group>, lo: nat, hi: nat, f: F.Image, op: FS.FileOp,
                    g: F.Image)
    requires Staged(first, gs, lo, hi, f, op, g) && gs <= gs'
    ensures Staged(first, gs', lo, hi, f, op, g)
  {
    hide AfterAll, Stage;
    forall c: nat | lo <= c <= hi ensures Stage(f, op, g, AfterAll(first, gs'[..c])) { assert gs'[..c] == gs[..c]; }
  }

  lemma {:induction false} Between(cuts: seq<nat>, c: nat) returns (m: nat)
    requires |cuts| >= 2 && cuts[0] <= c <= cuts[|cuts| - 1]
    ensures m + 1 < |cuts| && cuts[m] <= c <= cuts[m + 1]
  {
    m := 0;
    while cuts[m + 1] < c
      invariant m + 1 < |cuts| && cuts[m] <= c
      decreases |cuts| - m
    {
      m := m + 1;
    }
  }

  ghost predicate SameBut(left: map<nat, nat>, left': map<nat, nat>, p: nat) {
    left'.Keys == left.Keys && forall q | q in left && q != p :: left'[q] == left[q]
  }

  lemma SameSelf(left: map<nat, nat>, p: nat)
    ensures SameBut(left, left, p)
  {
  }

  lemma SameTrans(a: map<nat, nat>, b: map<nat, nat>, c: map<nat, nat>, p: nat)
    requires SameBut(a, b, p) && SameBut(b, c, p)
    ensures SameBut(a, c, p)
  {
    forall q | q in a && q != p ensures c[q] == a[q] { assert q in b.Keys; }
  }

  lemma Alone(left: map<nat, nat>, left': map<nat, nat>, p: nat)
    requires SameBut(left, left', p) && p in left && left - {p} == map[]
    ensures p in left' && left' - {p} == map[]
  {
    assert p in left'.Keys;
    forall q | q in left' - {p} ensures q in left - {p} { assert q in left.Keys; }
  }

  lemma OneFewer(all: set<nat>, todo: set<nat>, blocks: set<nat>, b: nat)
    requires b in todo && todo <= all
    ensures all - (todo - {b}) == (all - todo) + {b} && blocks + (all - todo) + {b} == blocks + (all - (todo - {b}))
    ensures |todo - {b}| + 1 == |todo|
  {
  }

  /** lh lists exactly the blocks of s, all of them home blocks. */
  ghost predicate Lists(l: Layout, lh: seq<nat>, s: set<nat>) {
    SetOf(lh) == s && forall i | 0 <= i < |lh| :: l.inodestart <= lh[i]
  }

  /** The blocks of put hold the files after op already, the others still the files before. */
  ghost predicate Half(l: Layout, d: D.Image, op: FS.Operation, put: set<nat>) {
    LayoutOk(l) && forall b: nat | l.inodestart <= b ::
        D.At(d, b) == Enc(l, if b in put then op.after else op.before, b)
  }

  lemma HalfNone(l: Layout, d: D.Image, op: FS.Operation)
    requires LayoutOk(l) && Holds(l, d, op.before)
    ensures Half(l, d, op, {})
  {
    hide Enc;
  }

  lemma HalfNext(l: Layout, d: D.Image, op: FS.Operation, put: set<nat>, b: nat)
    requires Half(l, d, op, put) && l.inodestart <= b
    ensures Half(l, d[b := Enc(l, op.after, b)], op, put + {b}) && LayoutOk(l) && !C.InLog(l.start, b)
  {
    hide Enc;
  }

  lemma HalfDone(l: Layout, d: D.Image, op: FS.Operation)
    requires Half(l, d, op, op.logged) && FS.Covered(op.before, op.after, op.logged, l.bmapstart, l.inodestart)
    ensures Holds(l, d, op.after)
  {
    hide Enc, FS.Covered;
    forall b: nat | l.inodestart <= b ensures D.At(d, b) == Enc(l, op.after, b) {
      if b !in op.logged { EncLocal(op.before, op.after, op.logged, l, b); }
    }
  }

  lemma ListsNext(l: Layout, lh: seq<nat>, s: set<nat>, b: nat)
    requires Lists(l, lh, s) && l.inodestart <= b
    ensures Lists(l, if b in lh then lh else lh + [b], s + {b})
  {
    if b in lh { assert b in SetOf(lh); }
  }

  lemma ListsNothing(l: Layout)
    ensures Lists(l, [], Blocks([]))
  {
  }

  lemma BlocksNext(ops: seq<FS.Operation>, op: FS.Operation)
    ensures Blocks(ops + [op]) == Blocks(ops) + op.logged
  {
    assert (ops + [op])[..|ops + [op]| - 1] == ops;
  }

  lemma LayoutFacts(l: Layout, base: D.Image, first: F.Image, groups: seq<Group>, done: seq<C.Txn>, b: nat)
    requires Recorded(l, base, first, groups, done)
    ensures LayoutOk(l) && (l.inodestart <= b ==> !C.InLog(l.start, b))
  {
    hide Holds, GroupsOk, TxnsOf;
  }

  lemma OnlyOne(op: FS.Operation, f: F.Image, l: Layout)
    requires FS.Operations([op], f, op.after, l.bmapstart, l.inodestart)
    ensures op.before == f && FS.Covered(f, op.after, op.logged, l.bmapstart, l.inodestart)
    ensures |op.logged| <= L.MAXOPBLOCKS
  {
    hide FS.Covered;
    assert [op][0] == op;
  }

  lemma EndsAt(ops: seq<FS.Operation>, f: F.Image, g: F.Image, l: Layout)
    requires FS.Operations(ops, f, g, l.bmapstart, l.inodestart)
    ensures g == After(f, ops)
  {
    hide FS.Covered;
  }

  /** Operation number k of a session is one that the mount can put through the log. */
  lemma OneOf(ops: seq<FS.Operation>, k: nat, f: F.Image, g: F.Image, l: Layout, n: nat, keys: set<nat>)
    requires FS.Operations(ops, f, g, l.bmapstart, l.inodestart) && k < |ops|
    requires FS.AllWithin(ops, l.inodestart, l.bmapstart, l.nmeta, n, keys)
    requires FS.Laid(l.inodestart, l.bmapstart, l.nmeta, n, keys)
    ensures FS.Operations([ops[k]], if k == 0 then f else ops[k - 1].after, ops[k].after, l.bmapstart, l.inodestart)
    ensures |ops[k].logged| <= L.MAXOPBLOCKS && forall b | b in ops[k].logged :: l.inodestart <= b < n
  {
    hide FS.Covered, FS.Laid;
    assert FS.Within(ops[k].logged, l.inodestart, l.bmapstart, l.nmeta, n, keys);
  }

  /** The operations since the last commit are a group, and the transaction pending is theirs. */
  lemma GroupFits(l: Layout, base: D.Image, first: F.Image, groups: seq<Group>, lh: seq<nat>, ops: seq<FS.Operation>,
                  f: F.Image, logical: D.Image)
    requires Started(l, base, first, groups) && C.HomesOk(l.start, lh) && Lists(l, lh, Blocks(ops))
    requires FS.Operations(ops, AfterAll(first, groups), f, l.bmapstart, l.inodestart) && Holds(l, logical, f)
    ensures GroupOk(l, AfterAll(first, groups), Group(ops, lh))
    ensures TxnOf(l, AfterAll(first, groups), Group(ops, lh)) == C.Txn(lh, L.Newest(logical, lh))
    ensures f == After(AfterAll(first, groups), ops)
  {
    hide FS.Operations, Enc, Blocks, AfterAll, GroupsOk, L.Newest;
    EndsAt(ops, AfterAll(first, groups), f, l);
    forall b | b in Blocks(ops) ensures b in lh { assert b in SetOf(lh); }
    assert TxnOf(l, AfterAll(first, groups), Group(ops, lh)).data == L.Newest(logical, lh);
  }

  lemma {:induction false} GroupsGrow(l: Layout, base: D.Image, first: F.Image, groups: seq<Group>, gr: Group)
    requires Started(l, base, first, groups) && GroupOk(l, AfterAll(first, groups), gr)
    ensures Started(l, base, first, groups + [gr])
    ensures AfterAll(first, groups + [gr]) == After(AfterAll(first, groups), gr.ops)
    ensures TxnsOf(l, first, groups + [gr]) == TxnsOf(l, first, groups) + [TxnOf(l, AfterAll(first, groups), gr)]
  {
    hide Holds, GroupOk, TxnOf, After;
    MoreGroups(l, first, groups, gr);
  }

  lemma {:induction false} MoreGroups(l: Layout, f: F.Image, gs: seq<Group>, gr: Group)
    requires LayoutOk(l) && GroupsOk(l, f, gs) && GroupOk(l, AfterAll(f, gs), gr)
    ensures GroupsOk(l, f, gs + [gr]) && AfterAll(f, gs + [gr]) == After(AfterAll(f, gs), gr.ops)
    ensures TxnsOf(l, f, gs + [gr]) == TxnsOf(l, f, gs) + [TxnOf(l, AfterAll(f, gs), gr)]
    decreases |gs|
  {
    hide GroupOk, TxnOf, After, FS.Operations;
    var all := gs + [gr];
    if gs == [] {
      assert all == [gr] && all[1..] == [];
      GroupHeader(l, f, gr);
    } else {
      assert all[1..] == gs[1..] + [gr] && all[0] == gs[0];
      MoreGroups(l, After(f, gs[0].ops), gs[1..], gr);
      GroupHeader(l, f, gs[0]);
    }
  }

  lemma GroupHeader(l: Layout, f: F.Image, gr: Group)
    requires GroupOk(l, f, gr)
    ensures InHeader(l, gr.lh)
  {
    hide FS.Operations;
  }
}
