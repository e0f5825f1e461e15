/** Files on a disk with a log: whatever moment a crash comes, recovery finds the files as some
    whole number of transactions left them.

    FileSys says which blocks an operation logs, Crash what a log of blocks survives. Here the
    bitmap, the inodes and the data are put into the words of disk blocks, at the places that
    fs.h gives them, and the two are joined. */
module Durable {
  import D = Disk
  import C = Crash
  import F = Files
  import FS = FileSys
  import opened Powers

  // ----- the disk layout

  /** Where the log starts, then the inode blocks, the bitmap blocks and the data blocks. */
  datatype Layout = Layout(start: nat, inodestart: nat, bmapstart: nat, nmeta: nat)

  predicate LayoutOk(l: Layout) {
    l.start + C.LOGBLOCKS < l.inodestart <= l.bmapstart <= l.nmeta
  }

  const IWORDS: nat := 16            // words of a disk inode
  const BWORD: nat := 32             // bits of a word

  /** Word j of inode i. A type other than zero marks an inode in use. */
  function InodeWord(f: F.Image, i: nat, j: nat): D.Uint32 {
    if i !in f.inodes || j > 2 + F.NDIRECT + 1 then 0
    else if j == 0 then 1
    else if j == 1 then 0
    else if j == 2 then f.inodes[i].size % D.WORD_LIMIT
    else f.inodes[i].addrs[j - 3] % D.WORD_LIMIT
  }

  predicate Bit(bits: seq<bool>, p: nat) {
    p < |bits| && bits[p]
  }

  /** The n bits from p on as a number, the lowest first. */
  function Bits(bits: seq<bool>, p: nat, n: nat): (w: nat)
    ensures w < Two(n)
    decreases n
  {
    if n == 0 then 0 else (if Bit(bits, p) then 1 else 0) + 2 * Bits(bits, p + 1, n - 1)
  }

  function BitsWord(bits: seq<bool>, p: nat): D.Uint32 {
    Two32();
    Bits(bits, p, BWORD)
  }

  /** The four bytes from p on, the lowest first. */
  function BytesWord(bytes: F.Bytes, p: nat): D.Uint32
    requires p + 4 <= F.BSIZE
  {
    Quad(Octet(bytes[p]), Octet(bytes[p + 1]), Octet(bytes[p + 2]), Octet(bytes[p + 3]))
  }

  function Octet(x: nat): (o: nat)
    ensures o < 256 && (x < 256 ==> o == x)
  {
    x % 256
  }

  function Quad(a: nat, b: nat, c: nat, d: nat): nat {
    a + 256 * (b + 256 * (c + 256 * d))
  }

  function BlockWord(b: F.Block, k: nat): D.Uint32
    requires k < D.NWORDS
  {
    match b
    case Zero => 0
    case Data(bytes) => BytesWord(bytes, 4 * k)
    case Index(words) => words[k] % D.WORD_LIMIT
  }

  function WordAt(l: Layout, f: F.Image, b: nat, k: nat): D.Uint32
    requires l.inodestart <= b && l.bmapstart <= l.nmeta && k < D.NWORDS
  {
    if b < l.bmapstart then InodeWord(f, (b - l.inodestart) * FS.IPB + k / IWORDS, k % IWORDS)
    else if b < l.nmeta then BitsWord(f.bitmap, (b - l.bmapstart) * FS.BPB + k * BWORD)
    else BlockWord(F.BlockAt(f, b), k)
  }

  /** Block b of a disk that holds f. */
  function Enc(l: Layout, f: F.Image, b: nat): (r: D.Block)
    requires l.inodestart <= b && l.bmapstart <= l.nmeta
    ensures forall k | 0 <= k < D.NWORDS :: r[k] == WordAt(l, f, b, k)
  {
    seq(D.NWORDS, k requires 0 <= k < D.NWORDS => WordAt(l, f, b, k))
  }

  /** The home blocks of d hold the file system f. */
  ghost predicate Holds(l: Layout, d: D.Image, f: F.Image)
    requires LayoutOk(l)
  {
    forall b: nat | l.inodestart <= b :: D.At(d, b) == Enc(l, f, b)
  }

  // ----- blocks that are not logged do not change

  lemma InodesLocal(f: F.Image, g: F.Image, s: set<nat>, l: Layout, b: nat, k: nat)
    requires FS.Covered(f, g, s, l.bmapstart, l.inodestart) && l.inodestart <= b && b !in s && k < D.NWORDS
    ensures var i := (b - l.inodestart) * FS.IPB + k / IWORDS;
            InodeWord(f, i, k % IWORDS) == InodeWord(g, i, k % IWORDS)
  {
    hide F.BlockAt;
    var i := (b - l.inodestart) * FS.IPB + k / IWORDS;
    assert i / FS.IPB + l.inodestart == b;
    assert i in f.inodes <==> i in g.inodes;
  }

  lemma {:induction false} BitsSame(x: seq<bool>, y: seq<bool>, p: nat, n: nat)
    requires forall q: nat | p <= q < p + n :: Bit(x, q) == Bit(y, q)
    ensures Bits(x, p, n) == Bits(y, p, n)
    decreases n
  {
    if n > 0 { BitsSame(x, y, p + 1, n - 1); }
  }

  lemma BitsLocal(f: F.Image, g: F.Image, s: set<nat>, l: Layout, b: nat, k: nat)
    requires FS.Covered(f, g, s, l.bmapstart, l.inodestart) && l.bmapstart <= b && b !in s && k < D.NWORDS
    ensures var p := (b - l.bmapstart) * FS.BPB + k * BWORD; BitsWord(f.bitmap, p) == BitsWord(g.bitmap, p)
  {
    hide F.BlockAt, Bits;
    var p := (b - l.bmapstart) * FS.BPB + k * BWORD;
    forall q: nat | p <= q < p + BWORD ensures Bit(f.bitmap, q) == Bit(g.bitmap, q) {
      assert q / FS.BPB + l.bmapstart == b;
    }
    BitsSame(f.bitmap, g.bitmap, p, BWORD);
  }

  lemma EncLocal(f: F.Image, g: F.Image, s: set<nat>, l: Layout, b: nat)
    requires LayoutOk(l) && FS.Covered(f, g, s, l.bmapstart, l.inodestart) && l.inodestart <= b && b !in s
    ensures Enc(l, f, b) == Enc(l, g, b)
  {
    hide F.BlockAt, FS.Covered, Bits, BitsWord, InodeWord, BlockWord;
    forall k | 0 <= k < D.NWORDS ensures WordAt(l, f, b, k) == WordAt(l, g, b, k) {
      if b < l.bmapstart {
        InodesLocal(f, g, s, l, b, k);
      } else if b < l.nmeta {
        BitsLocal(f, g, s, l, b, k);
      } else {
        DataLocal(f, g, s, l, b);
      }
    }
  }

  lemma DataLocal(f: F.Image, g: F.Image, s: set<nat>, l: Layout, b: nat)
    requires FS.Covered(f, g, s, l.bmapstart, l.inodestart) && b !in s
    ensures F.BlockAt(f, b) == F.BlockAt(g, b)
  {
    hide F.BlockAt;
  }

  // ----- transactions of file operations

  /** The operations that one commit writes together, and the blocks that the header lists. */
  datatype Group = Group(ops: seq<FS.Operation>, lh: seq<nat>)

  ghost function Blocks(ops: seq<FS.Operation>): set<nat> {
    if ops == [] then {} else Blocks(ops[..|ops| - 1]) + ops[|ops| - 1].logged
  }

  function After(f: F.Image, ops: seq<FS.Operation>): F.Image {
    if ops == [] then f else ops[|ops| - 1].after
  }

  predicate InHeader(l: Layout, lh: seq<nat>) {
    && |lh| <= C.LOGBLOCKS
    && (forall i | 0 <= i < |lh| :: l.inodestart <= lh[i] < D.WORD_LIMIT)
    && (forall i, j | 0 <= i < j < |lh| :: lh[i] != lh[j])
  }

  /** A group that starts from f: its operations follow one another, each logging what it
      changes, and the header lists each block that one of them logged. */
  ghost predicate GroupOk(l: Layout, f: F.Image, gr: Group) {
    && FS.Operations(gr.ops, f, After(f, gr.ops), l.bmapstart, l.inodestart)
    && InHeader(l, gr.lh)
    && forall b | b in Blocks(gr.ops) :: b in gr.lh
  }

  function AfterAll(f: F.Image, gs: seq<Group>): F.Image
    decreases |gs|
  {
    if gs == [] then f else AfterAll(After(f, gs[0].ops), gs[1..])
  }

  ghost predicate GroupsOk(l: Layout, f: F.Image, gs: seq<Group>)
    decreases |gs|
  {
    gs != [] ==> GroupOk(l, f, gs[0]) && GroupsOk(l, After(f, gs[0].ops), gs[1..])
  }

  /** What commit writes for the group. */
  function TxnOf(l: Layout, f: F.Image, gr: Group): (t: C.Txn)
    requires LayoutOk(l) && InHeader(l, gr.lh)
    ensures C.TxnOk(l.start, t) && t.lh == gr.lh
    ensures forall i | 0 <= i < |gr.lh| :: t.data[i] == Enc(l, After(f, gr.ops), gr.lh[i])
  {
    C.Txn(gr.lh, seq(|gr.lh|, i requires 0 <= i < |gr.lh| => Enc(l, After(f, gr.ops), gr.lh[i])))
  }

  ghost function TxnsOf(l: Layout, f: F.Image, gs: seq<Group>): (ts: seq<C.Txn>)
    requires LayoutOk(l) && GroupsOk(l, f, gs)
    ensures C.TxnsOk(l.start, ts) && |ts| == |gs|
    decreases |gs|
  {
    if gs == [] then [] else [TxnOf(l, f, gs[0])] + TxnsOf(l, After(f, gs[0].ops), gs[1..])
  }

  lemma {:induction false} OpsCovered(l: Layout, f: F.Image, ops: seq<FS.Operation>)
    requires FS.Operations(ops, f, After(f, ops), l.bmapstart, l.inodestart)
    ensures FS.Covered(f, After(f, ops), Blocks(ops), l.bmapstart, l.inodestart)
  {
    hide FS.Covered;
    FS.CoveredSelf(f, {}, l.bmapstart, l.inodestart);
    if ops != [] {
      var n := |ops| - 1;
      var prev := ops[..n];
      assert After(f, prev) == ops[n].before;
      OpsCovered(l, f, prev);
      FS.CoveredMore(ops[n].before, ops[n].after, ops[n].logged, Blocks(ops), l.bmapstart, l.inodestart);
      FS.CoveredTrans(f, ops[n].before, ops[n].after, Blocks(prev), Blocks(ops), l.bmapstart, l.inodestart);
    }
  }

  /** Installing what the group logged makes the disk hold what the group left. */
  lemma GroupInstalled(l: Layout, d: D.Image, f: F.Image, gr: Group)
    requires LayoutOk(l) && Holds(l, d, f) && GroupOk(l, f, gr)
    ensures Holds(l, C.Installed(d, TxnOf(l, f, gr)), After(f, gr.ops))
  {
    hide FS.Covered, FS.Operations, Enc, C.Installed, Blocks;
    var g, t := After(f, gr.ops), TxnOf(l, f, gr);
    OpsCovered(l, f, gr.ops);
    forall b: nat | l.inodestart <= b ensures D.At(C.Installed(d, t), b) == Enc(l, g, b) {
      C.InstalledAt(l.start, d, t, b);
      if b in gr.lh {
        var i :| 0 <= i < |gr.lh| && gr.lh[i] == b;
        assert t.lh[i] == b;
      } else {
        EncLocal(f, g, Blocks(gr.ops), l, b);
      }
    }
  }

  lemma {:induction false} GroupsInstalled(l: Layout, d: D.Image, f: F.Image, gs: seq<Group>, c: nat)
    requires LayoutOk(l) && Holds(l, d, f) && GroupsOk(l, f, gs) && c <= |gs|
    ensures C.TxnsOk(l.start, TxnsOf(l, f, gs)[..c])
    ensures Holds(l, C.InstalledAll(l.start, d, TxnsOf(l, f, gs)[..c]), AfterAll(f, gs[..c]))
    decreases |gs|
  {
    hide FS.Operations, Holds, C.Installed, GroupOk;
    var ts := TxnsOf(l, f, gs);
    if c > 0 {
      var t, f', gs' := ts[0], After(f, gs[0].ops), gs[1..];
      GroupInstalled(l, d, f, gs[0]);
      GroupsInstalled(l, C.Installed(d, t), f', gs', c - 1);
      assert ts[..c][1..] == TxnsOf(l, f', gs')[..c - 1];
      assert gs[..c][1..] == gs'[..c - 1];
    } else {
      assert ts[..0] == [] && gs[..0] == [];
    }
  }

  lemma HoldsSame(l: Layout, d: D.Image, e: D.Image, f: F.Image)
    requires LayoutOk(l) && Holds(l, d, f) && C.SameHome(l.start, e, d)
    ensures Holds(l, e, f)
  {
    hide Enc;
  }

  /** CRASH CONSISTENCY OF FILES. Commit any groups of operations, cut the writes anywhere, cut
      recovery as often as you like: once a recovery finishes, the disk holds the file system as
      the committed groups left it. */
  lemma FilesSurvive(l: Layout, d: D.Image, f: F.Image, gs: seq<Group>, k: nat, ks: seq<nat>)
    requires LayoutOk(l) && Holds(l, d, f) && GroupsOk(l, f, gs) && C.HeadCount(d, l.start) == 0
    requires k <= |C.RunTrace(l.start, d, TxnsOf(l, f, gs))|
    ensures var ts := TxnsOf(l, f, gs);
            var e := C.Attempts(l.start, D.Apply(d, C.RunTrace(l.start, d, ts)[..k]), ks);
            C.Recoverable(e, l.start) && Holds(l, C.Recover(l.start, e), AfterAll(f, gs[..C.Committed(ts, k)]))
  {
    hide Holds, C.SameHome, C.Attempts, C.RunTrace, C.Committed, C.Recover, GroupsOk, TxnsOf, C.InstalledAll, AfterAll;
    var ts := TxnsOf(l, f, gs);
    C.RunAtomic(l.start, d, ts, k, ks);
    var c := C.Committed(ts, k);
    var e := C.Attempts(l.start, D.Apply(d, C.RunTrace(l.start, d, ts)[..k]), ks);
    GroupsInstalled(l, d, f, gs, c);
    HoldsSame(l, C.InstalledAll(l.start, d, ts[..c]), C.Recover(l.start, e), AfterAll(f, gs[..c]));
  }

  // ----- the disk determines the files

  /** The file system fits the layout, and its bytes are bytes. */
  ghost predicate Fits(l: Layout, f: F.Image)
    requires LayoutOk(l)
  {
    && |f.bitmap| <= (l.nmeta - l.bmapstart) * FS.BPB && |f.bitmap| <= D.WORD_LIMIT
    && (forall i | i in f.inodes :: i < (l.bmapstart - l.inodestart) * FS.IPB)
    && (forall b: nat, p: nat | F.BlockAt(f, b).Data? && p < F.BSIZE :: F.BlockAt(f, b).bytes[p] < 256)
  }

  lemma SameWord(l: Layout, d: D.Image, f: F.Image, g: F.Image, b: nat, k: nat)
    requires LayoutOk(l) && Holds(l, d, f) && Holds(l, d, g) && l.inodestart <= b && k < D.NWORDS
    ensures WordAt(l, f, b, k) == WordAt(l, g, b, k)
  {
    hide WordAt;
    assert Enc(l, f, b)[k] == Enc(l, g, b)[k];
  }

  lemma InodeAt(l: Layout, d: D.Image, f: F.Image, g: F.Image, i: nat, j: nat)
    requires LayoutOk(l) && Holds(l, d, f) && Holds(l, d, g) && i < (l.bmapstart - l.inodestart) * FS.IPB && j < IWORDS
    ensures InodeWord(f, i, j) == InodeWord(g, i, j)
  {
    hide Holds, InodeWord, BitsWord, BlockWord;
    var b, k := l.inodestart + i / FS.IPB, (i % FS.IPB) * IWORDS + j;
    assert k / IWORDS == i % FS.IPB && k % IWORDS == j;
    SameWord(l, d, f, g, b, k);
  }

  lemma {:induction false} BitsTell(x: seq<bool>, y: seq<bool>, p: nat, n: nat, q: nat)
    requires Bits(x, p, n) == Bits(y, p, n) && p <= q < p + n
    ensures Bit(x, q) == Bit(y, q)
    decreases n
  {
    if q > p { BitsTell(x, y, p + 1, n - 1, q); }
  }

  lemma BitAt(l: Layout, d: D.Image, f: F.Image, g: F.Image, p: nat)
    requires LayoutOk(l) && Holds(l, d, f) && Holds(l, d, g) && p < (l.nmeta - l.bmapstart) * FS.BPB
    ensures Bit(f.bitmap, p) == Bit(g.bitmap, p)
  {
    hide Holds, InodeWord, BlockWord, Bits, Bit;
    var b, k := l.bmapstart + p / FS.BPB, (p % FS.BPB) / BWORD;
    SameWord(l, d, f, g, b, k);
    var q := (b - l.bmapstart) * FS.BPB + k * BWORD;
    assert q <= p < q + BWORD;
    BitsTell(f.bitmap, g.bitmap, q, BWORD, p);
  }

  /** The addresses that a sound file system keeps fit a word. */
  lemma AddrSmall(l: Layout, f: F.Image, own: F.Owners, t: F.Slot)
    requires LayoutOk(l) && F.Good(f, own, l.nmeta) && Fits(l, f)
    ensures F.Addr(f, t) < D.WORD_LIMIT
    ensures F.Addr(f, t) != 0 ==> l.nmeta <= F.Addr(f, t) && F.Addr(f, t) in own && own[F.Addr(f, t)] == t
  {
    hide F.Addr, F.BlockAt, F.Marked, F.Whole;
  }

  lemma InodeSmall(l: Layout, f: F.Image, own: F.Owners, i: nat, j: nat)
    requires LayoutOk(l) && F.Good(f, own, l.nmeta) && Fits(l, f) && i in f.inodes && 2 <= j < IWORDS
    ensures InodeWord(f, i, j) == if j == 2 then f.inodes[i].size else f.inodes[i].addrs[j - 3]
  {
    hide F.Owned, F.Marked, Fits;
    if j == 2 {
      assert F.Whole(f, i);
    } else {
      AddrSmall(l, f, own, if j - 3 < F.NDIRECT then F.Direct(i, j - 3) else F.Indirect(i));
    }
  }

  lemma SameInode(l: Layout, d: D.Image, f: F.Image, own: F.Owners, g: F.Image, own': F.Owners, i: nat)
    requires LayoutOk(l) && Holds(l, d, f) && Holds(l, d, g) && Fits(l, f) && Fits(l, g)
    requires F.Good(f, own, l.nmeta) && F.Good(g, own', l.nmeta)
    ensures i in f.inodes <==> i in g.inodes
    ensures i in f.inodes ==> f.inodes[i] == g.inodes[i]
  {
    hide Holds, F.Good;
    if i in f.inodes || i in g.inodes {
      InodeAt(l, d, f, g, i, 0);
      hide Fits, InodeWord;
      forall j: nat | 2 <= j < IWORDS ensures InodeWord(f, i, j) == InodeWord(g, i, j) {
        InodeAt(l, d, f, g, i, j);
        InodeSmall(l, f, own, i, j);
        InodeSmall(l, g, own', i, j);
      }
      InodeSmall(l, f, own, i, 2);
      InodeSmall(l, g, own', i, 2);
      forall k: nat | k < F.NDIRECT + 1 ensures f.inodes[i].addrs[k] == g.inodes[i].addrs[k] {
        InodeSmall(l, f, own, i, k + 3);
        InodeSmall(l, g, own', i, k + 3);
      }
      assert f.inodes[i].addrs == g.inodes[i].addrs;
    }
  }

  /** An index block or a zeroed one is its words, a data block or a zeroed one its bytes. */
  lemma IndexWord(b: F.Block, k: nat)
    requires !b.Data? && k < D.NWORDS && F.WordsOf(b)[k] < D.WORD_LIMIT
    ensures BlockWord(b, k) == F.WordsOf(b)[k]
  {
  }

  lemma DataWord(b: F.Block, k: nat)
    requires !b.Index? && k < D.NWORDS
    ensures BlockWord(b, k) == BytesWord(F.BytesOf(b), 4 * k)
  {
  }

  lemma QuadTells(a: nat, b: nat, c: nat, d: nat, a': nat, b': nat, c': nat, d': nat)
    requires a < 256 && b < 256 && c < 256 && d < 256 && a' < 256 && b' < 256 && c' < 256 && d' < 256
    requires Quad(a, b, c, d) == Quad(a', b', c', d')
    ensures a == a' && b == b' && c == c' && d == d'
  {
    LowTells(a, a', b + 256 * (c + 256 * d), b' + 256 * (c' + 256 * d'));
    LowTells(b, b', c + 256 * d, c' + 256 * d');
    LowTells(c, c', d, d');
  }

  lemma LowTells(a: nat, a': nat, x: nat, x': nat)
    requires a < 256 && a' < 256 && a + 256 * x == a' + 256 * x'
    ensures a == a' && x == x'
  {
  }

  lemma BytesTell(x: F.Bytes, y: F.Bytes, p: nat, q: nat)
    requires p + 4 <= F.BSIZE && BytesWord(x, p) == BytesWord(y, p) && p <= q < p + 4
    ensures Octet(x[q]) == Octet(y[q])
  {
    hide Octet, Quad;
    QuadTells(Octet(x[p]), Octet(x[p + 1]), Octet(x[p + 2]), Octet(x[p + 3]), Octet(y[p]), Octet(y[p + 1]),
        Octet(y[p + 2]), Octet(y[p + 3]));
    assert q == p || q == p + 1 || q == p + 2 || q == p + 3;
  }

  /** The same words make the same bytes. */
  lemma DataTells(x: F.Block, y: F.Block, o: nat)
    requires !x.Index? && !y.Index? && o < F.BSIZE && BlockWord(x, o / 4) == BlockWord(y, o / 4)
    requires F.BytesOf(x)[o] < 256 && F.BytesOf(y)[o] < 256
    ensures F.BytesOf(x)[o] == F.BytesOf(y)[o]
  {
    hide F.BytesOf, BlockWord, BytesWord, Octet;
    DataWord(x, o / 4);
    DataWord(y, o / 4);
    BytesTell(F.BytesOf(x), F.BytesOf(y), 4 * (o / 4), o);
  }

  lemma SameAddr(l: Layout, d: D.Image, f: F.Image, own: F.Owners, g: F.Image, own': F.Owners, t: F.Slot)
    requires LayoutOk(l) && Holds(l, d, f) && Holds(l, d, g) && Fits(l, f) && Fits(l, g)
    requires F.Good(f, own, l.nmeta) && F.Good(g, own', l.nmeta) && f.inodes == g.inodes
    ensures F.Addr(f, t) == F.Addr(g, t)
  {
    hide Holds, Fits, F.Marked, F.Whole, BlockWord, BitsWord, InodeWord, F.BlockAt, F.WordsOf;
    if t.Entry? && F.SlotOk(f, t) && f.inodes[t.i].addrs[F.NDIRECT] != 0 {
      var b := F.Addr(f, F.Indirect(t.i));
      AddrSmall(l, f, own, F.Indirect(t.i));
      AddrSmall(l, g, own', F.Indirect(t.i));
      AddrSmall(l, f, own, t);
      AddrSmall(l, g, own', t);
      SameWord(l, d, f, g, b, t.j);
      IndexWord(F.BlockAt(f, b), t.j);
      IndexWord(F.BlockAt(g, b), t.j);
    }
  }

  lemma SameByte(l: Layout, d: D.Image, f: F.Image, own: F.Owners, g: F.Image, own': F.Owners, i: nat, k: nat)
    requires LayoutOk(l) && Holds(l, d, f) && Holds(l, d, g) && Fits(l, f) && Fits(l, g)
    requires F.Good(f, own, l.nmeta) && F.Good(g, own', l.nmeta) && f.inodes == g.inodes
    requires F.Addr(f, F.FileSlot(i, k / F.BSIZE)) != 0
    ensures F.Byte(f, i, k) == F.Byte(g, i, k)
  {
    hide Holds, Fits, F.Marked, F.Whole, BlockWord, BytesWord, BitsWord, InodeWord, F.BlockAt, F.BytesOf, F.Addr;
    var t, o := F.FileSlot(i, k / F.BSIZE), k % F.BSIZE;
    var b := F.Addr(f, t);
    SameAddr(l, d, f, own, g, own', t);
    AddrSmall(l, f, own, t);
    AddrSmall(l, g, own', t);
    SameWord(l, d, f, g, b, o / 4);
    ByteSmall(l, f, b, o);
    ByteSmall(l, g, b, o);
    DataTells(F.BlockAt(f, b), F.BlockAt(g, b), o);
  }

  lemma ByteSmall(l: Layout, f: F.Image, b: nat, o: nat)
    requires LayoutOk(l) && Fits(l, f) && o < F.BSIZE
    ensures F.BytesOf(F.BlockAt(f, b))[o] < 256
  {
    hide F.BlockAt;
  }

  /** Two sound file systems on the same disk are the same, block by block and byte by byte: so
      what FilesSurvive promises about the disk it promises about the files. */
  lemma DiskDetermines(l: Layout, d: D.Image, f: F.Image, own: F.Owners, g: F.Image, own': F.Owners)
    requires LayoutOk(l) && Holds(l, d, f) && Holds(l, d, g) && Fits(l, f) && Fits(l, g) && |f.bitmap| == |g.bitmap|
    requires F.Good(f, own, l.nmeta) && F.Good(g, own', l.nmeta)
    ensures f.bitmap == g.bitmap && f.inodes == g.inodes
    ensures forall t :: F.Addr(f, t) == F.Addr(g, t)
    ensures forall i :: F.SameFile(f, g, i)
  {
    hide Holds, Fits, F.Good, F.Addr, F.Byte;
    forall i: nat ensures (i in f.inodes <==> i in g.inodes) && (i in f.inodes ==> f.inodes[i] == g.inodes[i]) {
      SameInode(l, d, f, own, g, own', i);
    }
    assert f.inodes.Keys == g.inodes.Keys;
    assert f.inodes == g.inodes;
    forall p: nat | p < |f.bitmap| ensures f.bitmap[p] == g.bitmap[p] { SameBit(l, d, f, g, p); }
    forall t ensures F.Addr(f, t) == F.Addr(g, t) { SameAddr(l, d, f, own, g, own', t); }
    forall i, k: nat | i in f.inodes && k < f.inodes[i].size ensures F.Byte(f, i, k) == F.Byte(g, i, k) {
      FS.BlockThere(f, own, l.nmeta, i, k);
      SameByte(l, d, f, own, g, own', i, k);
    }
  }

  lemma SameBit(l: Layout, d: D.Image, f: F.Image, g: F.Image, p: nat)
    requires LayoutOk(l) && Holds(l, d, f) && Holds(l, d, g) && Fits(l, f) && p < |f.bitmap| == |g.bitmap|
    ensures f.bitmap[p] == g.bitmap[p]
  {
    hide Holds, F.BlockAt;
    BitAt(l, d, f, g, p);
  }
}
