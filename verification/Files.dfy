/** Files on disk: the free bitmap, inodes with their direct and indirect block addresses, and the
    bytes they stand for. */
module Files {

  const BSIZE: nat := 1024
  const NDIRECT: nat := 12
  const NINDIRECT: nat := 256
  const MAXFILE: nat := NDIRECT + NINDIRECT

  type Bytes = s: seq<nat> | |s| == BSIZE witness Zeros(BSIZE)
  type Words = s: seq<nat> | |s| == NINDIRECT witness Zeros(NINDIRECT)
  type Addrs = s: seq<nat> | |s| == NDIRECT + 1 witness Zeros(NDIRECT + 1)

  function Zeros(n: nat): (s: seq<nat>)
    ensures |s| == n && forall i {:trigger s[i]} | 0 <= i < n :: s[i] == 0
  {
    if n == 0 then [] else Zeros(n - 1) + [0]
  }

  /** A block holds bytes of a file or addresses; a zeroed block is both. */
  datatype Block = Zero | Data(bytes: Bytes) | Index(words: Words)

  function BytesOf(b: Block): Bytes {
    if b.Data? then b.bytes else Zeros(BSIZE)
  }

  function WordsOf(b: Block): Words {
    if b.Index? then b.words else Zeros(NINDIRECT)
  }

  datatype Inode = Inode(size: nat, addrs: Addrs)

  /** Where a block address may be kept: in inode i, or in its indirect block. */
  datatype Slot = Direct(i: nat, k: nat) | Indirect(i: nat) | Entry(i: nat, j: nat)

  datatype Image = Image(bitmap: seq<bool>, blocks: map<nat, Block>, inodes: map<nat, Inode>)

  function BlockAt(f: Image, b: nat): Block {
    if b in f.blocks then f.blocks[b] else Zero
  }

  predicate SlotOk(f: Image, s: Slot) {
    s.i in f.inodes && (s.Direct? ==> s.k < NDIRECT) && (s.Entry? ==> s.j < NINDIRECT)
  }

  /** The address in a slot, 0 if there is none. */
  function Addr(f: Image, s: Slot): nat {
    if !SlotOk(f, s) then 0
    else
      match s
      case Direct(i, k) => f.inodes[i].addrs[k]
      case Indirect(i) => f.inodes[i].addrs[NDIRECT]
      case Entry(i, j) =>
        var b := f.inodes[i].addrs[NDIRECT];
        if b == 0 then 0 else WordsOf(BlockAt(f, b))[j]
  }

  /** The slot of block bn of file i. */
  function FileSlot(i: nat, bn: nat): Slot {
    if bn < NDIRECT then Direct(i, bn) else Entry(i, bn - NDIRECT)
  }

  type Owners = map<nat, Slot>

  /** Every address belongs to the one slot that holds it; blocks are used as what they are. */
  ghost predicate Owned(f: Image, own: Owners, nmeta: nat) {
    && 0 < nmeta <= |f.bitmap|
    && (forall b | b in own :: nmeta <= b < |f.bitmap| && Addr(f, own[b]) == b && b != 0)
    && (forall s | Addr(f, s) != 0 :: Addr(f, s) in own && own[Addr(f, s)] == s)
    && (forall b | b in own :: if own[b].Indirect? then !BlockAt(f, b).Data? else !BlockAt(f, b).Index?)
  }

  /** A bit is set for metadata and for owned blocks, and for no other. */
  ghost predicate Marked(f: Image, own: Owners, nmeta: nat) {
    forall b | 0 <= b < |f.bitmap| :: f.bitmap[b] <==> b < nmeta || b in own
  }

  /** Every block below the size of file i is there. */
  ghost predicate Whole(f: Image, i: nat) {
    i in f.inodes ==> f.inodes[i].size <= MAXFILE * BSIZE && forall bn: nat | bn * BSIZE < f.inodes[i].size ::
        Addr(f, FileSlot(i, bn)) != 0
  }

  ghost predicate Good(f: Image, own: Owners, nmeta: nat) {
    Owned(f, own, nmeta) && Marked(f, own, nmeta) && forall i :: Whole(f, i)
  }

  /** Byte k of file i. */
  function Byte(f: Image, i: nat, k: nat): nat {
    BytesOf(BlockAt(f, Addr(f, FileSlot(i, k / BSIZE))))[k % BSIZE]
  }

  // ----- giving a free block to a slot

  /** Block b, marked and zeroed, is put into slot s. */
  function Grant(f: Image, s: Slot, b: nat): Image
    requires SlotOk(f, s) && b < |f.bitmap|
  {
    var g := f.(bitmap := f.bitmap[b := true], blocks := f.blocks[b := Zero]);
    match s
    case Direct(i, k) => g.(inodes := f.inodes[i := f.inodes[i].(addrs := f.inodes[i].addrs[k := b])])
    case Indirect(i) => g.(inodes := f.inodes[i := f.inodes[i].(addrs := f.inodes[i].addrs[NDIRECT := b])])
    case Entry(i, j) =>
      var d := f.inodes[i].addrs[NDIRECT];
      g.(blocks := g.blocks[d := Index(WordsOf(BlockAt(g, d))[j := b])])
  }

  predicate Free(f: Image, own: Owners, nmeta: nat, b: nat) {
    nmeta <= b < |f.bitmap| && b !in own
  }

  /** The slot is empty, and there is an indirect block if it is in one. */
  predicate Vacant(f: Image, s: Slot) {
    SlotOk(f, s) && Addr(f, s) == 0 && (s.Entry? ==> f.inodes[s.i].addrs[NDIRECT] != 0)
  }

  lemma GrantAddr(f: Image, own: Owners, nmeta: nat, s: Slot, b: nat, t: Slot)
    requires Owned(f, own, nmeta) && Vacant(f, s) && Free(f, own, nmeta, b)
    ensures Addr(Grant(f, s, b), t) == if t == s then b else Addr(f, t)
  {
    var g := Grant(f, s, b);
    if t.Entry? && t.i in f.inodes {
      var d := Addr(f, Indirect(t.i));
      assert d != 0 ==> d in own && d != b && own[d] == Indirect(t.i);
      if s.Entry? && s.i != t.i {
        var e := Addr(f, Indirect(s.i));
        assert e in own && own[e] == Indirect(s.i);
      }
    }
  }

  lemma GrantOwned(f: Image, own: Owners, nmeta: nat, s: Slot, b: nat)
    requires Owned(f, own, nmeta) && Vacant(f, s) && Free(f, own, nmeta, b)
    ensures Owned(Grant(f, s, b), own[b := s], nmeta)
  {
    hide Addr, Grant;
    var g, own' := Grant(f, s, b), own[b := s];
    GrantShape(f, s, b);
    forall t ensures Addr(g, t) == if t == s then b else Addr(f, t) { GrantAddr(f, own, nmeta, s, b, t); }
    forall c | c in own' ensures if own'[c].Indirect? then !BlockAt(g, c).Data? else !BlockAt(g, c).Index? {
      GrantKind(f, own, nmeta, s, b, c);
    }
  }

  lemma GrantShape(f: Image, s: Slot, b: nat)
    requires SlotOk(f, s) && b < |f.bitmap|
    ensures Grant(f, s, b).bitmap == f.bitmap[b := true]
    ensures Grant(f, s, b).inodes.Keys == f.inodes.Keys
    ensures forall i | i in f.inodes :: Grant(f, s, b).inodes[i].size == f.inodes[i].size
  {
  }

  /** Apart from b, granting touches one block at most: the indirect block that holds the slot. */
  lemma GrantBlock(f: Image, s: Slot, b: nat, c: nat)
    requires SlotOk(f, s) && b < |f.bitmap| && b != c && (s.Entry? ==> f.inodes[s.i].addrs[NDIRECT] != b)
    ensures BlockAt(Grant(f, s, b), c) ==
              if s.Entry? && c == f.inodes[s.i].addrs[NDIRECT] then Index(WordsOf(BlockAt(f, c))[s.j := b])
              else BlockAt(f, c)
  {
  }

  lemma GrantKind(f: Image, own: Owners, nmeta: nat, s: Slot, b: nat, c: nat)
    requires Owned(f, own, nmeta) && Vacant(f, s) && Free(f, own, nmeta, b) && (c == b || c in own)
    ensures var g, t := Grant(f, s, b), own[b := s][c];
            if t.Indirect? then !BlockAt(g, c).Data? else !BlockAt(g, c).Index?
  {
    if s.Entry? { assert Addr(f, Indirect(s.i)) in own; }
    if c != b { GrantBlock(f, s, b, c); }
  }

  lemma GrantMarked(f: Image, own: Owners, nmeta: nat, s: Slot, b: nat)
    requires Marked(f, own, nmeta) && SlotOk(f, s) && Free(f, own, nmeta, b)
    ensures Marked(Grant(f, s, b), own[b := s], nmeta)
  {
    hide Grant;
    GrantShape(f, s, b);
  }

  // ----- what the rest of the files sees

  ghost predicate SameSizes(f: Image, g: Image) {
    g.inodes.Keys == f.inodes.Keys && forall i | i in f.inodes :: g.inodes[i].size == f.inodes[i].size
  }

  /** Blocks of files stay where they are and keep their bytes. */
  ghost predicate Keeps(f: Image, g: Image) {
    && SameSizes(f, g)
    && forall t: Slot | !t.Indirect? && Addr(f, t) != 0 :: Addr(g, t) == Addr(f, t)
         && BlockAt(g, Addr(f, t)) == BlockAt(f, Addr(f, t))
  }

  lemma KeepsSelf(f: Image)
    ensures Keeps(f, f)
  {
  }

  lemma KeepsTrans(f: Image, g: Image, h: Image)
    requires Keeps(f, g) && Keeps(g, h)
    ensures Keeps(f, h)
  {
    hide Addr, BlockAt;
    forall t: Slot | !t.Indirect? && Addr(f, t) != 0
      ensures Addr(h, t) == Addr(f, t) && BlockAt(h, Addr(f, t)) == BlockAt(f, Addr(f, t))
    {
      assert Addr(g, t) == Addr(f, t);
    }
    forall i | i in f.inodes ensures h.inodes[i].size == f.inodes[i].size { assert i in g.inodes.Keys; }
  }

  /** Two images give file i the same bytes. */
  ghost predicate SameFile(f: Image, g: Image, i: nat) {
    (i in f.inodes <==> i in g.inodes) &&
    (i in f.inodes ==> g.inodes[i].size == f.inodes[i].size && forall k: nat | k < f.inodes[i].size ::
        Byte(g, i, k) == Byte(f, i, k))
  }

  lemma SameFileTrans(f: Image, g: Image, h: Image, i: nat)
    requires SameFile(f, g, i) && SameFile(g, h, i)
    ensures SameFile(f, h, i)
  {
    hide Byte;
  }

  lemma Below(k: nat)
    ensures (k / BSIZE) * BSIZE <= k < (k / BSIZE) * BSIZE + BSIZE
  {
  }

  lemma KeepsByte(f: Image, g: Image, i: nat, k: nat)
    requires Keeps(f, g) && Addr(f, FileSlot(i, k / BSIZE)) != 0
    ensures Byte(g, i, k) == Byte(f, i, k) && Addr(g, FileSlot(i, k / BSIZE)) != 0
  {
    hide Addr, BlockAt;
  }

  lemma KeepsFile(f: Image, g: Image, i: nat)
    requires Keeps(f, g) && Whole(f, i)
    ensures SameFile(f, g, i) && Whole(g, i)
  {
    hide Addr, BlockAt, Byte;
    assert i in f.inodes.Keys <==> i in g.inodes.Keys;
    if i in f.inodes {
      forall k: nat | k < f.inodes[i].size ensures Byte(g, i, k) == Byte(f, i, k) {
        Below(k);
        KeepsByte(f, g, i, k);
      }
      forall bn: nat | bn * BSIZE < g.inodes[i].size ensures Addr(g, FileSlot(i, bn)) != 0 {
        assert !FileSlot(i, bn).Indirect?;
      }
    }
  }

  /** Granting a block leaves every file as it was. */
  lemma GrantKeeps(f: Image, own: Owners, nmeta: nat, s: Slot, b: nat)
    requires Owned(f, own, nmeta) && Vacant(f, s) && Free(f, own, nmeta, b)
    ensures Keeps(f, Grant(f, s, b))
  {
    hide Addr, Grant, BlockAt;
    var g := Grant(f, s, b);
    GrantShape(f, s, b);
    forall t: Slot | !t.Indirect? && Addr(f, t) != 0
      ensures Addr(g, t) == Addr(f, t) && BlockAt(g, Addr(f, t)) == BlockAt(f, Addr(f, t))
    {
      GrantAddr(f, own, nmeta, s, b, t);
      GrantData(f, own, nmeta, s, b, t);
    }
  }

  lemma GrantData(f: Image, own: Owners, nmeta: nat, s: Slot, b: nat, t: Slot)
    requires Owned(f, own, nmeta) && Vacant(f, s) && Free(f, own, nmeta, b) && Addr(f, t) != 0 && !t.Indirect?
    ensures BlockAt(Grant(f, s, b), Addr(f, t)) == BlockAt(f, Addr(f, t))
  {
    hide Grant, BlockAt;
    if s.Entry? { assert own[Addr(f, Indirect(s.i))] == Indirect(s.i); }
    GrantBlock(f, s, b, Addr(f, t));
  }

  lemma GrantGood(f: Image, own: Owners, nmeta: nat, s: Slot, b: nat)
    requires Good(f, own, nmeta) && Vacant(f, s) && Free(f, own, nmeta, b)
    ensures Good(Grant(f, s, b), own[b := s], nmeta) && Keeps(f, Grant(f, s, b))
    ensures Addr(Grant(f, s, b), s) == b
  {
    hide Owned, Marked, Whole, Keeps, Addr, Grant;
    GrantOwned(f, own, nmeta, s, b);
    GrantMarked(f, own, nmeta, s, b);
    GrantKeeps(f, own, nmeta, s, b);
    GrantAddr(f, own, nmeta, s, b, s);
    forall i ensures Whole(Grant(f, s, b), i) { KeepsFile(f, Grant(f, s, b), i); }
  }

  // ----- writing bytes

  function Store(f: Image, a: nat, bytes: Bytes): Image {
    f.(blocks := f.blocks[a := Data(bytes)])
  }

  lemma StoreAddr(f: Image, own: Owners, nmeta: nat, a: nat, bytes: Bytes, t: Slot)
    requires Owned(f, own, nmeta) && a in own && !own[a].Indirect?
    ensures Addr(Store(f, a, bytes), t) == Addr(f, t)
  {
    if t.Entry? && t.i in f.inodes {
      var d := Addr(f, Indirect(t.i));
      assert d != 0 ==> own[d] == Indirect(t.i);
    }
  }

  lemma StoreGood(f: Image, own: Owners, nmeta: nat, a: nat, bytes: Bytes)
    requires Good(f, own, nmeta) && a in own && !own[a].Indirect?
    ensures Good(Store(f, a, bytes), own, nmeta)
  {
    hide Addr;
    var g := Store(f, a, bytes);
    forall t ensures Addr(g, t) == Addr(f, t) { StoreAddr(f, own, nmeta, a, bytes, t); }
    forall i ensures Whole(g, i) { assert Whole(f, i); }
  }

  /** Storing into the block of slot s changes the bytes of that block and no others. */
  lemma StoreByte(f: Image, own: Owners, nmeta: nat, i: nat, bn: nat, bytes: Bytes, j: nat, k: nat)
    requires Owned(f, own, nmeta) && Addr(f, FileSlot(i, bn)) != 0 && Addr(f, FileSlot(j, k / BSIZE)) != 0
    ensures Byte(Store(f, Addr(f, FileSlot(i, bn)), bytes), j, k) ==
              if j == i && k / BSIZE == bn then bytes[k % BSIZE]
              else Byte(f, j, k)
  {
    hide Addr;
    var a := Addr(f, FileSlot(i, bn));
    assert own[a] == FileSlot(i, bn);
    StoreAddr(f, own, nmeta, a, bytes, FileSlot(j, k / BSIZE));
    assert own[Addr(f, FileSlot(j, k / BSIZE))] == FileSlot(j, k / BSIZE);
  }

  /** bytes with the part from o on replaced by s. */
  function Spliced(bytes: Bytes, o: nat, s: seq<nat>): Bytes
    requires o + |s| <= BSIZE
  {
    bytes[..o] + s + bytes[o + |s|..]
  }

  /** The first tot bytes of src have gone to offset off of file i, whose size is not set yet. */
  ghost predicate Written(f: Image, g: Image, i: nat, off: nat, tot: nat, src: seq<nat>) {
    && i in f.inodes && tot <= |src| && SameSizes(f, g)
    && (forall k: nat | off <= k < off + tot :: Addr(g, FileSlot(i, k / BSIZE)) != 0 && Byte(g, i, k) == src[k - off])
    && (forall k: nat | k < f.inodes[i].size && !(off <= k < off + tot) :: Byte(g, i, k) == Byte(f, i, k))
    && (forall j | j != i :: SameFile(f, g, j))
  }

  lemma WrittenNone(f: Image, i: nat, off: nat, src: seq<nat>)
    requires i in f.inodes
    ensures Written(f, f, i, off, 0, src)
  {
    hide Addr, Byte;
  }

  lemma WrittenKeeps(f: Image, g: Image, h: Image, own: Owners, nmeta: nat, i: nat, off: nat, tot: nat, src: seq<nat>)
    requires Written(f, g, i, off, tot, src) && Good(g, own, nmeta) && Keeps(g, h)
    ensures Written(f, h, i, off, tot, src)
  {
    hide Addr, Byte, Owned, Marked, FileSlot, Keeps;
    assert SameSizes(g, h) by { KeepsSizes(g, h); }
    assert Whole(g, i);
    forall k: nat | off <= k < off + tot
      ensures Addr(h, FileSlot(i, k / BSIZE)) != 0 && Byte(h, i, k) == src[k - off]
    {
      KeepsByte(g, h, i, k);
    }
    forall k: nat | k < f.inodes[i].size && !(off <= k < off + tot) ensures Byte(h, i, k) == Byte(f, i, k) {
      Below(k);
      KeepsByte(g, h, i, k);
    }
    forall j | j != i ensures SameFile(f, h, j) { KeepsFile(g, h, j); SameFileTrans(f, g, h, j); }
    forall j | j in f.inodes ensures h.inodes[j].size == f.inodes[j].size { assert j in g.inodes.Keys; }
  }

  lemma KeepsSizes(f: Image, g: Image)
    requires Keeps(f, g)
    ensures SameSizes(f, g)
  {
  }

  lemma Divided(bn: nat, o: nat)
    requires o < BSIZE
    ensures (bn * BSIZE + o) / BSIZE == bn && (bn * BSIZE + o) % BSIZE == o
  {
  }

  /** The next m bytes, which lie in one block, are copied. */
  lemma WrittenStore(f: Image, g: Image, own: Owners, nmeta: nat, i: nat, off: nat, tot: nat, m: nat, src: seq<nat>,
                     bn: nat, o: nat)
    requires Written(f, g, i, off, tot, src) && Good(g, own, nmeta)
    requires off + tot == bn * BSIZE + o && o + m <= BSIZE && tot + m <= |src| && 0 < m && Addr(g, FileSlot(i, bn)) != 0
    ensures var a := Addr(g, FileSlot(i, bn));
            Written(f, Store(g, a, Spliced(BytesOf(BlockAt(g, a)), o, src[tot..tot + m])), i, off, tot + m, src)
  {
    hide Addr, Byte, Owned, Marked, FileSlot, Spliced, BlockAt, BytesOf;
    var a := Addr(g, FileSlot(i, bn));
    var bytes := Spliced(BytesOf(BlockAt(g, a)), o, src[tot..tot + m]);
    var h := Store(g, a, bytes);
    assert Whole(g, i);
    forall k: nat | off <= k < off + tot + m
      ensures Addr(h, FileSlot(i, k / BSIZE)) != 0 && Byte(h, i, k) == src[k - off]
    {
      StoreAt(g, own, nmeta, i, bn, o, src[tot..tot + m], k);
    }
    forall k: nat | k < f.inodes[i].size && !(off <= k < off + tot + m) ensures Byte(h, i, k) == Byte(f, i, k) {
      Below(k);
      StoreAt(g, own, nmeta, i, bn, o, src[tot..tot + m], k);
    }
    forall j | j != i ensures SameFile(f, h, j) {
      assert Whole(g, j);
      StoreOther(g, own, nmeta, i, bn, bytes, j);
      SameFileTrans(f, g, h, j);
    }
  }

  /** One byte after a store. */
  lemma StoreAt(g: Image, own: Owners, nmeta: nat, i: nat, bn: nat, o: nat, s: seq<nat>, k: nat)
    requires Owned(g, own, nmeta) && o + |s| <= BSIZE && Addr(g, FileSlot(i, bn)) != 0
    requires bn * BSIZE + o <= k < bn * BSIZE + o + |s| || Addr(g, FileSlot(i, k / BSIZE)) != 0
    ensures var a := Addr(g, FileSlot(i, bn));
            var h := Store(g, a, Spliced(BytesOf(BlockAt(g, a)), o, s));
            Addr(h, FileSlot(i, k / BSIZE)) != 0 && Byte(h, i, k) ==
                if bn * BSIZE + o <= k < bn * BSIZE + o + |s| then s[k - bn * BSIZE - o]
                else Byte(g, i, k)
  {
    hide Addr, FileSlot, BlockAt, BytesOf;
    var a := Addr(g, FileSlot(i, bn));
    var bytes := Spliced(BytesOf(BlockAt(g, a)), o, s);
    if bn * BSIZE <= k < bn * BSIZE + BSIZE { Divided(bn, k - bn * BSIZE); }
    assert own[a] == FileSlot(i, bn) && !FileSlot(i, bn).Indirect? by { SlotKind(i, bn); }
    StoreAddr(g, own, nmeta, a, bytes, FileSlot(i, k / BSIZE));
    StoreByte(g, own, nmeta, i, bn, bytes, i, k);
    Below(k);
  }

  lemma SlotKind(i: nat, bn: nat)
    ensures !FileSlot(i, bn).Indirect?
  {
  }

  lemma StoreOther(g: Image, own: Owners, nmeta: nat, i: nat, bn: nat, bytes: Bytes, j: nat)
    requires Owned(g, own, nmeta) && Addr(g, FileSlot(i, bn)) != 0 && j != i && Whole(g, j)
    ensures SameFile(g, Store(g, Addr(g, FileSlot(i, bn)), bytes), j)
  {
    hide Addr, FileSlot, Byte;
    if j in g.inodes {
      forall k: nat | k < g.inodes[j].size
        ensures Byte(Store(g, Addr(g, FileSlot(i, bn)), bytes), j, k) == Byte(g, j, k)
      {
        Below(k);
        StoreByte(g, own, nmeta, i, bn, bytes, j, k);
      }
    }
  }

  // ----- the size

  function Sized(f: Image, i: nat, n: nat): Image
    requires i in f.inodes
  {
    f.(inodes := f.inodes[i := f.inodes[i].(size := n)])
  }

  lemma SizedAddr(f: Image, i: nat, n: nat, t: Slot)
    requires i in f.inodes
    ensures Addr(Sized(f, i, n), t) == Addr(f, t)
  {
  }

  lemma SizedGood(f: Image, own: Owners, nmeta: nat, i: nat, n: nat)
    requires Good(f, own, nmeta) && i in f.inodes && n <= MAXFILE * BSIZE
    requires forall bn: nat | bn * BSIZE < n :: Addr(f, FileSlot(i, bn)) != 0
    ensures Good(Sized(f, i, n), own, nmeta)
  {
    hide Addr;
    var g := Sized(f, i, n);
    forall t ensures Addr(g, t) == Addr(f, t) { SizedAddr(f, i, n, t); }
    forall j ensures Whole(g, j) { assert Whole(f, j); }
  }

  // ----- contents

  ghost function Content(f: Image, i: nat): seq<nat>
    requires i in f.inodes
  {
    seq(f.inodes[i].size, k => if k >= 0 then Byte(f, i, k) else 0)
  }

  /** c with s written over it from off on. */
  function Overlay(c: seq<nat>, off: nat, s: seq<nat>): seq<nat>
    requires off <= |c|
  {
    c[..off] + s + (if off + |s| < |c| then c[off + |s|..] else [])
  }

  /** Writing t bytes at off overlays the contents, and leaves every other file alone. */
  lemma WrittenContent(f: Image, g: Image, i: nat, off: nat, tot: nat, src: seq<nat>)
    requires Written(f, g, i, off, tot, src) && off <= f.inodes[i].size
    ensures i in g.inodes
    ensures var n := if off + tot > f.inodes[i].size then off + tot else f.inodes[i].size;
            Content(Sized(g, i, n), i) == Overlay(Content(f, i), off, src[..tot]) && forall j | j != i ::
                SameFile(f, Sized(g, i, n), j)
  {
    hide Addr, Byte, FileSlot;
    assert i in f.inodes.Keys;
    var n := if off + tot > f.inodes[i].size then off + tot else f.inodes[i].size;
    var h := Sized(g, i, n);
    forall j, k ensures Byte(h, j, k) == Byte(g, j, k) { SizedByte(g, i, n, j, k); }
    forall j | j != i ensures SameFile(f, h, j) { assert SameFile(f, g, j); }
  }

  lemma SizedByte(f: Image, i: nat, n: nat, j: nat, k: nat)
    requires i in f.inodes
    ensures Byte(Sized(f, i, n), j, k) == Byte(f, j, k)
  {
    hide Addr;
    SizedAddr(f, i, n, FileSlot(j, k / BSIZE));
  }
}
