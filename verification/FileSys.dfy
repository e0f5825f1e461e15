/** The block and inode content layers of fs.c, and the chunks of filewrite.

    Reading a buffer, changing it, logging it and releasing it is one update here; the set logged
    holds the block numbers given to log_write in the current operation. */
module FileSys {
  import opened Files
  import opened Powers
  import opened Sets
  import opened Truncate

  const BPB: nat := BSIZE * 8
  const IPB: nat := 16
  const MAXOPBLOCKS: nat := 10

  lemma UnionSize(a: set<nat>, b: set<nat>)
    ensures |a + b| <= |a| + |b|
  {
    assert a + b == a + (b - a);
    assert |a + (b - a)| == |a| + |b - a|;
    assert b == (b - a) + (b * a);
  }

  /** How many blocks n bits take. */
  function NBitmap(n: nat): nat {
    (n + BPB - 1) / BPB
  }

  /** Every bit is set. */
  predicate Full(bitmap: seq<bool>) {
    forall b | 0 <= b < |bitmap| :: bitmap[b]
  }

  class Fs {
    const bmapstart: nat
    const inodestart: nat
    const nmeta: nat                 // blocks before the data blocks
    var bitmap: seq<bool>
    var blocks: map<nat, Block>
    var inodes: map<nat, Inode>      // the in-memory copies
    var disk: map<nat, Inode>        // what iupdate wrote
    var logged: set<nat>
    ghost var own: Owners

    function Img(): Image
      reads this
    {
      Image(bitmap, blocks, inodes)
    }

    ghost predicate Valid()
      reads this
    {
      Good(Img(), own, nmeta)
    }

    constructor (bitmap: seq<bool>, blocks: map<nat, Block>, inodes: map<nat, Inode>, ghost own: Owners, nmeta: nat,
                 bmapstart: nat, inodestart: nat)
      requires Good(Image(bitmap, blocks, inodes), own, nmeta)
      ensures Valid() && Img() == Image(bitmap, blocks, inodes) && logged == {}
    {
      this.bitmap, this.blocks, this.inodes, this.disk, this.own := bitmap, blocks, inodes, inodes, own;
      this.nmeta, this.bmapstart, this.inodestart, this.logged := nmeta, bmapstart, inodestart, {};
    }

    function BitmapBlock(b: nat): nat {
      b / BPB + bmapstart
    }

    /** What is on disk: the inodes are those that iupdate wrote. */
    function OnDisk(): Image
      reads this
    {
      Image(bitmap, blocks, disk)
    }

    /** Since the disk was f and l was logged, every block that changed has been logged. */
    ghost predicate LoggedSince(f: Image, l: set<nat>)
      reads this
    {
      Since(f, l, OnDisk(), logged, bmapstart, inodestart)
    }

    /** The same, where only bitmap blocks were logged. */
    ghost predicate FreeingSince(f: Image, l: set<nat>)
      reads this
    {
      Freeing(f, l, OnDisk(), logged, bmapstart, inodestart)
    }

    /** Everything logged lies between the first inode block and the end of the disk, if the disk is
        laid out as mkfs does it. */
    ghost predicate Placed()
      reads this
    {
      Within(logged, inodestart, bmapstart, nmeta, |bitmap|, inodes.Keys)
    }

    /** balloc: mark and zero the first free block; 0 if there is none. */
    method Balloc() returns (r: nat)
      modifies `bitmap, `blocks, `logged
      ensures (forall b | 0 <= b < |old(bitmap)| :: old(bitmap)[b]) ==> r == 0 && unchanged(this)
      ensures (exists b | 0 <= b < |old(bitmap)| :: !old(bitmap)[b]) ==>
                && r < |old(bitmap)| && !old(bitmap)[r] && (forall c | 0 <= c < r :: old(bitmap)[c])
                && bitmap == old(bitmap)[r := true] && blocks == old(blocks)[r := Zero]
                && logged == old(logged) + {BitmapBlock(r), r}
    {
      var b := 0;
      while b < |bitmap|
        invariant unchanged(this) && forall c | 0 <= c < b && c < |bitmap| :: bitmap[c]
      {
        var bi := 0;
        while bi < BPB && b + bi < |bitmap|
          invariant 0 <= bi <= BPB && unchanged(this) && forall c | 0 <= c < b + bi && c < |bitmap| :: bitmap[c]
        {
          if !bitmap[b + bi] {
            bitmap := bitmap[b + bi := true];
            blocks := blocks[b + bi := Zero];
            logged := logged + {BitmapBlock(b + bi), b + bi};
            return b + bi;
          }
          bi := bi + 1;
        }
        b := b + BPB;
      }
      return 0;
    }

    /** Allocate a block for an empty slot other than one in an indirect block. */
    method Fill(s: Slot) returns (r: nat)
      requires Valid() && Vacant(Img(), s) && !s.Entry?
      modifies `bitmap, `blocks, `inodes, `logged, `own
      ensures Valid() && Keeps(old(Img()), Img()) && inodes.Keys == old(inodes.Keys)
      ensures LoggedSince(old(OnDisk()), old(logged)) && OnlyInode(old(inodes), inodes, s.i)
      ensures old(Placed()) ==> Placed()
      ensures r == 0 ==> Full(bitmap) && unchanged(this)
      ensures r != 0 ==>
                && logged == old(logged) + {BitmapBlock(r), r}
                && (forall t :: Addr(Img(), t) == if t == s then r else Addr(old(Img()), t))
    {
      hide Good, Keeps, Addr, Covered, Within;
      KeepsSelf(Img());
      ghost var f, o, l := Img(), OnDisk(), logged;
      CoveredSelf(o, l, bmapstart, inodestart);
      FreeBit(f, own, nmeta);
      r := Balloc();
      if r == 0 {
        return;
      }
      CoveredAlloc(o, r, l, bmapstart, inodestart);
      WithinAlloc(l, inodestart, bmapstart, nmeta, |bitmap|, inodes.Keys, r);
      GrantGood(f, own, nmeta, s, r);
      GrantAddrs(f, own, nmeta, s, r);
      var ip := inodes[s.i];
      inodes := inodes[s.i := ip.(addrs := ip.addrs[(if s.Direct? then s.k else NDIRECT) := r])];
      assert inodes.Keys == old(inodes.Keys);
      own := own[r := s];
    }

    /** The entry of an indirect block, with a block allocated for it if it is empty. */
    method FindEntry(i: nat, j: nat) returns (r: nat)
      requires Valid() && i in inodes && j < NINDIRECT && Addr(Img(), Indirect(i)) != 0
      modifies `bitmap, `blocks, `logged, `own
      ensures Valid() && Keeps(old(Img()), Img()) && Addr(Img(), Indirect(i)) == old(Addr(Img(), Indirect(i)))
      ensures LoggedSince(old(OnDisk()), old(logged)) && (old(Placed()) ==> Placed())
      ensures r == 0 ==> Full(bitmap) && unchanged(this)
      ensures Addr(Img(), Entry(i, j)) == r && forall t | t != Entry(i, j) :: Addr(Img(), t) == Addr(old(Img()), t)
      ensures old(Addr(Img(), Entry(i, j))) != 0 ==> r == old(Addr(Img(), Entry(i, j))) && unchanged(this)
      ensures r != 0 ==> logged <= old(logged) + {BitmapBlock(r), r} + Ind(Img(), i)
    {
      hide Good, Keeps, Covered, Within, Addr, WordsOf, Grant;
      KeepsSelf(Img());
      ghost var f, o, l := Img(), OnDisk(), logged;
      CoveredSelf(o, l, bmapstart, inodestart);
      EntryIs(f, i, j);
      var d := inodes[i].addrs[NDIRECT];
      var a := WordsOf(if d in blocks then blocks[d] else Zero);
      r := a[j];
      if r != 0 {
        return;
      }
      FreeBit(f, own, nmeta);
      r := Balloc();
      if r == 0 {
        return;
      }
      GrantGood(f, own, nmeta, Entry(i, j), r);
      GrantAddrs(f, own, nmeta, Entry(i, j), r);
      OtherBlock(f, own, nmeta, i, r);
      GrantEntry(f, i, j, r);
      CoveredAlloc(o, r, l, bmapstart, inodestart);
      WithinAlloc(l, inodestart, bmapstart, nmeta, |bitmap|, inodes.Keys, r);
      AddrRange(f, own, nmeta, Indirect(i));
      WithinData(logged, inodestart, bmapstart, nmeta, |bitmap|, inodes.Keys, d);
      CoveredStore(o, OnDisk(), d, Index(a[j := r]), logged, bmapstart, inodestart);
      blocks := blocks[d := Index(a[j := r])];
      logged := logged + {d};
      own := own[r := Entry(i, j)];
    }

    /** bmap: the address of block bn of file i, allocated if need be; 0 if the disk is full. nb
        holds the bitmap blocks logged. */
    method Bmap(i: nat, bn: nat) returns (r: nat, ghost nb: set<nat>)
      requires Valid() && i in inodes && bn < MAXFILE
      modifies `bitmap, `blocks, `inodes, `logged, `own
      ensures Valid() && Keeps(old(Img()), Img()) && inodes.Keys == old(inodes.Keys) && (r == 0 ==> Full(bitmap))
      ensures Addr(Img(), FileSlot(i, bn)) == r
      ensures forall t | t != FileSlot(i, bn) && t != Indirect(i) :: Addr(Img(), t) == Addr(old(Img()), t)
      ensures old(Addr(Img(), FileSlot(i, bn))) != 0 ==>
                r == old(Addr(Img(), FileSlot(i, bn))) && unchanged(this) && nb == {}
      ensures logged <= old(logged) + nb + {r} + Ind(Img(), i)
      ensures |nb| <= 1 + NewInd(old(Img()), Img(), i) && Ind(old(Img()), i) <= Ind(Img(), i)
      ensures LoggedSince(old(OnDisk()), old(logged)) && OnlyInode(old(inodes), inodes, i)
      ensures old(Placed()) ==> Placed()
    {
      hide Good, Keeps, Addr, Grant, Covered, OnlyInode, Within;
      nb := {};
      KeepsSelf(Img());
      CoveredSelf(OnDisk(), logged, bmapstart, inodestart);
      OnlySelf(inodes, i);
      ghost var f, o := Img(), OnDisk();
      if bn < NDIRECT {
        DirectAddr(f, i, bn);
        r := inodes[i].addrs[bn];
        if r == 0 {
          r := Fill(Direct(i, bn));
          if r != 0 { nb := {BitmapBlock(r)}; }
        }
        return;
      }
      var j := bn - NDIRECT;
      IndirectAddr(f, i, j);
      var d := inodes[i].addrs[NDIRECT];
      if d == 0 {
        d := Fill(Indirect(i));
        if d == 0 {
          return 0, {};
        }
        nb := {BitmapBlock(d)};
      }
      ghost var g, o1, l1 := Img(), OnDisk(), logged;
      r := FindEntry(i, j);
      KeepsTrans(f, g, Img());
      CoveredTrans(o, o1, OnDisk(), l1, logged, bmapstart, inodestart);
      if r != 0 && Addr(f, Entry(i, j)) == 0 {
        UnionSize(nb, {BitmapBlock(r)});
        nb := nb + {BitmapBlock(r)};
      }
    }

    /** iupdate: write the inode to disk. */
    method Iupdate(i: nat)
      requires i in inodes
      modifies `disk, `logged
      ensures disk == old(disk)[i := inodes[i]] && logged == old(logged) + {i / IPB + inodestart}
    {
      disk := disk[i := inodes[i]];
      logged := logged + {i / IPB + inodestart};
    }

    /** One round of writei: copy the next m bytes into the block that holds offset off + tot. */
    method WriteBlock(i: nat, off: nat, tot: nat, src: seq<nat>, valid: nat, ghost f: Image)
      returns (m: nat, ghost nb: set<nat>)
      requires Valid() && i in inodes && tot < |src| && off + |src| <= MAXFILE * BSIZE
      requires Written(f, Img(), i, off, tot, src)
      modifies `bitmap, `blocks, `inodes, `logged, `own
      ensures Valid() && inodes.Keys == old(inodes.Keys) && Written(f, Img(), i, off, tot + m, src)
      ensures m == 0 || m == Chunk(off, tot, |src|)
      ensures m == 0 ==> Full(bitmap) || valid < tot + Chunk(off, tot, |src|)
      ensures logged <= old(logged) + nb + {Addr(Img(), FileSlot(i, (off + tot) / BSIZE))} + Ind(Img(), i)
      ensures |nb| <= 1 + NewInd(old(Img()), Img(), i) && Ind(old(Img()), i) <= Ind(Img(), i)
      ensures old(Addr(Img(), FileSlot(i, (off + tot) / BSIZE))) != 0 ==> nb == {}
      ensures LoggedSince(old(OnDisk()), old(logged)) && OnlyInode(old(inodes), inodes, i)
      ensures old(Placed()) ==> Placed()
    {
      hide Good, Keeps, Addr, Written, Ind, Covered, OnlyInode, BytesOf, Full, Within;
      ghost var g, own1, o0 := Img(), own, OnDisk();
      var bn := (off + tot) / BSIZE;
      var a;
      a, nb := Bmap(i, bn);
      WrittenKeeps(f, g, Img(), own1, nmeta, i, off, tot, src);
      if a == 0 {
        return 0, nb;
      }
      m := Chunk(off, tot, |src|);
      if valid < tot + m {
        return 0, nb;
      }
      var o := (off + tot) % BSIZE;
      ghost var h := Img();
      Below(off + tot);
      WrittenStore(f, h, own, nmeta, i, off, tot, m, src, bn, o);
      DataOwned(h, own, nmeta, i, bn);
      var data := BytesOf(if a in blocks then blocks[a] else Zero);
      StoreGood(h, own, nmeta, a, Spliced(data, o, src[tot..tot + m]));
      StoreSlots(h, own, nmeta, a, Spliced(data, o, src[tot..tot + m]), i, bn);
      AddrRange(h, own, nmeta, FileSlot(i, bn));
      WithinData(logged, inodestart, bmapstart, nmeta, |bitmap|, inodes.Keys, a);
      CoveredStore(o0, OnDisk(), a, Data(Spliced(data, o, src[tot..tot + m])), logged, bmapstart, inodestart);
      blocks := blocks[a := Data(Spliced(data, o, src[tot..tot + m]))];
      logged := logged + {a};
    }

    /** writei: the bytes of src go to offset off of file i as far as the disk has room and the
        source can be read, valid being how much of it can. The result is -1 or the number of bytes
        written. */
    method Writei(i: nat, off: nat, src: seq<nat>, valid: nat) returns (r: int)
      requires Valid() && i in inodes && off < TWO32 && |src| < TWO32
      modifies `bitmap, `blocks, `inodes, `disk, `logged, `own
      ensures Valid() && inodes.Keys == old(inodes.Keys)
      ensures r == -1 <==> off > old(inodes)[i].size || off + |src| > MAXFILE * BSIZE
      ensures r == -1 ==> unchanged(this)
      ensures r != -1 ==> 0 <= r <= |src| && Wrote(old(Img()), Img(), i, off, src[..r])
      ensures r != -1 ==> r == |src| || valid < |src| || forall b | 0 <= b < |bitmap| :: bitmap[b]
      ensures r != -1 ==> i in inodes && i in disk && disk[i] == inodes[i]
      ensures old(disk) == old(inodes) ==> disk == inodes
      ensures LoggedSince(old(OnDisk()), old(logged)) && |logged| <= |old(logged)| + LogBound(off, |src|)
      ensures old(Placed()) ==> Placed()
    {
      hide Good, Addr, Wrote, Written, LogBound, Whole, Covered, Within;
      if off > inodes[i].size || (off + |src|) % TWO32 < off || off + |src| > MAXFILE * BSIZE {
        CoveredSelf(OnDisk(), logged, bmapstart, inodestart);
        return -1;
      }
      ghost var f, o := Img(), OnDisk();
      var tot := WriteBlocks(i, off, src, valid);
      UnionSize(logged, {i / IPB + inodestart});
      ghost var o1, l1 := OnDisk(), logged;
      WriteSize(i, off, tot, f, src);
      CoveredInode(o, o1, i, inodes[i], l1, bmapstart, inodestart);
      return tot;
    }

    /** The loop of writei. */
    method WriteBlocks(i: nat, off: nat, src: seq<nat>, valid: nat) returns (tot: nat)
      requires Valid() && i in inodes && off <= inodes[i].size && off + |src| <= MAXFILE * BSIZE
      modifies `bitmap, `blocks, `inodes, `logged, `own
      ensures Valid() && inodes.Keys == old(inodes.Keys) && tot <= |src| && Written(old(Img()), Img(), i, off, tot, src)
      ensures tot == |src| || Full(bitmap) || valid < |src|
      ensures |logged| + 1 <= |old(logged)| + LogBound(off, |src|)
      ensures LoggedSince(old(OnDisk()), old(logged)) && OnlyInode(old(inodes), inodes, i)
      ensures old(Placed()) ==> Placed()
    {
      hide Good, Addr, Written, Ind, NewInd, Chunk, Rounds, Allocs, Full, Since, OnlyInode, Tally, Within;
      ghost var f := Img();
      SinceSelf(OnDisk(), logged, bmapstart, inodestart);
      OnlySelf(inodes, i);
      ghost var rounds, data, bits := 0, {}, {};
      WrittenNone(f, i, off, src);
      FirstBlock(f, own, nmeta, i, off);
      TallyNone(logged, f, i, off);
      tot := 0;
      while tot < |src|
        invariant tot <= |src| && Valid() && i in inodes && inodes.Keys == old(inodes.Keys)
        invariant Written(f, Img(), i, off, tot, src)
        invariant if rounds == 0 then tot == 0 && Img() == f else tot == |src| || off % BSIZE + tot == rounds * BSIZE
        invariant rounds <= Rounds(off, |src|)
        invariant Tally(logged, old(logged), data, bits, f, Img(), i, off, rounds)
        invariant LoggedSince(old(OnDisk()), old(logged)) && OnlyInode(old(inodes), inodes, i)
        invariant old(Placed()) ==> Placed()
      {
        ghost var g, o1, l1, in1 := Img(), OnDisk(), logged, inodes;
        RoundsLeft(off, |src|, tot, rounds);
        var m;
        ghost var nb;
        m, nb := WriteBlock(i, off, tot, src, valid, f);
        ghost var a := Addr(Img(), FileSlot(i, (off + tot) / BSIZE));
        TallyNext(l1, old(logged), data, bits, f, g, i, off, rounds, logged, Img(), a, nb);
        SinceTrans(old(OnDisk()), old(logged), o1, l1, OnDisk(), logged, bmapstart, inodestart);
        OnlyTrans(old(inodes), in1, inodes, i);
        data, bits, rounds := data + {a}, bits + nb, rounds + 1;
        if m == 0 {
          break;
        }
        tot := tot + m;
      }
      TallyEnd(logged, old(logged), data, bits, f, Img(), i, off, rounds, |src|);
    }

    /** The end of writei: set the size and write the inode. */
    method WriteSize(i: nat, off: nat, tot: nat, ghost f: Image, ghost src: seq<nat>)
      requires Valid() && i in inodes && Written(f, Img(), i, off, tot, src) && off <= f.inodes[i].size
      requires off + tot <= MAXFILE * BSIZE
      modifies `inodes, `disk, `logged
      ensures Valid() && inodes.Keys == old(inodes.Keys) && tot <= |src| && Wrote(f, Img(), i, off, src[..tot])
      ensures i in inodes && disk == old(disk)[i := inodes[i]] && logged == old(logged) + {i / IPB + inodestart}
      ensures OnlyInode(old(inodes), inodes, i) && (old(Placed()) ==> Placed())
    {
      hide Good, Addr, Content, Within;
      ghost var g := Img();
      SizeIs(f, g, i, off, tot, src);
      WrittenContent(f, g, i, off, tot, src);
      NewSizeGood(f, g, own, nmeta, i, off, tot, src);
      SizedSame(g, i);
      if off + tot > inodes[i].size {
        inodes := inodes[i := inodes[i].(size := off + tot)];
      }
      assert inodes.Keys == old(inodes.Keys);
      WithinInode(logged, inodestart, bmapstart, nmeta, |bitmap|, inodes.Keys, i);
      Iupdate(i);
    }

    /** readi: the n bytes from off on, as far as the file goes; -1 if they cannot all be copied out. An
        offset past the end, or one whose end wraps, gets nothing. The file system does not change. */
    method Readi(i: nat, off: nat, n: nat, valid: nat) returns (r: int, out: seq<nat>)
      requires Valid() && i in inodes && off < TWO32 && n < TWO32
      modifies `bitmap, `blocks, `inodes, `logged, `own
      ensures unchanged(this)
      ensures off > inodes[i].size || off + n >= TWO32 ==> r == 0 && out == []
      ensures off <= inodes[i].size && off + n < TWO32 ==>
                var e := if off + n < inodes[i].size then off + n else inodes[i].size;
                && |Content(Img(), i)| == inodes[i].size
                && if e - off <= valid then r == e - off && out == Content(Img(), i)[off..e]
                   else r == -1 && IsSlice(Img(), i, off, out)
    {
      hide Good, Addr, IsSlice;
      if off > inodes[i].size || (off + n) % TWO32 < off {
        return 0, [];
      }
      var len := if off + n > inodes[i].size then inodes[i].size - off else n;
      r, out := ReadBlocks(i, off, len, valid);
      SliceIs(Img(), i, off, out);
    }

    /** The loop of readi. */
    method ReadBlocks(i: nat, off: nat, len: nat, valid: nat) returns (r: int, out: seq<nat>)
      requires Valid() && i in inodes && off + len <= inodes[i].size
      modifies `bitmap, `blocks, `inodes, `logged, `own
      ensures unchanged(this) && IsSlice(Img(), i, off, out)
      ensures if len <= valid then r == len == |out| else r == -1
    {
      hide Good, Addr, IsSlice, BytesOf, BlockAt, Chunk;
      out := [];
      SliceNone(Img(), i, off);
      var tot := 0;
      while tot < len
        invariant unchanged(this) && tot == |out| <= len && (tot == 0 || tot <= valid) && IsSlice(Img(), i, off, out)
      {
        var data := ReadBlock(i, off + tot);
        var m := Chunk(off, tot, len);
        if valid < tot + m {
          return -1, out;
        }
        var o := (off + tot) % BSIZE;
        SliceNext(Img(), i, off, out, data[o..o + m]);
        out := out + data[o..o + m];
        tot := tot + m;
      }
      return tot, out;
    }

    /** bmap and bread of the block that holds byte k, which is there. */
    method ReadBlock(i: nat, k: nat) returns (data: Bytes)
      requires Valid() && i in inodes && k < inodes[i].size
      modifies `bitmap, `blocks, `inodes, `logged, `own
      ensures unchanged(this) && data == BytesOf(BlockAt(Img(), Addr(Img(), FileSlot(i, k / BSIZE))))
    {
      hide Good, Addr, Keeps, Full, Ind, NewInd, Since, OnlyInode, BytesOf, Within;
      BlockThere(Img(), own, nmeta, i, k);
      var a;
      ghost var nb;
      a, nb := Bmap(i, k / BSIZE);
      data := BytesOf(if a in blocks then blocks[a] else Zero);
    }

    /** Reading on until nothing comes back: the whole file. */
    method ReadAll(i: nat, n: nat) returns (all: seq<nat>)
      requires Valid() && i in inodes && 0 < n < 0x8000_0000
      modifies `bitmap, `blocks, `inodes, `logged, `own
      ensures unchanged(this) && all == Content(Img(), i)
    {
      hide Good, Addr, IsSlice, Content;
      SmallFile(Img(), own, nmeta, i);
      all := [];
      var more := true;
      while more
        invariant unchanged(this) && |all| <= inodes[i].size && all == Content(Img(), i)[..|all|]
        invariant !more ==> |all| == inodes[i].size
        decreases if more then inodes[i].size - |all| + 1 else 0
      {
        var r, out := Readi(i, |all|, n, n);
        if r == 0 {
          more := false;
        } else {
          assert Content(Img(), i)[..|all| + |out|] == all + out;
          all := all + out;
        }
      }
      assert Content(Img(), i)[..|all|] == Content(Img(), i);
    }

    /** One chunk: begin_op, writei, end_op. */
    method WriteChunk(i: nat, off: nat, src: seq<nat>, valid: nat) returns (r: int, op: Operation)
      requires Valid() && i in inodes && off < TWO32 && |src| <= ((MAXOPBLOCKS - 1 - 1 - 2) / 2) * BSIZE
      modifies `bitmap, `blocks, `inodes, `disk, `logged, `own
      ensures Valid() && inodes.Keys == old(inodes.Keys) && |bitmap| == |old(bitmap)|
      ensures r == -1 <==> off > old(inodes)[i].size || off + |src| > MAXFILE * BSIZE
      ensures r == -1 ==> Img() == old(Img())
      ensures r != -1 ==> 0 <= r <= |src| && Wrote(old(Img()), Img(), i, off, src[..r])
      ensures r != -1 ==> r == |src| || Full(bitmap) || valid < |src|
      ensures old(disk) == old(inodes) ==> disk == inodes
      ensures Operations([op], old(OnDisk()), OnDisk(), bmapstart, inodestart)
      ensures Within(op.logged, inodestart, bmapstart, nmeta, |bitmap|, inodes.Keys) && op.after == OnDisk()
    {
      hide Good, Wrote, LogBound, Covered, Within, Operations;
      logged := {};
      var o := OnDisk();
      WithinNone(inodestart, bmapstart, nmeta, |bitmap|, inodes.Keys);
      r := Writei(i, off, src, valid);
      ChunkFits(off, |src|);
      OneOperation(o, OnDisk(), logged, bmapstart, inodestart);
      SameLength(o, OnDisk(), logged, bmapstart, inodestart);
      op := Operation(o, OnDisk(), logged);
    }

    /** filewrite on an inode: write in chunks, each an operation of its own. off is the file
        offset before, end after; ops are the operations, from the disk before to the disk after. */
    method Filewrite(i: nat, off: nat, src: seq<nat>, valid: nat) returns (ret: int, end: nat, ops: seq<Operation>)
      requires Valid() && i in inodes && off < TWO32 && |src| < 0x8000_0000
      modifies `bitmap, `blocks, `inodes, `disk, `logged, `own
      ensures Valid() && off <= end <= off + |src|
      ensures Wrote(old(Img()), Img(), i, off, src[..end - off]) || (end == off && Img() == old(Img()))
      ensures ret == if end - off == |src| then |src| else -1
      ensures off > old(inodes)[i].size ==> end == off
      ensures ret == -1 ==> || off > old(inodes)[i].size || off + |src| > MAXFILE * BSIZE || valid < |src|
                            || forall b | 0 <= b < |bitmap| :: bitmap[b]
      ensures old(disk) == old(inodes) ==> Partly(ops, old(Img()), i, off, src)
      ensures Operations(ops, old(OnDisk()), OnDisk(), bmapstart, inodestart) && inodes.Keys == old(inodes.Keys)
      ensures AllWithin(ops, inodestart, bmapstart, nmeta, |bitmap|, inodes.Keys)
      ensures old(disk) == old(inodes) ==> disk == inodes
    {
      hide Good, Addr, Wrote, LogBound, Covered, Within, AllWithin, Operations, Partly;
      PartlyNone(Img(), i, off, src);
      NoOperations(OnDisk(), bmapstart, inodestart);
      NoneWithin(inodestart, bmapstart, nmeta, |bitmap|, inodes.Keys);
      ops, end := [], off;
      var max := ((MAXOPBLOCKS - 1 - 1 - 2) / 2) * BSIZE;
      var k := 0;
      ghost var f := Img();
      while k < |src|
        invariant 0 <= k <= |src| && Valid() && i in inodes && end == off + k
        invariant if k == 0 then Img() == f else Wrote(f, Img(), i, off, src[..k])
        invariant k > 0 ==> off + k <= MAXFILE * BSIZE
        invariant Operations(ops, old(OnDisk()), OnDisk(), bmapstart, inodestart) && inodes.Keys == old(inodes.Keys)
        invariant AllWithin(ops, inodestart, bmapstart, nmeta, |bitmap|, inodes.Keys)
        invariant old(disk) == old(inodes) ==> disk == inodes && Partly(ops, f, i, off, src)
      {
        var n1 := if |src| - k > max then max else |src| - k;
        ghost var g, o := Img(), OnDisk();
        var r, op := WriteChunk(i, end, src[k..k + n1], if valid > k then valid - k else 0);
        OperationsJoin(ops, [op], old(OnDisk()), o, OnDisk(), bmapstart, inodestart);
        MoreWithin(ops, [op], inodestart, bmapstart, nmeta, |bitmap|, inodes.Keys);
        if k > 0 { WroteSize(f, g, i, off, src[..k]); }
        if r != -1 { WroteNext(f, g, Img(), i, off, src, k, n1, r); }
        if old(disk) == old(inodes) { PartlyNext(ops, op, f, Img(), i, off, src, if r == -1 then k else k + r); }
        ops := ops + [op];
        if r > 0 { end := end + r; }
        if r != n1 { break; }
        k := k + r;
      }
      ret := if k == |src| then |src| else -1;
      WroteOff(f, Img(), i, off, src[..end - off]);
    }

    /** bfree; freeing a free block is a panic. */
    method Bfree(b: nat)
      requires b < |bitmap| && bitmap[b]
      modifies `bitmap, `logged
      ensures bitmap == old(bitmap)[b := false] && logged == old(logged) + {BitmapBlock(b)}
    {
      bitmap := bitmap[b := false];
      logged := logged + {BitmapBlock(b)};
    }

    /** The direct blocks of file i are freed. */
    method TruncDirect(i: nat)
      requires Owned(Img(), own, nmeta) && Marked(Img(), own, nmeta) && i in inodes
      modifies `bitmap, `inodes, `logged, `own
      ensures Owned(Img(), own, nmeta) && Marked(Img(), own, nmeta) && i in inodes && |bitmap| == |old(bitmap)|
      ensures FreeingSince(old(OnDisk()), old(logged)) && OnlyInode(old(inodes), inodes, i)
      ensures old(Placed()) ==> Placed()
      ensures DirectsGone(old(Img()), Img(), i, NDIRECT) && OthersKept(old(Img()), Img(), i)
    {
      hide Owned, Marked, DirectsGone, OthersKept, Addr, Freeing, Within, OnlyInode;
      OnlySelf(inodes, i);
      FreeingSelf(OnDisk(), logged, bmapstart, inodestart);
      DirectsNone(Img(), i);
      OthersSelf(Img(), i);
      var k := 0;
      while k < NDIRECT
        invariant 0 <= k <= NDIRECT && Owned(Img(), own, nmeta) && Marked(Img(), own, nmeta) && i in inodes
        invariant |bitmap| == |old(bitmap)|
        invariant DirectsGone(old(Img()), Img(), i, k) && OthersKept(old(Img()), Img(), i)
        invariant FreeingSince(old(OnDisk()), old(logged)) && OnlyInode(old(inodes), inodes, i)
        invariant old(Placed()) ==> Placed()
      {
        ghost var g := Img();
        var b := inodes[i].addrs[k];
        if b != 0 {
          DropDirectOk(g, own, nmeta, i, k);
          FreeingOne(old(OnDisk()), old(logged), OnDisk(), logged, b, bmapstart, inodestart);
          WithinBit(logged, inodestart, bmapstart, nmeta, |bitmap|, inodes.Keys, b);
          Bfree(b);
          OnlySet(old(inodes), inodes, i, inodes[i].(addrs := inodes[i].addrs[k := 0]));
          inodes := inodes[i := inodes[i].(addrs := inodes[i].addrs[k := 0])];
          own := own - {b};
          DirectsNext(old(Img()), g, Img(), i, k);
          OthersTrans(old(Img()), g, Img(), i);
        } else {
          DirectsSkip(old(Img()), g, i, k);
        }
        k := k + 1;
      }
    }

    /** The entries of the indirect block of file i, and then the block itself, are freed. */
    method TruncIndirect(i: nat)
      requires Owned(Img(), own, nmeta) && Marked(Img(), own, nmeta) && i in inodes && Addr(Img(), Indirect(i)) != 0
      modifies `bitmap, `inodes, `logged, `own
      ensures Owned(Img(), own, nmeta) && Marked(Img(), own, nmeta) && i in inodes && |bitmap| == |old(bitmap)|
      ensures FreeingSince(old(OnDisk()), old(logged)) && OnlyInode(old(inodes), inodes, i)
      ensures old(Placed()) ==> Placed()
      ensures Img() == DropIndirect(old(Img()), bitmap, i) && OthersKept(old(Img()), Img(), i)
    {
      hide Owned, Marked, OthersKept, Without, Freeing, Within, OnlyInode, Addr, WordsOf;
      OnlySelf(inodes, i);
      EntryIs(Img(), i, 0);
      ghost var f, own0 := Img(), own;
      FreeingSelf(OnDisk(), logged, bmapstart, inodestart);
      WithoutNone(own, i);
      var d := inodes[i].addrs[NDIRECT];
      var a := WordsOf(if d in blocks then blocks[d] else Zero);
      var j := 0;
      while j < NINDIRECT
        invariant 0 <= j <= NINDIRECT && inodes == old(inodes) && |bitmap| == |f.bitmap|
        invariant Without(own0, own, i, j) && Marked(f.(bitmap := bitmap), own, nmeta)
        invariant FreeingSince(old(OnDisk()), old(logged)) && (old(Placed()) ==> Placed())
      {
        EntryIs(f, i, j);
        DropEntry(f, own0, nmeta, bitmap, own, i, j);
        if a[j] != 0 {
          FreeingOne(old(OnDisk()), old(logged), OnDisk(), logged, a[j], bmapstart, inodestart);
          WithinBit(logged, inodestart, bmapstart, nmeta, |bitmap|, inodes.Keys, a[j]);
          Bfree(a[j]);
          own := own - {a[j]};
        }
        j := j + 1;
      }
      DropIndirectOk(f, own0, nmeta, bitmap, own, i);
      FreeingOne(old(OnDisk()), old(logged), OnDisk(), logged, d, bmapstart, inodestart);
      WithinBit(logged, inodestart, bmapstart, nmeta, |bitmap|, inodes.Keys, d);
      Bfree(d);
      OnlySet(old(inodes), inodes, i, inodes[i].(addrs := inodes[i].addrs[NDIRECT := 0]));
      inodes := inodes[i := inodes[i].(addrs := inodes[i].addrs[NDIRECT := 0])];
      own := own - {d};
    }

    /** All blocks of file i are freed. */
    method TruncBlocks(i: nat)
      requires Owned(Img(), own, nmeta) && Marked(Img(), own, nmeta) && i in inodes
      modifies `bitmap, `inodes, `logged, `own
      ensures Owned(Img(), own, nmeta) && Marked(Img(), own, nmeta) && i in inodes && |bitmap| == |old(bitmap)|
      ensures FreeingSince(old(OnDisk()), old(logged)) && OnlyInode(old(inodes), inodes, i)
      ensures old(Placed()) ==> Placed()
      ensures Emptied(old(Img()), Img(), i) && OthersKept(old(Img()), Img(), i)
    {
      hide Owned, Marked, OthersKept, DirectsGone, Emptied, Addr, Freeing, OnlyInode, Within;
      ghost var f, o, in0 := Img(), OnDisk(), inodes;
      TruncDirect(i);
      ghost var g, o1, l1, in1 := Img(), OnDisk(), logged, inodes;
      IndirectAddr(g, i, 0);
      if inodes[i].addrs[NDIRECT] != 0 {
        TruncIndirect(i);
        FreeingTrans(o, old(logged), o1, l1, OnDisk(), logged, bmapstart, inodestart);
        OnlyTrans(in0, in1, inodes, i);
        OthersTrans(f, g, Img(), i);
        IndirectGone(f, g, bitmap, i);
      } else {
        NoIndirect(f, g, i);
      }
    }

    /** itrunc: file i becomes empty, exactly its blocks become free, and no other file changes. */
    method Itrunc(i: nat)
      requires Valid() && i in inodes
      modifies `bitmap, `inodes, `disk, `logged, `own
      ensures Valid() && i in inodes && inodes[i].size == 0 && i in disk && disk[i] == inodes[i]
      ensures Emptied(old(Img()), Img(), i) && forall j | j != i :: SameFile(old(Img()), Img(), j)
      ensures |bitmap| == |old(bitmap)| && forall b: nat | b < |bitmap| :: bitmap[b] <==>
                old(bitmap)[b] && !(b in old(own) && old(own)[b].i == i)
      ensures LoggedSince(old(OnDisk()), old(logged)) && (old(disk) == old(inodes) ==> disk == inodes)
      ensures |logged| <= |old(logged)| + NBitmap(|bitmap|) + 1
      ensures inodes.Keys == old(inodes.Keys) && (old(Placed()) ==> Placed())
    {
      hide Owned, Marked, OthersKept, Emptied, SameFile, Addr, Whole, Covered, Interval, Within;
      ghost var f, own0, o := Img(), own, OnDisk();
      TruncBlocks(i);
      EmptyGood(f, Img(), own, nmeta, i);
      EmptiedSized(f, Img(), i);
      FreedAll(f, own0, Img(), own, nmeta, i);
      OnlySet(old(inodes), inodes, i, inodes[i].(size := 0));
      inodes := inodes[i := inodes[i].(size := 0)];
      CoveredInode(o, OnDisk(), i, inodes[i], logged, bmapstart, inodestart);
      TruncLogs(logged, old(logged), |bitmap|, i / IPB + inodestart, bmapstart);
      WithinInode(logged, inodestart, bmapstart, nmeta, |bitmap|, inodes.Keys, i);
      Iupdate(i);
    }

    /** Over any run of writes, reads and truncations the bitmap and the addresses stay in step, and
        each call does to the files what it says. */
    method Run(ops: seq<FileOp>) returns (replies: seq<Reply>, ghost images: seq<Image>)
      requires Valid() && disk == inodes
      modifies `bitmap, `blocks, `inodes, `disk, `logged, `own
      ensures Valid() && disk == inodes && forall k | 0 <= k < |bitmap| :: bitmap[k] <==> k < nmeta || k in own
      ensures Answers(ops, replies, images) && images[0] == old(Img()) && images[|ops|] == Img()
    {
      hide Owned, Whole, Answered, Full;
      replies, images := [], [Img()];
      for k := 0 to |ops|
        invariant Valid() && disk == inodes
        invariant Answers(ops[..k], replies, images) && images[0] == old(Img()) && images[k] == Img()
      {
        var a := Call(ops[k]);
        AnswersNext(ops, k, replies, images, a, Img());
        replies, images := replies + [a], images + [Img()];
      }
      assert ops[..|ops|] == ops;
    }

    /** One call of writei, readi or itrunc. */
    method Call(op: FileOp) returns (a: Reply)
      requires Valid() && disk == inodes
      modifies `bitmap, `blocks, `inodes, `disk, `logged, `own
      ensures Valid() && disk == inodes && Answered(old(Img()), op, a, Img())
      ensures a == NotMade <==> !(op.i in old(inodes) && (!op.Truncate? ==> op.off < TWO32)
                                  && (op.Put? ==> |op.src| < TWO32) && (op.Get? ==> op.n < TWO32))
      ensures a.DidPut? ==>
                a.ret == if op.off > old(inodes)[op.i].size || op.off + |op.src| > MAXFILE * BSIZE then -1 else a.n
    {
      hide Good, Wrote, LogBound, SameFile, Emptied, IsSlice, Covered, Within, Content;
      logged := {};
      a := NotMade;
      if op.i in inodes {
        match op
        case Put(i, off, src, valid) =>
          if off < TWO32 && |src| < TWO32 {
            var r := Writei(i, off, src, valid);
            a := DidPut(if r == -1 then 0 else r, r);
          }
        case Get(i, off, n, valid) =>
          if off < TWO32 && n < TWO32 {
            var r, out := Readi(i, off, n, valid);
            a := DidGet(out, r);
          }
        case Truncate(i) =>
          Itrunc(i);
          a := DidTruncate;
      }
    }

    /** A run of file writes, reads and truncations is a sequence of operations for the log: each
        logs every block it changes, and no more than begin_op reserves for it. */
    method Session(ops: seq<FileOp>) returns (trace: seq<Operation>, replies: seq<Reply>, ghost images: seq<Image>)
      requires Valid() && disk == inodes && NBitmap(|bitmap|) < MAXOPBLOCKS
      modifies `bitmap, `blocks, `inodes, `disk, `logged, `own
      ensures Valid() && disk == inodes
      ensures Operations(trace, old(OnDisk()), OnDisk(), bmapstart, inodestart) && inodes.Keys == old(inodes.Keys)
      ensures |bitmap| == |old(bitmap)| && AllWithin(trace, inodestart, bmapstart, nmeta, |bitmap|, inodes.Keys)
      ensures Answers(ops, replies, images) && images[0] == old(Img()) && images[|ops|] == Img()
    {
      hide Good, Answered, Covered, Operations, Within, Partly;
      trace, replies, images := [], [], [Img()];
      NoOperations(OnDisk(), bmapstart, inodestart);
      for k := 0 to |ops|
        invariant Valid() && disk == inodes && |bitmap| == |old(bitmap)|
        invariant Operations(trace, old(OnDisk()), OnDisk(), bmapstart, inodestart) && inodes.Keys == old(inodes.Keys)
        invariant AllWithin(trace, inodestart, bmapstart, nmeta, |bitmap|, inodes.Keys)
        invariant Answers(ops[..k], replies, images) && images[0] == old(Img()) && images[k] == Img()
      {
        ghost var o := OnDisk();
        var more, a := Perform(ops[k]);
        OperationsJoin(trace, more, old(OnDisk()), o, OnDisk(), bmapstart, inodestart);
        AnswersNext(ops, k, replies, images, a, Img());
        trace, replies, images := trace + more, replies + [a], images + [Img()];
      }
      assert ops[..|ops|] == ops;
    }

    /** One call of write, read or truncate, and the operations it takes. A write takes several; after
        each of them a first part of the bytes is in the file. */
    method Perform(op: FileOp) returns (trace: seq<Operation>, a: Reply)
      requires Valid() && disk == inodes && NBitmap(|bitmap|) < MAXOPBLOCKS
      modifies `bitmap, `blocks, `inodes, `disk, `logged, `own
      ensures Valid() && disk == inodes && Answered(old(Img()), op, a, Img())
      ensures a == NotMade <==> !(op.i in old(inodes) && (!op.Truncate? ==> op.off < TWO32)
                                  && (op.Put? ==> |op.src| < 0x8000_0000) && (op.Get? ==> op.n < TWO32))
      ensures a.DidPut? ==> a.ret == if a.n == |op.src| then |op.src| else -1
      ensures if a.DidPut? then Partly(trace, old(Img()), op.i, op.off, op.src)
              else if a.DidTruncate? then |trace| == 1 else trace == []
      ensures Operations(trace, old(OnDisk()), OnDisk(), bmapstart, inodestart) && inodes.Keys == old(inodes.Keys)
      ensures |bitmap| == |old(bitmap)| && AllWithin(trace, inodestart, bmapstart, nmeta, |bitmap|, inodes.Keys)
    {
      hide Good, Wrote, LogBound, Full, SameFile, Emptied, IsSlice, Covered, Operations, Within, Content, Partly;
      trace, a := [], NotMade;
      NoOperations(OnDisk(), bmapstart, inodestart);
      if op.i in inodes {
        match op
        case Put(i, off, src, valid) =>
          if off < TWO32 && |src| < 0x8000_0000 {
            var ret, end;
            ret, end, trace := Filewrite(i, off, src, valid);
            a := DidPut(end - off, ret);
          }
        case Get(i, off, n, valid) =>
          if off < TWO32 && n < TWO32 {
            var r, out := Readi(i, off, n, valid);
            a := DidGet(out, r);
          }
        case Truncate(i) =>
          var o := OnDisk();
          logged := {};
          WithinNone(inodestart, bmapstart, nmeta, |bitmap|, inodes.Keys);
          Itrunc(i);
          OneOperation(o, OnDisk(), logged, bmapstart, inodestart);
          trace, a := [Operation(o, OnDisk(), logged)], DidTruncate;
      }
      OperationsLength(trace, old(OnDisk()), OnDisk(), bmapstart, inodestart);
    }
  }

  // ----- calls and replies

  datatype FileOp =
    | Put(i: nat, off: nat, src: seq<nat>, valid: nat)
    | Get(i: nat, off: nat, n: nat, valid: nat)
    | Truncate(i: nat)

  /** The bytes written or read, and the value returned. */
  datatype Reply = NotMade | DidPut(n: nat, ret: int) | DidGet(out: seq<nat>, ret: int) | DidTruncate

  /** g is f with s written to file i at off. */
  ghost predicate PutSome(f: Image, g: Image, i: nat, off: nat, s: seq<nat>) {
    Wrote(f, g, i, off, s) || (s == [] && g == f)
  }

  /** The call op turns f into g, and a is what the caller learns. */
  ghost predicate Answered(f: Image, op: FileOp, a: Reply, g: Image) {
    match a
    case NotMade => g == f
    case DidPut(n, ret) =>
      && op.Put? && op.i in f.inodes && n <= |op.src| && PutSome(f, g, op.i, op.off, op.src[..n])
      && (|| n == |op.src| || op.valid < |op.src| || op.off > f.inodes[op.i].size
          || op.off + |op.src| > MAXFILE * BSIZE || forall b | 0 <= b < |g.bitmap| :: g.bitmap[b])
    case DidGet(out, ret) =>
      && op.Get? && op.i in f.inodes && g == f
      && var size := f.inodes[op.i].size;
         if op.off > size || op.off + op.n >= TWO32 then ret == 0 && out == []
         else
           var e := if op.off + op.n < size then op.off + op.n else size;
           |Content(f, op.i)| == size
           && if e - op.off <= op.valid then ret == e - op.off && out == Content(f, op.i)[op.off..e] else ret == -1
    case DidTruncate =>
      && op.Truncate? && op.i in f.inodes && op.i in g.inodes && g.inodes[op.i].size == 0
      && forall j | j != op.i :: SameFile(f, g, j)
  }

  /** One image before the first call and one after each. */
  ghost predicate Answers(ops: seq<FileOp>, replies: seq<Reply>, images: seq<Image>) {
    && |replies| == |ops| && |images| == |ops| + 1
    && forall k | 0 <= k < |ops| :: Answered(images[k], ops[k], replies[k], images[k + 1])
  }

  lemma AnswersNext(ops: seq<FileOp>, k: nat, replies: seq<Reply>, images: seq<Image>, a: Reply, g: Image)
    requires k < |ops| && Answers(ops[..k], replies, images) && Answered(images[k], ops[k], a, g)
    ensures Answers(ops[..k + 1], replies + [a], images + [g])
  {
    hide Answered;
  }

  /** After each operation some first part of src is in the file. */
  ghost predicate Partly(ops: seq<Operation>, f: Image, i: nat, off: nat, src: seq<nat>) {
    forall j | 0 <= j < |ops| :: exists t | 0 <= t <= |src| :: PutSome(f, ops[j].after, i, off, src[..t])
  }

  lemma PartlyNone(f: Image, i: nat, off: nat, src: seq<nat>)
    ensures Partly([], f, i, off, src)
  {
  }

  lemma PartlyNext(ops: seq<Operation>, op: Operation, f: Image, g: Image, i: nat, off: nat, src: seq<nat>, t: nat)
    requires Partly(ops, f, i, off, src) && op.after == g && t <= |src| && PutSome(f, g, i, off, src[..t])
    ensures Partly(ops + [op], f, i, off, src)
  {
    hide PutSome;
  }

  // ----- what an operation logs

  /** Every disk block in which f and g differ is in l. */
  ghost predicate Covered(f: Image, g: Image, l: set<nat>, bmapstart: nat, inodestart: nat) {
    && |f.bitmap| == |g.bitmap| && f.inodes.Keys <= g.inodes.Keys
    && (forall b: nat | b < |f.bitmap| && f.bitmap[b] != g.bitmap[b] :: b / BPB + bmapstart in l)
    && (forall b: nat | BlockAt(f, b) != BlockAt(g, b) :: b in l)
    && (forall i: nat | i in g.inodes && !(i in f.inodes && f.inodes[i] == g.inodes[i]) :: i / IPB + inodestart in l)
  }

  /** The same, where the blocks logged were l before. */
  ghost predicate Since(f: Image, l: set<nat>, g: Image, l': set<nat>, bmapstart: nat, inodestart: nat) {
    l <= l' && Covered(f, g, l', bmapstart, inodestart)
  }

  /** ... and only blocks of the bitmap were logged. */
  ghost predicate Freeing(f: Image, l: set<nat>, g: Image, l': set<nat>, bmapstart: nat, inodestart: nat) {
    Since(f, l, g, l', bmapstart, inodestart) && l' <= l + Interval(bmapstart, NBitmap(|g.bitmap|))
  }

  lemma FreeingSelf(f: Image, l: set<nat>, bmapstart: nat, inodestart: nat)
    ensures Freeing(f, l, f, l, bmapstart, inodestart)
  {
    hide Since, Interval;
    SinceSelf(f, l, bmapstart, inodestart);
  }

  lemma FreeingTrans(f: Image, l: set<nat>, g: Image, l': set<nat>, h: Image, l'': set<nat>, bmapstart: nat,
                     inodestart: nat)
    requires Freeing(f, l, g, l', bmapstart, inodestart) && Freeing(g, l', h, l'', bmapstart, inodestart)
    ensures Freeing(f, l, h, l'', bmapstart, inodestart)
  {
    hide Interval, Covered;
    SinceTrans(f, l, g, l', h, l'', bmapstart, inodestart);
    SameLength(g, h, l'', bmapstart, inodestart);
  }

  lemma SameLength(f: Image, g: Image, l: set<nat>, bmapstart: nat, inodestart: nat)
    requires Covered(f, g, l, bmapstart, inodestart)
    ensures |f.bitmap| == |g.bitmap|
  {
    hide BlockAt;
  }

  lemma FreeingOne(f: Image, l: set<nat>, g: Image, l': set<nat>, b: nat, bmapstart: nat, inodestart: nat)
    requires Freeing(f, l, g, l', bmapstart, inodestart) && b < |g.bitmap|
    ensures Freeing(f, l, g.(bitmap := g.bitmap[b := false]), l' + {b / BPB + bmapstart}, bmapstart, inodestart)
  {
    hide Interval, Covered;
    CoveredFree(f, g, b, l', bmapstart, inodestart);
  }

  lemma FreedAll(f: Image, own: Owners, g: Image, own': Owners, nmeta: nat, i: nat)
    requires Owned(f, own, nmeta) && Marked(f, own, nmeta) && Owned(g, own', nmeta) && Marked(g, own', nmeta)
    requires Emptied(f, g, i)
    requires |f.bitmap| == |g.bitmap|
    ensures forall b: nat | b < |g.bitmap| :: g.bitmap[b] <==> f.bitmap[b] && !(b in own && own[b].i == i)
  {
    hide Owned, Marked, Emptied;
    forall b: nat | b < |g.bitmap| ensures g.bitmap[b] <==> f.bitmap[b] && !(b in own && own[b].i == i) {
      FreedBits(f, own, g, own', nmeta, i, b);
    }
  }

  lemma TruncLogs(l: set<nat>, l0: set<nat>, n: nat, b: nat, bmapstart: nat)
    requires l <= l0 + Interval(bmapstart, NBitmap(n))
    ensures |l + {b}| <= |l0| + NBitmap(n) + 1
  {
    hide Interval;
    var bits := Interval(bmapstart, NBitmap(n));
    UnionSize(l0, bits);
    UnionSize(l0 + bits, {b});
    SubsetSize(l + {b}, l0 + bits + {b});
  }

  ghost predicate OnlyInode(m: map<nat, Inode>, m': map<nat, Inode>, i: nat) {
    m'.Keys == m.Keys && forall j | j in m && j != i :: m'[j] == m[j]
  }

  /** What one begin_op and end_op enclose. */
  datatype Operation = Operation(before: Image, after: Image, logged: set<nat>)

  /** The operations lead from f to g. Each logs all that it changes, and no more blocks than
      begin_op reserves for it. */
  ghost predicate Operations(ops: seq<Operation>, f: Image, g: Image, bmapstart: nat, inodestart: nat) {
    && (if ops == [] then f == g else f == ops[0].before && ops[|ops| - 1].after == g)
    && (forall k | 0 < k < |ops| :: ops[k].before == ops[k - 1].after)
    && forall k | 0 <= k < |ops| :: Covered(ops[k].before, ops[k].after, ops[k].logged, bmapstart, inodestart)
         && |ops[k].logged| <= MAXOPBLOCKS
  }

  // ----- where the logged blocks lie

  /** As mkfs lays out a disk of n blocks: inode blocks, bitmap blocks, data blocks. */
  ghost predicate Laid(inodestart: nat, bmapstart: nat, nmeta: nat, n: nat, keys: set<nat>) {
    && bmapstart + NBitmap(n) <= nmeta <= n
    && (forall i | i in keys :: i / IPB + inodestart < bmapstart) && inodestart <= bmapstart
  }

  ghost predicate Within(l: set<nat>, inodestart: nat, bmapstart: nat, nmeta: nat, n: nat, keys: set<nat>) {
    Laid(inodestart, bmapstart, nmeta, n, keys) ==> forall b | b in l :: inodestart <= b < n
  }

  ghost predicate AllWithin(ops: seq<Operation>, inodestart: nat, bmapstart: nat, nmeta: nat, n: nat, keys: set<nat>) {
    forall k | 0 <= k < |ops| :: Within(ops[k].logged, inodestart, bmapstart, nmeta, n, keys)
  }

  lemma NoneWithin(inodestart: nat, bmapstart: nat, nmeta: nat, n: nat, keys: set<nat>)
    ensures AllWithin([], inodestart, bmapstart, nmeta, n, keys)
  {
  }

  lemma MoreWithin(a: seq<Operation>, b: seq<Operation>, inodestart: nat, bmapstart: nat, nmeta: nat, n: nat,
                   keys: set<nat>)
    requires AllWithin(a, inodestart, bmapstart, nmeta, n, keys)
    requires AllWithin(b, inodestart, bmapstart, nmeta, n, keys)
               || (|b| == 1 && Within(b[0].logged, inodestart, bmapstart, nmeta, n, keys))
    ensures AllWithin(a + b, inodestart, bmapstart, nmeta, n, keys)
  {
    hide Within;
  }

  lemma WithinNone(inodestart: nat, bmapstart: nat, nmeta: nat, n: nat, keys: set<nat>)
    ensures Within({}, inodestart, bmapstart, nmeta, n, keys)
  {
  }

  lemma WithinData(l: set<nat>, inodestart: nat, bmapstart: nat, nmeta: nat, n: nat, keys: set<nat>, b: nat)
    requires nmeta <= b < n
    ensures Within(l, inodestart, bmapstart, nmeta, n, keys) ==> Within(l + {b}, inodestart, bmapstart, nmeta, n, keys)
  {
  }

  lemma WithinBit(l: set<nat>, inodestart: nat, bmapstart: nat, nmeta: nat, n: nat, keys: set<nat>, b: nat)
    requires b < n
    ensures Within(l, inodestart, bmapstart, nmeta, n, keys) ==>
              Within(l + {b / BPB + bmapstart}, inodestart, bmapstart, nmeta, n, keys)
  {
    assert b / BPB < NBitmap(n);
  }

  lemma WithinAlloc(l: set<nat>, inodestart: nat, bmapstart: nat, nmeta: nat, n: nat, keys: set<nat>, b: nat)
    requires nmeta <= b < n
    ensures Within(l, inodestart, bmapstart, nmeta, n, keys) ==>
              Within(l + {b / BPB + bmapstart, b}, inodestart, bmapstart, nmeta, n, keys)
  {
    hide Within;
    WithinBit(l, inodestart, bmapstart, nmeta, n, keys, b);
    WithinData(l + {b / BPB + bmapstart}, inodestart, bmapstart, nmeta, n, keys, b);
    assert l + {b / BPB + bmapstart, b} == l + {b / BPB + bmapstart} + {b};
  }

  lemma WithinInode(l: set<nat>, inodestart: nat, bmapstart: nat, nmeta: nat, n: nat, keys: set<nat>, i: nat)
    requires i in keys
    ensures Within(l, inodestart, bmapstart, nmeta, n, keys) ==>
              Within(l + {i / IPB + inodestart}, inodestart, bmapstart, nmeta, n, keys)
  {
  }

  lemma AddrRange(f: Image, own: Owners, nmeta: nat, t: Slot)
    requires Good(f, own, nmeta) && Addr(f, t) != 0
    ensures nmeta <= Addr(f, t) < |f.bitmap|
  {
    hide Whole;
  }

  lemma NoOperations(f: Image, bmapstart: nat, inodestart: nat)
    ensures Operations([], f, f, bmapstart, inodestart)
  {
  }

  lemma OneOperation(f: Image, g: Image, l: set<nat>, bmapstart: nat, inodestart: nat)
    requires Covered(f, g, l, bmapstart, inodestart) && |l| <= MAXOPBLOCKS
    ensures Operations([Operation(f, g, l)], f, g, bmapstart, inodestart)
  {
    hide Covered;
  }

  lemma OperationsJoin(a: seq<Operation>, b: seq<Operation>, f: Image, g: Image, h: Image, bmapstart: nat,
                       inodestart: nat)
    requires Operations(a, f, g, bmapstart, inodestart) && Operations(b, g, h, bmapstart, inodestart)
    ensures Operations(a + b, f, h, bmapstart, inodestart)
  {
    hide Covered;
  }

  lemma {:induction false} OperationsLength(a: seq<Operation>, f: Image, g: Image, bmapstart: nat, inodestart: nat)
    requires Operations(a, f, g, bmapstart, inodestart)
    ensures |f.bitmap| == |g.bitmap|
    decreases |a|
  {
    hide Covered;
    if a != [] {
      var n := |a| - 1;
      OperationsLength(a[..n], f, a[n].before, bmapstart, inodestart);
      SameLength(a[n].before, a[n].after, a[n].logged, bmapstart, inodestart);
    }
  }

  lemma OnlySelf(m: map<nat, Inode>, i: nat)
    ensures OnlyInode(m, m, i)
  {
  }

  lemma OnlySet(m: map<nat, Inode>, m': map<nat, Inode>, i: nat, d: Inode)
    requires OnlyInode(m, m', i) && i in m
    ensures OnlyInode(m, m'[i := d], i) && m'.Keys == m.Keys && m'[i := d].Keys == m.Keys
  {
    assert m'[i := d].Keys == m'.Keys;
  }

  lemma OnlyTrans(m: map<nat, Inode>, m1: map<nat, Inode>, m2: map<nat, Inode>, i: nat)
    requires OnlyInode(m, m1, i) && OnlyInode(m1, m2, i)
    ensures OnlyInode(m, m2, i)
  {
    forall j | j in m && j != i ensures m2[j] == m[j] { assert j in m1.Keys; }
  }

  lemma CoveredSelf(f: Image, l: set<nat>, bmapstart: nat, inodestart: nat)
    ensures Covered(f, f, l, bmapstart, inodestart)
  {
    hide BlockAt;
  }

  lemma CoveredTrans(f: Image, g: Image, h: Image, l: set<nat>, l': set<nat>, bmapstart: nat, inodestart: nat)
    requires Covered(f, g, l, bmapstart, inodestart) && l <= l' && Covered(g, h, l', bmapstart, inodestart)
    ensures Covered(f, h, l', bmapstart, inodestart)
  {
    hide BlockAt;
    forall b: nat | b < |f.bitmap| && f.bitmap[b] != h.bitmap[b] ensures b / BPB + bmapstart in l' {
      assert f.bitmap[b] != g.bitmap[b] || g.bitmap[b] != h.bitmap[b];
    }
    forall b: nat | BlockAt(f, b) != BlockAt(h, b) ensures b in l' {
      assert BlockAt(f, b) != BlockAt(g, b) || BlockAt(g, b) != BlockAt(h, b);
    }
  }

  lemma SinceSelf(f: Image, l: set<nat>, bmapstart: nat, inodestart: nat)
    ensures Since(f, l, f, l, bmapstart, inodestart)
  {
    hide Covered;
    CoveredSelf(f, l, bmapstart, inodestart);
  }

  lemma SinceTrans(f: Image, l: set<nat>, g: Image, l': set<nat>, h: Image, l'': set<nat>, bmapstart: nat,
                   inodestart: nat)
    requires Since(f, l, g, l', bmapstart, inodestart) && Since(g, l', h, l'', bmapstart, inodestart)
    ensures Since(f, l, h, l'', bmapstart, inodestart)
  {
    hide Covered;
    CoveredTrans(f, g, h, l', l'', bmapstart, inodestart);
  }

  lemma CoveredMore(f: Image, g: Image, l: set<nat>, l': set<nat>, bmapstart: nat, inodestart: nat)
    requires Covered(f, g, l, bmapstart, inodestart) && l <= l'
    ensures Covered(f, g, l', bmapstart, inodestart)
  {
    hide BlockAt;
  }

  lemma CoveredStore(f: Image, g: Image, b: nat, data: Block, l: set<nat>, bmapstart: nat, inodestart: nat)
    requires Covered(f, g, l, bmapstart, inodestart)
    ensures Covered(f, g.(blocks := g.blocks[b := data]), l + {b}, bmapstart, inodestart)
  {
    var h := g.(blocks := g.blocks[b := data]);
    forall c: nat | BlockAt(f, c) != BlockAt(h, c) ensures c in l + {b} {
      assert c == b || BlockAt(h, c) == BlockAt(g, c);
    }
  }

  lemma CoveredAlloc(f: Image, b: nat, l: set<nat>, bmapstart: nat, inodestart: nat)
    requires b < |f.bitmap|
    ensures Covered(f, f.(bitmap := f.bitmap[b := true], blocks := f.blocks[b := Zero]), l + {b / BPB + bmapstart, b},
              bmapstart, inodestart)
  {
  }

  lemma CoveredFree(f: Image, g: Image, b: nat, l: set<nat>, bmapstart: nat, inodestart: nat)
    requires Covered(f, g, l, bmapstart, inodestart) && b < |g.bitmap|
    ensures Covered(f, g.(bitmap := g.bitmap[b := false]), l + {b / BPB + bmapstart}, bmapstart, inodestart)
  {
    hide BlockAt;
    var h := g.(bitmap := g.bitmap[b := false]);
    forall c: nat ensures BlockAt(h, c) == BlockAt(g, c) { BlockSame(g, h, c); }
    forall c: nat | c < |f.bitmap| && f.bitmap[c] != h.bitmap[c]
      ensures c / BPB + bmapstart in l + {b / BPB + bmapstart}
    {
      assert c == b || h.bitmap[c] == g.bitmap[c];
    }
  }

  lemma BlockSame(g: Image, h: Image, c: nat)
    requires g.blocks == h.blocks
    ensures BlockAt(h, c) == BlockAt(g, c)
  {
  }

  /** iupdate logs the inode block, whatever it writes there. */
  lemma CoveredInode(f: Image, g: Image, i: nat, d: Inode, l: set<nat>, bmapstart: nat, inodestart: nat)
    requires Covered(f, g, l, bmapstart, inodestart)
    ensures Covered(f, g.(inodes := g.inodes[i := d]), l + {i / IPB + inodestart}, bmapstart, inodestart)
  {
    hide BlockAt;
    var h := g.(inodes := g.inodes[i := d]);
    forall c: nat ensures BlockAt(h, c) == BlockAt(g, c) { BlockSame(g, h, c); }
  }

  /** A clear bit is that of a free block, never 0. */
  lemma FreeBit(f: Image, own: Owners, nmeta: nat)
    requires Good(f, own, nmeta)
    ensures 0 < nmeta <= |f.bitmap|
    ensures forall b | 0 <= b < |f.bitmap| && !f.bitmap[b] :: b != 0 && Free(f, own, nmeta, b)
  {
    hide Whole, Addr;
  }

  lemma GrantAddrs(f: Image, own: Owners, nmeta: nat, s: Slot, b: nat)
    requires Good(f, own, nmeta) && Vacant(f, s) && Free(f, own, nmeta, b)
    ensures forall t :: Addr(Grant(f, s, b), t) == if t == s then b else Addr(f, t)
  {
    hide Owned, Marked, Whole, Addr, Grant;
    forall t { GrantAddr(f, own, nmeta, s, b, t); }
  }

  /** The indirect block of file i, if there is one. */
  function Ind(f: Image, i: nat): (d: set<nat>)
    ensures |d| <= 1
  {
    var d := Addr(f, Indirect(i));
    if d == 0 then {} else {d}
  }

  /** One if the file has got an indirect block. */
  function NewInd(f: Image, g: Image, i: nat): nat {
    if Ind(f, i) == {} && Ind(g, i) != {} then 1 else 0
  }

  lemma DirectAddr(f: Image, i: nat, k: nat)
    requires i in f.inodes && k < NDIRECT
    ensures Addr(f, Direct(i, k)) == f.inodes[i].addrs[k]
  {
  }

  lemma OtherBlock(f: Image, own: Owners, nmeta: nat, i: nat, b: nat)
    requires Good(f, own, nmeta) && Addr(f, Indirect(i)) != 0 && Free(f, own, nmeta, b)
    ensures Addr(f, Indirect(i)) != b
  {
    hide Marked, Whole;
  }

  /** The entry of an indirect block, and the file system once block b is in it. */
  lemma EntryIs(f: Image, i: nat, j: nat)
    requires i in f.inodes && j < NINDIRECT && Addr(f, Indirect(i)) != 0
    ensures var d := f.inodes[i].addrs[NDIRECT];
            && d != 0 && Addr(f, Indirect(i)) == d
            && Addr(f, Entry(i, j)) == WordsOf(if d in f.blocks then f.blocks[d] else Zero)[j]
  {
  }

  lemma GrantEntry(f: Image, i: nat, j: nat, b: nat)
    requires i in f.inodes && j < NINDIRECT && b < |f.bitmap| && f.inodes[i].addrs[NDIRECT] != b
    ensures var d := f.inodes[i].addrs[NDIRECT];
            var a := WordsOf(if d in f.blocks then f.blocks[d] else Zero);
            Grant(f, Entry(i, j), b) == Image(f.bitmap[b := true], f.blocks[b := Zero][d := Index(a[j := b])], f.inodes)
  {
    hide WordsOf;
  }

  lemma IndirectAddr(f: Image, i: nat, j: nat)
    requires i in f.inodes && j < NINDIRECT
    ensures Addr(f, Indirect(i)) == f.inodes[i].addrs[NDIRECT]
    ensures Addr(f, Indirect(i)) == 0 ==> Addr(f, Entry(i, j)) == 0
  {
  }

  /** The number of bytes writei and readi take from one block. */
  function Chunk(off: nat, tot: nat, n: nat): (m: nat)
    requires tot < n
    ensures 0 < m <= n - tot && (off + tot) % BSIZE + m <= BSIZE
  {
    var room := BSIZE - (off + tot) % BSIZE;
    if n - tot < room then n - tot else room
  }

  lemma DataOwned(f: Image, own: Owners, nmeta: nat, i: nat, bn: nat)
    requires Good(f, own, nmeta) && Addr(f, FileSlot(i, bn)) != 0
    ensures Addr(f, FileSlot(i, bn)) in own && !own[Addr(f, FileSlot(i, bn))].Indirect?
  {
    hide Addr, Marked, Whole;
  }

  lemma StoreSlots(f: Image, own: Owners, nmeta: nat, a: nat, bytes: Bytes, i: nat, bn: nat)
    requires Good(f, own, nmeta) && a in own && !own[a].Indirect?
    ensures var g := Store(f, a, bytes); Addr(g, FileSlot(i, bn)) == Addr(f, FileSlot(i, bn)) && Ind(g, i) == Ind(f, i)
  {
    hide Owned, Marked, Whole, Addr;
    StoreAddr(f, own, nmeta, a, bytes, FileSlot(i, bn));
    StoreAddr(f, own, nmeta, a, bytes, Indirect(i));
  }

  ghost predicate Wrote(f: Image, g: Image, i: nat, off: nat, s: seq<nat>) {
    && i in f.inodes && i in g.inodes && off <= f.inodes[i].size
    && Content(g, i) == Overlay(Content(f, i), off, s)
    && forall j | j != i :: SameFile(f, g, j)
  }

  /** The number of blocks that n bytes from off on touch. */
  function Rounds(off: nat, n: nat): nat {
    if n == 0 then 0 else (off % BSIZE + n - 1) / BSIZE + 1
  }

  /** Of the first k blocks, how many may have to be allocated: the first one is there already if
      off lies inside it. */
  function Allocs(off: nat, k: nat): nat {
    if k > 0 && off % BSIZE != 0 then k - 1 else k
  }

  /** How many blocks one writei may log: the data blocks, a bitmap block for each allocation, the
      indirect block with its bitmap block, and the inode. */
  function LogBound(off: nat, n: nat): nat {
    Rounds(off, n) + Allocs(off, Rounds(off, n)) + 3
  }

  /** After some rounds of writei: the data blocks, the bitmap blocks and the indirect block are all
      that was logged, and how many there are. */
  ghost predicate Tally(l: set<nat>, l0: set<nat>, data: set<nat>, bits: set<nat>, f: Image, g: Image, i: nat,
                        off: nat, rounds: nat) {
    && l <= l0 + data + bits + Ind(g, i) && |data| <= rounds
    && |bits| <= Allocs(off, rounds) + NewInd(f, g, i) && Ind(f, i) <= Ind(g, i)
  }

  lemma TallyNone(l: set<nat>, f: Image, i: nat, off: nat)
    ensures Tally(l, l, {}, {}, f, f, i, off, 0)
  {
    hide Ind;
  }

  lemma TallyNext(l: set<nat>, l0: set<nat>, data: set<nat>, bits: set<nat>, f: Image, g: Image, i: nat, off: nat,
                  rounds: nat,
                  l': set<nat>, h: Image, a: nat, nb: set<nat>)
    requires Tally(l, l0, data, bits, f, g, i, off, rounds) && l' <= l + nb + {a} + Ind(h, i)
    requires |nb| <= 1 + NewInd(g, h, i) && Ind(g, i) <= Ind(h, i) && (rounds == 0 && off % BSIZE != 0 ==> nb == {})
    ensures Tally(l', l0, data + {a}, bits + nb, f, h, i, off, rounds + 1)
  {
    hide Ind;
    UnionSize(data, {a});
    UnionSize(bits, nb);
    NewIndTrans(f, g, h, i);
    NextAllocs(off, rounds);
  }

  lemma TallyEnd(l: set<nat>, l0: set<nat>, data: set<nat>, bits: set<nat>, f: Image, g: Image, i: nat, off: nat,
                 rounds: nat, n: nat)
    requires Tally(l, l0, data, bits, f, g, i, off, rounds) && rounds <= Rounds(off, n)
    ensures |l| + 1 <= |l0| + LogBound(off, n)
  {
    hide Ind, Rounds;
    LogSize(l, l0, data, bits, Ind(g, i));
    AllocsMono(f, g, i, off, rounds, Rounds(off, n));
  }

  lemma RoundsLeft(off: nat, n: nat, tot: nat, rounds: nat)
    requires tot < n && rounds <= Rounds(off, n)
    requires if rounds == 0 then tot == 0 else off % BSIZE + tot == rounds * BSIZE
    ensures rounds < Rounds(off, n)
    ensures var m := Chunk(off, tot, n); tot + m == n || off % BSIZE + tot + m == (rounds + 1) * BSIZE
  {
    OffsetIn(off, tot, rounds);
  }

  lemma OffsetIn(off: nat, tot: nat, rounds: nat)
    requires if rounds == 0 then tot == 0 else off % BSIZE + tot == rounds * BSIZE
    ensures (off + tot) % BSIZE == if rounds == 0 then off % BSIZE else 0
  {
    assert off == (off / BSIZE) * BSIZE + off % BSIZE;
    if rounds > 0 { Divided(off / BSIZE + rounds, 0); }
  }

  lemma FirstBlock(f: Image, own: Owners, nmeta: nat, i: nat, off: nat)
    requires Good(f, own, nmeta) && i in f.inodes && off <= f.inodes[i].size
    ensures off % BSIZE != 0 ==> Addr(f, FileSlot(i, off / BSIZE)) != 0
  {
    hide Owned, Marked, Addr;
    assert Whole(f, i);
    Below(off);
  }

  lemma NewIndTrans(f: Image, g: Image, h: Image, i: nat)
    requires Ind(f, i) <= Ind(g, i) <= Ind(h, i)
    ensures NewInd(f, h, i) == NewInd(f, g, i) + NewInd(g, h, i)
  {
    hide Addr;
  }

  lemma SizeIs(f: Image, g: Image, i: nat, off: nat, tot: nat, src: seq<nat>)
    requires Written(f, g, i, off, tot, src)
    ensures i in g.inodes && g.inodes[i].size == f.inodes[i].size && tot <= |src|
  {
    hide Addr, Byte;
    assert i in f.inodes.Keys;
  }

  lemma SizedSame(f: Image, i: nat)
    requires i in f.inodes
    ensures Sized(f, i, f.inodes[i].size) == f
  {
  }

  lemma NewSizeGood(f: Image, g: Image, own: Owners, nmeta: nat, i: nat, off: nat, tot: nat, src: seq<nat>)
    requires Good(g, own, nmeta) && Written(f, g, i, off, tot, src) && off <= f.inodes[i].size
    requires off + tot <= MAXFILE * BSIZE
    ensures i in g.inodes
    ensures Good(Sized(g, i, if off + tot > f.inodes[i].size then off + tot else f.inodes[i].size), own, nmeta)
  {
    hide Owned, Marked, Addr, Byte;
    SizeIs(f, g, i, off, tot, src);
    assert Whole(g, i);
    var n := if off + tot > f.inodes[i].size then off + tot else f.inodes[i].size;
    forall bn: nat | bn * BSIZE < n ensures Addr(g, FileSlot(i, bn)) != 0 {
      if bn * BSIZE >= f.inodes[i].size {
        Divided(bn, 0);
        assert off <= bn * BSIZE < off + tot;
        assert Addr(g, FileSlot(i, (bn * BSIZE) / BSIZE)) != 0;
      }
    }
    SizedGood(g, own, nmeta, i, n);
  }

  lemma LogSize(l: set<nat>, l0: set<nat>, data: set<nat>, bits: set<nat>, ind: set<nat>)
    requires l <= l0 + data + bits + ind && |ind| <= 1
    ensures |l| <= |l0| + |data| + |bits| + 1
  {
    UnionSize(l0, data);
    UnionSize(l0 + data, bits);
    UnionSize(l0 + data + bits, ind);
    SubsetSize(l, l0 + data + bits + ind);
  }

  lemma NextAllocs(off: nat, k: nat)
    ensures Allocs(off, k + 1) == Allocs(off, k) + if k == 0 && off % BSIZE != 0 then 0 else 1
  {
  }

  lemma AllocsMono(f: Image, g: Image, i: nat, off: nat, k: nat, m: nat)
    requires k <= m
    ensures Allocs(off, k) <= Allocs(off, m) && NewInd(f, g, i) <= 1
  {
    hide Ind;
  }

  /** A chunk of filewrite fits the log space reserved for one operation, and only just. */
  lemma ChunkFits(off: nat, n: nat)
    ensures n <= ((MAXOPBLOCKS - 1 - 1 - 2) / 2) * BSIZE ==> LogBound(off, n) <= MAXOPBLOCKS
    ensures off % BSIZE != 0 && n == ((MAXOPBLOCKS - 1 - 1 - 2) / 2) * BSIZE ==> LogBound(off, n) == MAXOPBLOCKS
    ensures n >= ((MAXOPBLOCKS - 1 - 1 - 2) / 2 + 1) * BSIZE ==> LogBound(off, n) > MAXOPBLOCKS
  {
  }

  // ----- reading

  /** out is what file i holds from off on. */
  ghost predicate IsSlice(f: Image, i: nat, off: nat, out: seq<nat>) {
    i in f.inodes && (out == [] || (off + |out| <= f.inodes[i].size && Content(f, i)[off..off + |out|] == out))
  }

  lemma SliceIs(f: Image, i: nat, off: nat, out: seq<nat>)
    requires IsSlice(f, i, off, out)
    ensures i in f.inodes && |Content(f, i)| == f.inodes[i].size
    ensures off + |out| <= f.inodes[i].size ==> out == Content(f, i)[off..off + |out|]
  {
    hide Byte;
  }

  lemma SmallFile(f: Image, own: Owners, nmeta: nat, i: nat)
    requires Good(f, own, nmeta) && i in f.inodes
    ensures f.inodes[i].size <= MAXFILE * BSIZE < 0x8000_0000 && |Content(f, i)| == f.inodes[i].size
  {
    hide Owned, Marked, Byte, Addr;
    assert Whole(f, i);
  }

  lemma SliceNone(f: Image, i: nat, off: nat)
    requires i in f.inodes
    ensures IsSlice(f, i, off, [])
  {
  }

  lemma BlockThere(f: Image, own: Owners, nmeta: nat, i: nat, k: nat)
    requires Good(f, own, nmeta) && i in f.inodes && k < f.inodes[i].size
    ensures Addr(f, FileSlot(i, k / BSIZE)) != 0 && k / BSIZE < MAXFILE
  {
    hide Owned, Marked, Addr;
    assert Whole(f, i);
    Below(k);
  }

  lemma SliceNext(f: Image, i: nat, off: nat, out: seq<nat>, more: seq<nat>)
    requires IsSlice(f, i, off, out) && off + |out| + |more| <= f.inodes[i].size
    requires (off + |out|) % BSIZE + |more| <= BSIZE
    requires var o := (off + |out|) % BSIZE;
             more == BytesOf(BlockAt(f, Addr(f, FileSlot(i, (off + |out|) / BSIZE))))[o..o + |more|]
    ensures IsSlice(f, i, off, out + more)
  {
    hide Addr, BlockAt, Byte, BytesOf;
    var c, k := Content(f, i), off + |out|;
    forall j | 0 <= j < |more| ensures c[k + j] == more[j] {
      ByteAt(f, i, k, j, |more|);
    }
    assert c[off..k + |more|] == c[off..k] + c[k..k + |more|];
  }

  lemma ByteAt(f: Image, i: nat, k: nat, j: nat, m: nat)
    requires j < m && k % BSIZE + m <= BSIZE
    ensures Byte(f, i, k + j) == BytesOf(BlockAt(f, Addr(f, FileSlot(i, k / BSIZE))))[k % BSIZE..k % BSIZE + m][j]
  {
    hide Addr, BlockAt, BytesOf;
    Below(k);
    Divided(k / BSIZE, k % BSIZE + j);
  }

  /** Two writes, one after the other, are one. */
  lemma WroteTrans(f: Image, g: Image, h: Image, i: nat, off: nat, a: seq<nat>, b: seq<nat>)
    requires Wrote(f, g, i, off, a) && Wrote(g, h, i, off + |a|, b)
    ensures Wrote(f, h, i, off, a + b)
  {
    hide Byte, SameFile;
    OverlayTwice(Content(f, i), off, a, b);
    forall j | j != i ensures SameFile(f, h, j) { SameFileTrans(f, g, h, j); }
  }

  lemma OverlayTwice(c: seq<nat>, off: nat, a: seq<nat>, b: seq<nat>)
    requires off <= |c|
    ensures off + |a| <= |Overlay(c, off, a)| && Overlay(Overlay(c, off, a), off + |a|, b) == Overlay(c, off, a + b)
  {
  }

  lemma WroteOff(f: Image, g: Image, i: nat, off: nat, s: seq<nat>)
    ensures Wrote(f, g, i, off, s) ==> i in f.inodes && off <= f.inodes[i].size
  {
  }

  lemma WroteSize(f: Image, g: Image, i: nat, off: nat, s: seq<nat>)
    requires Wrote(f, g, i, off, s)
    ensures i in g.inodes && g.inodes[i].size >= off + |s|
  {
    hide Byte, SameFile;
    assert |Content(g, i)| == g.inodes[i].size;
  }

  /** The next chunk of a write. */
  lemma WroteNext(f: Image, g: Image, h: Image, i: nat, off: nat, src: seq<nat>, k: nat, n: nat, r: nat)
    requires k + n <= |src| && r <= n && Wrote(g, h, i, off + k, src[k..k + n][..r])
    requires (k == 0 && g == f) || Wrote(f, g, i, off, src[..k])
    ensures Wrote(f, h, i, off, src[..k + r])
  {
    hide Wrote;
    assert src[k..k + n][..r] == src[k..k + r];
    assert src[..k] + src[k..k + r] == src[..k + r];
    if k == 0 && g == f {
      assert src[..k + r] == src[k..k + r];
    } else {
      WroteTrans(f, g, h, i, off, src[..k], src[k..k + r]);
    }
  }

  lemma WithoutNone(own: Owners, i: nat)
    ensures Without(own, own, i, 0)
  {
  }

  lemma EmptiedSized(f: Image, g: Image, i: nat)
    requires Emptied(f, g, i) && i in g.inodes
    ensures Emptied(f, Sized(g, i, 0), i)
  {
    hide Addr;
    forall t ensures Addr(Sized(g, i, 0), t) == Addr(g, t) { SizedAddr(g, i, 0, t); }
  }

  /** Reading back what was written. */
  lemma ReadBack(f: Image, g: Image, i: nat, off: nat, s: seq<nat>, out: seq<nat>)
    requires Wrote(f, g, i, off, s) && IsSlice(g, i, off, out) && |out| == |s|
    ensures out == s
  {
    hide Byte, SameFile;
    assert Overlay(Content(f, i), off, s)[off..off + |s|] == s;
  }

  /** A read of at least as many bytes as were written there starts with them, whatever the file held
      before. */
  lemma ReadAfterWrite(f: Image, g: Image, i: nat, off: nat, s: seq<nat>, n: nat)
    requires Wrote(f, g, i, off, s) && n >= |s|
    ensures i in g.inodes && |Content(g, i)| == g.inodes[i].size && off + |s| <= g.inodes[i].size
    ensures var e := if off + n < g.inodes[i].size then off + n else g.inodes[i].size;
            off + |s| <= e && s <= Content(g, i)[off..e]
  {
    hide Byte, SameFile;
    OverlayAt(Content(f, i), off, s);
    assert |Content(g, i)| == g.inodes[i].size;
    assert Content(g, i)[off..off + |s|] == s;
  }

  /** Writing over a sequence, byte by byte. */
  lemma OverlayAt(c: seq<nat>, off: nat, s: seq<nat>)
    requires off <= |c|
    ensures var o := Overlay(c, off, s);
            && |o| == (if off + |s| > |c| then off + |s| else |c|)
            && forall k | 0 <= k < |o| :: o[k] == if off <= k < off + |s| then s[k - off] else c[k]
  {
  }
}
