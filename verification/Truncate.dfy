/** Taking blocks away from a file, as itrunc does. */
module Truncate {
  import opened Files

  /** Files other than i are as they were. */
  ghost predicate OthersKept(f: Image, g: Image, i: nat) {
    && SameSizes(f, g)
    && forall t: Slot | t.i != i && !t.Indirect? && Addr(f, t) != 0 :: Addr(g, t) == Addr(f, t)
         && BlockAt(g, Addr(f, t)) == BlockAt(f, Addr(f, t))
  }

  lemma OthersSelf(f: Image, i: nat)
    ensures OthersKept(f, f, i)
  {
  }

  lemma OthersTrans(f: Image, g: Image, h: Image, i: nat)
    requires OthersKept(f, g, i) && OthersKept(g, h, i)
    ensures OthersKept(f, h, i)
  {
    hide Addr, BlockAt;
    forall t: Slot | t.i != i && !t.Indirect? && Addr(f, t) != 0
      ensures Addr(h, t) == Addr(f, t) && BlockAt(h, Addr(f, t)) == BlockAt(f, Addr(f, t))
    {
      assert Addr(g, t) == Addr(f, t);
    }
    forall j | j in f.inodes ensures h.inodes[j].size == f.inodes[j].size { assert j in g.inodes.Keys; }
  }

  lemma OthersFile(f: Image, g: Image, i: nat, j: nat)
    requires OthersKept(f, g, i) && Whole(f, j) && j != i
    ensures SameFile(f, g, j) && Whole(g, j)
  {
    hide Addr, BlockAt, BytesOf;
    assert j in f.inodes.Keys <==> j in g.inodes.Keys;
    if j in f.inodes {
      forall k: nat | k < f.inodes[j].size ensures Byte(g, j, k) == Byte(f, j, k) {
        Below(k);
        assert FileSlot(j, k / BSIZE).i == j && !FileSlot(j, k / BSIZE).Indirect?;
      }
      forall bn: nat | bn * BSIZE < g.inodes[j].size ensures Addr(g, FileSlot(j, bn)) != 0 {
        assert FileSlot(j, bn).i == j && !FileSlot(j, bn).Indirect?;
      }
    }
  }

  // ----- a direct block

  /** The block of direct slot k of file i is freed. */
  function DropDirect(f: Image, i: nat, k: nat): Image
    requires i in f.inodes && k < NDIRECT && f.inodes[i].addrs[k] < |f.bitmap|
  {
    f.(bitmap := f.bitmap[f.inodes[i].addrs[k] := false],
       inodes := f.inodes[i := f.inodes[i].(addrs := f.inodes[i].addrs[k := 0])])
  }

  lemma DropDirectOk(f: Image, own: Owners, nmeta: nat, i: nat, k: nat)
    requires Owned(f, own, nmeta) && Marked(f, own, nmeta) && i in f.inodes && k < NDIRECT && f.inodes[i].addrs[k] != 0
    ensures var b := f.inodes[i].addrs[k]; b in own && b < |f.bitmap| && f.bitmap[b]
    ensures var g, own' := DropDirect(f, i, k), own - {f.inodes[i].addrs[k]};
            Owned(g, own', nmeta) && Marked(g, own', nmeta) && OthersKept(f, g, i)
    ensures forall t :: Addr(DropDirect(f, i, k), t) == if t == Direct(i, k) then 0 else Addr(f, t)
  {
    assert Addr(f, Direct(i, k)) == f.inodes[i].addrs[k];
    var g, own' := DropDirect(f, i, k), own - {f.inodes[i].addrs[k]};
    forall t ensures Addr(g, t) == if t == Direct(i, k) then 0 else Addr(f, t) {
    }
    DropOwned(f, own, nmeta, g, own', Direct(i, k));
  }

  lemma DropOwned(f: Image, own: Owners, nmeta: nat, g: Image, own': Owners, s: Slot)
    requires Owned(f, own, nmeta) && Marked(f, own, nmeta) && Addr(f, s) != 0
    requires own' == own - {Addr(f, s)} && Addr(f, s) < |f.bitmap| && g.bitmap == f.bitmap[Addr(f, s) := false]
    requires g.blocks == f.blocks && SameSizes(f, g)
    requires forall t :: Addr(g, t) == if t == s then 0 else Addr(f, t)
    ensures Owned(g, own', nmeta) && Marked(g, own', nmeta) && OthersKept(f, g, s.i)
  {
    hide Addr;
    assert forall b :: BlockAt(g, b) == BlockAt(f, b);
  }

  // ----- the indirect block

  /** Without the entries of file i below j. */
  ghost predicate Without(own: Owners, own': Owners, i: nat, j: nat) {
    && (forall b | b in own' :: b in own && own'[b] == own[b] && !(own[b].Entry? && own[b].i == i && own[b].j < j))
    && (forall b | b in own && !(own[b].Entry? && own[b].i == i && own[b].j < j) :: b in own')
  }

  /** Freeing entry j of the indirect block of file i. */
  lemma DropEntry(f: Image, own: Owners, nmeta: nat, bitmap: seq<bool>, own': Owners, i: nat, j: nat)
    requires Owned(f, own, nmeta) && Without(own, own', i, j) && |bitmap| == |f.bitmap|
    requires Marked(f.(bitmap := bitmap), own', nmeta)
    requires i in f.inodes && j < NINDIRECT
    ensures var b := Addr(f, Entry(i, j));
            if b == 0 then Without(own, own', i, j + 1)
            else
              && nmeta <= b < |bitmap| && bitmap[b] && b in own'
              && Without(own, own' - {b}, i, j + 1) && Marked(f.(bitmap := bitmap[b := false]), own' - {b}, nmeta)
  {
    hide Addr;
    var b := Addr(f, Entry(i, j));
    if b == 0 {
      assert forall c | c in own && own[c] == Entry(i, j) :: false;
    } else {
      assert own[b] == Entry(i, j);
      forall c | c in own' - {b} ensures !(own[c].Entry? && own[c].i == i && own[c].j < j + 1) {
        assert Addr(f, own[c]) == c;
      }
    }
  }

  function DropIndirect(f: Image, bitmap: seq<bool>, i: nat): Image
    requires i in f.inodes
  {
    f.(bitmap := bitmap, inodes := f.inodes[i := f.inodes[i].(addrs := f.inodes[i].addrs[NDIRECT := 0])])
  }

  lemma DropIndirectAddr(f: Image, bitmap: seq<bool>, i: nat, t: Slot)
    requires i in f.inodes
    ensures Addr(DropIndirect(f, bitmap, i), t) == if t.i == i && !t.Direct? then 0 else Addr(f, t)
  {
  }

  /** With its entries freed, the indirect block itself is freed. */
  lemma DropIndirectOk(f: Image, own: Owners, nmeta: nat, bitmap: seq<bool>, own': Owners, i: nat)
    requires Owned(f, own, nmeta) && Without(own, own', i, NINDIRECT) && |bitmap| == |f.bitmap|
    requires Marked(f.(bitmap := bitmap), own', nmeta)
    requires i in f.inodes && Addr(f, Indirect(i)) != 0
    ensures var d := Addr(f, Indirect(i));
            && d < |bitmap| && bitmap[d] && d in own'
            && (var g := DropIndirect(f, bitmap[d := false], i);
                Owned(g, own' - {d}, nmeta) && Marked(g, own' - {d}, nmeta) && OthersKept(f, g, i))
  {
    hide Addr;
    var d := Addr(f, Indirect(i));
    assert own[d] == Indirect(i);
    var g := DropIndirect(f, bitmap[d := false], i);
    forall t
      ensures Addr(g, t) == if t.i == i && !t.Direct? then 0 else Addr(f, t)
    {
      DropIndirectAddr(f, bitmap[d := false], i, t);
    }
    assert forall b :: BlockAt(g, b) == BlockAt(f, b);
    forall b | b in own' - {d} ensures Addr(g, own[b]) == b {
      if own[b].i == i && own[b].Entry? { EntryBound(f, own[b]); }
    }
  }

  lemma EntryBound(f: Image, s: Slot)
    requires s.Entry? && Addr(f, s) != 0
    ensures s.j < NINDIRECT
  {
  }

  // ----- the whole file

  /** File i has lost its first k direct blocks. */
  ghost predicate DirectsGone(f: Image, g: Image, i: nat, k: nat) {
    forall t: Slot :: Addr(g, t) == if t.Direct? && t.i == i && t.k < k then 0 else Addr(f, t)
  }

  lemma DirectsNone(f: Image, i: nat)
    ensures DirectsGone(f, f, i, 0)
  {
  }

  lemma DirectsNext(f: Image, g: Image, h: Image, i: nat, k: nat)
    requires DirectsGone(f, g, i, k) && forall t :: Addr(h, t) == if t == Direct(i, k) then 0 else Addr(g, t)
    ensures DirectsGone(f, h, i, k + 1)
  {
    hide Addr;
  }

  lemma DirectsSkip(f: Image, g: Image, i: nat, k: nat)
    requires DirectsGone(f, g, i, k) && i in g.inodes && k < NDIRECT && g.inodes[i].addrs[k] == 0
    ensures DirectsGone(f, g, i, k + 1)
  {
    assert Addr(g, Direct(i, k)) == 0;
  }

  /** File i holds no block; every other address is as before. */
  ghost predicate Emptied(f: Image, g: Image, i: nat) {
    forall t: Slot :: Addr(g, t) == if t.i == i then 0 else Addr(f, t)
  }

  lemma DirectBound(f: Image, t: Slot)
    requires t.Direct? && Addr(f, t) != 0
    ensures t.k < NDIRECT
  {
  }

  lemma NoIndirect(f: Image, g: Image, i: nat)
    requires DirectsGone(f, g, i, NDIRECT) && Addr(g, Indirect(i)) == 0
    ensures Emptied(f, g, i)
  {
    forall t: Slot ensures Addr(g, t) == if t.i == i then 0 else Addr(f, t) {
      if t.Direct? && Addr(f, t) != 0 { DirectBound(f, t); }
    }
  }

  lemma IndirectGone(f: Image, g: Image, bitmap: seq<bool>, i: nat)
    requires DirectsGone(f, g, i, NDIRECT) && i in g.inodes
    ensures Emptied(f, DropIndirect(g, bitmap, i), i)
  {
    hide Addr;
    var h := DropIndirect(g, bitmap, i);
    forall t: Slot ensures Addr(h, t) == if t.i == i then 0 else Addr(f, t) {
      DropIndirectAddr(g, bitmap, i, t);
      if t.Direct? && Addr(f, t) != 0 { DirectBound(f, t); }
    }
  }

  /** The bits cleared are those of the blocks of file i. */
  lemma FreedBits(f: Image, own: Owners, g: Image, own': Owners, nmeta: nat, i: nat, b: nat)
    requires Owned(f, own, nmeta) && Marked(f, own, nmeta) && Owned(g, own', nmeta) && Marked(g, own', nmeta)
    requires Emptied(f, g, i)
    requires b < |f.bitmap| == |g.bitmap|
    ensures g.bitmap[b] <==> f.bitmap[b] && !(b in own && own[b].i == i)
  {
    hide Addr;
    assert b in own ==> Addr(f, own[b]) == b;
    assert b in own' ==> Addr(g, own'[b]) == b && own'[b].i != i;
  }

  /** The size becomes zero. */
  lemma EmptyGood(f: Image, g: Image, own': Owners, nmeta: nat, i: nat)
    requires (forall j :: Whole(f, j)) && OthersKept(f, g, i) && Owned(g, own', nmeta) && Marked(g, own', nmeta)
    requires i in g.inodes
    ensures Good(Sized(g, i, 0), own', nmeta) && forall j | j != i :: SameFile(f, Sized(g, i, 0), j)
  {
    hide Addr, BytesOf, BlockAt, OthersKept, Byte;
    var h := Sized(g, i, 0);
    forall t ensures Addr(h, t) == Addr(g, t) { SizedAddr(g, i, 0, t); }
    assert forall b :: BlockAt(h, b) == BlockAt(g, b) by { SizedBlocks(g, i); }
    forall j | j != i ensures SameFile(f, h, j) && Whole(h, j) {
      OthersFile(f, g, i, j);
      forall k ensures Byte(h, j, k) == Byte(g, j, k) { SizedByte(g, i, 0, j, k); }
    }
  }

  lemma SizedBlocks(g: Image, i: nat)
    requires i in g.inodes
    ensures forall b :: BlockAt(Sized(g, i, 0), b) == BlockAt(g, b)
  {
  }
}
