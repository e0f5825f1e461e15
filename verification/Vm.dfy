/** The page allocator of kalloc.c and the page-table code of vm.c on top of it. */
module Vm {
  import opened Options
  import opened Sv39
  import opened Uvm
  import opened Teardown

  // ----- the free list

  /** Following next from head visits list. */
  ghost predicate Chain(head: Option<nat>, next: map<nat, Option<nat>>, list: seq<nat>)
    decreases |list|
  {
    if list == [] then head == None
    else head == Some(list[0]) && list[0] in next && Chain(next[list[0]], next, list[1..])
  }

  lemma {:induction false} ChainFrame(head: Option<nat>, next: map<nat, Option<nat>>, list: seq<nat>, p: nat,
                                      q: Option<nat>)
    requires Chain(head, next, list) && p !in list
    ensures Chain(head, next[p := q], list)
    decreases |list|
  {
    if list != [] {
      ChainFrame(next[list[0]], next, list[1..], p, q);
    }
  }

  /** The list holds each free page once and nothing else. */
  ghost predicate FreeIs(list: seq<nat>, own: Owners) {
    && (forall i, j | 0 <= i < j < |list| :: list[i] != list[j])
    && (forall p | p in list :: p in own && own[p] == Free)
    && (forall p | p in own && own[p] == Free :: p in list)
  }

  lemma FreePopped(list: seq<nat>, own: Owners, use: Use)
    requires FreeIs(list, own) && list != [] && use != Free
    ensures FreeIs(list[1..], own[list[0] := use])
  {
    forall p | p in own && own[p] == Free && p != list[0] ensures p in list[1..] {
      var i :| 0 <= i < |list| && list[i] == p;
      assert list[1..][i - 1] == p;
    }
  }

  lemma FreePushed(list: seq<nat>, own: Owners, p: nat)
    requires FreeIs(list, own) && p in own && own[p] != Free
    ensures FreeIs([p] + list, own[p := Free])
  {
  }

  lemma NothingFree()
    ensures Chain(None, map[], []) && FreeIs([], map[])
  {
  }

  lemma NewPage(list: seq<nat>, own: Owners, p: nat)
    requires FreeIs(list, own) && p !in own
    ensures FreeIs(list, own[p := Kernel])
  {
  }

  class Vm {
    var mem: Mem                     // page-table pages
    var data: map<nat, Content>      // user pages
    var freelist: Option<nat>
    var next: map<nat, Option<nat>>
    var nfree: nat
    var nalloc: nat

    ghost var list: seq<nat>
    ghost var own: Owners            // every page between end and PHYSTOP

    ghost predicate KmemOk()
      reads this
    {
      Chain(freelist, next, list) && FreeIs(list, own) && nfree == |list|
    }

    /** kinit and freerange: every page from lo to hi is free. */
    constructor (lo: nat, hi: nat)
      requires lo <= hi
      ensures KmemOk() && nfree == hi - lo && nalloc == 0
      ensures forall p: nat :: p in own <==> lo <= p < hi
      ensures forall p | p in own :: own[p] == Free
    {
      hide Chain, FreeIs;
      data := map[];
      mem, freelist, next, nfree, nalloc, list, own := map[], None, map[], 0, 0, [], map[];
      new;
      NothingFree();
      var p := lo;
      while p < hi
        invariant lo <= p <= hi && KmemOk() && nfree == p - lo && nalloc == 0
        invariant forall q: nat :: q in own <==> lo <= q < p
        invariant forall q | q in own :: own[q] == Free
      {
        NewPage(list, own, p);
        own := own[p := Kernel];
        Kfree(p);
        p := p + 1;
      }
    }

    method Kfree(p: nat)
      requires KmemOk() && p in own && own[p] != Free
      modifies `freelist, `next, `nfree, `list, `own
      ensures KmemOk() && list == [p] + old(list) && own == old(own)[p := Free] && nfree == old(nfree) + 1
    {
      FreePushed(list, own, p);
      ChainFrame(freelist, next, list, p, freelist);
      next := next[p := freelist];
      freelist := Some(p);
      nfree := nfree + 1;
      assert ([p] + list)[1..] == list;
      list := [p] + list;
      own := own[p := Free];
    }

    /** kalloc, for the given use. */
    method Kalloc(ghost use: Use) returns (r: Option<nat>)
      requires KmemOk() && use != Free
      modifies `freelist, `nfree, `nalloc, `list, `own
      ensures KmemOk() && (r == None <==> old(list) == [])
      ensures r == None ==> list == old(list) && own == old(own) && nfree == old(nfree) == 0 && nalloc == old(nalloc)
      ensures r.Some? ==>
                && old(list) != [] && r.value == old(list)[0] && list == old(list)[1..]
                && r.value in old(own) && old(own)[r.value] == Free && own == old(own)[r.value := use]
                && nfree == old(nfree) - 1 && nalloc == old(nalloc) + 1
    {
      r := freelist;
      if r.Some? {
        FreePopped(list, own, use);
        freelist := next[r.value];
        nfree := nfree - 1;
        nalloc := nalloc + 1;
        own := own[list[0] := use];
        list := list[1..];
      }
    }

    /** Give the interior page a new, zeroed page as its child i. */
    method AddTable(page: nat, i: nat, ghost s: Space, ghost n: Node) returns (p: Option<nat>, ghost t: Space)
      requires KmemOk() && SpaceOk(mem, own, s) && n in s.tree && s.tree[n] == page && !n.Low? && i < ENTRIES
      requires NodeOk(Child(n, i)) && Child(n, i) !in s.tree
      modifies `mem, `freelist, `nfree, `nalloc, `list, `own
      ensures KmemOk() && SpaceOk(mem, own, t) && t.id == s.id && t.root == s.root
      ensures p == None ==> nfree == old(nfree) == 0 && mem == old(mem) && own == old(own) && t == s
      ensures p.Some? ==> nfree == old(nfree) - 1
      ensures p.Some? ==> t == AddedSpace(s, n, i, p.value)
      ensures SameLook(old(mem), s, mem, t) && Frame(old(mem), old(own), mem, own, s.id)
      ensures Grows(old(own), own, s.id, {})
    {
      hide Linked, UserOwned, Clean, SameLook, Frame, Chain, FreeIs, Blank;
      p := Kalloc(Page(s.id, Child(n, i)));
      if p == None {
        SameLookSelf(mem, s);
        FrameSelf(mem, own, s.id);
        return None, s;
      }
      AddedOk(old(mem), old(own), s, n, i, p.value);
      PageKept(old(own), s, n, p.value);
      mem := mem[p.value := Blank(ENTRIES)];
      mem := mem[page := mem[page][i := TablePte(p.value)]];
      t := AddedSpace(s, n, i, p.value);
    }

    /** walk: the page that holds the entry of v, or None if it does not exist (and, when
        alloc is set, memory ran out). Only interior pages are added, never a translation. */
    method Walk(root: nat, v: Vpn, alloc: bool, ghost s: Space) returns (r: Option<nat>, ghost t: Space)
      requires KmemOk() && SpaceOk(mem, own, s) && root == s.root
      modifies `mem, `freelist, `nfree, `nalloc, `list, `own
      ensures KmemOk() && SpaceOk(mem, own, t) && t.id == s.id && t.root == s.root
      ensures SameLook(old(mem), s, mem, t) && Frame(old(mem), old(own), mem, own, s.id)
      ensures Grows(old(own), own, s.id, {})
      ensures r.Some? ==> NodeAt(0, v) in t.tree && r.value == t.tree[NodeAt(0, v)]
      ensures !alloc ==> t == s && (r == None <==> NodeAt(0, v) !in s.tree)
      ensures !alloc ==> mem == old(mem) && own == old(own) && list == old(list) && nfree == old(nfree)
      ensures alloc && r == None ==> old(nfree) <= 1
      ensures nfree + 2 >= old(nfree)
    {
      hide SpaceOk, KmemOk, Look, Px, NodeAt, SameLook, Frame, Grows;
      t := s;
      var page := root;
      var level := 2;
      SameLookSelf(mem, s);
      FrameSelf(mem, own, s.id);
      GrowsSelf(own, s.id);
      RootThere(mem, own, s);
      AtRoot(v);
      while level > 0
        invariant 0 <= level <= 2
        invariant KmemOk() && SpaceOk(mem, own, t)
        invariant SameLook(old(mem), s, mem, t) && Frame(old(mem), old(own), mem, own, s.id) && t.id == s.id
        invariant t.root == s.root
        invariant Grows(old(own), own, s.id, {})
        invariant NodeAt(level, v) in t.tree && page == t.tree[NodeAt(level, v)]
        invariant !alloc ==> t == s && mem == old(mem) && own == old(own) && list == old(list) && nfree == old(nfree)
        invariant nfree + 2 - level >= old(nfree)
      {
        NextLevel(level, v);
        ghost var n := NodeAt(level, v);
        var i := Px(level, v);
        InteriorEntry(mem, own, t, n, i);
        var pte := mem[page][i];
        if pte.v {
          page := pte.ppn;
        } else {
          if !alloc {
            NoLeafPage(mem, own, t, level, v);
            return None, t;
          }
          ghost var mem1, own1, t1 := mem, own, t;
          var p;
          p, t := AddTable(page, i, t, n);
          if p == None {
            return None, t;
          }
          SameLookTrans(old(mem), s, mem1, t1, mem, t);
          FrameTrans(old(mem), old(own), mem1, own1, mem, own, s.id);
          GrowsTrans(old(own), own1, own, s.id, {}, {}, {});
          page := p.value;
        }
        level := level - 1;
      }
      return Some(page), t;
    }

    /** One step of mappages: the entry of v, which must be unused, now maps page p. */
    method MapOne(root: nat, v: Vpn, p: nat, perm: Perm, ghost s: Space) returns (ok: bool, ghost t: Space)
      requires KmemOk() && SpaceOk(mem, own, s) && root == s.root && !Look(mem, s, v).v
      requires v < TRAPFRAME ==> p in own && own[p] == Hand(s.id)
      modifies `mem, `freelist, `nfree, `nalloc, `list, `own
      ensures KmemOk() && SpaceOk(mem, own, t) && t.id == s.id && t.root == s.root
      ensures Frame(old(mem), old(own), mem, own, s.id) && Grows(old(own), own, s.id, {p})
      ensures ok ==>
                && Changed(old(mem), s, mem, t, v, LeafPte(p, perm))
                && (v < TRAPFRAME ==> p in own && own[p] == User(s.id, v))
      ensures ok && v >= TRAPFRAME ==> Grows(old(own), own, s.id, {})
      ensures !ok ==> SameLook(old(mem), s, mem, t) && old(nfree) <= 1 && Grows(old(own), own, s.id, {})
      ensures nfree + 2 >= old(nfree)
    {
      hide Linked, UserOwned, Clean, Look, Px, SameLook, Changed, Frame, Chain, FreeIs, Grows, Placed;
      var r;
      r, t := Walk(root, v, true, s);
      GrowsMore(old(own), own, s.id, p);
      if r == None {
        return false, t;
      }
      ghost var mem1, own1 := mem, own;
      HandKept(old(own), own, s.id, p);
      LookKept(old(mem), s, mem, t, v);
      MapOk(mem, own, t, v, LeafPte(p, perm));
      MapOwnKept(list, own, t.id, v, p);
      LeafPageIn(mem, own, t, v);
      mem := SetEntry(mem, r.value, Px(0, v), LeafPte(p, perm));
      own := MapOwn(own, t.id, v, p);
      FrameTrans(old(mem), old(own), mem1, own1, mem, own, s.id);
      ghost var x := if v < TRAPFRAME then {p} else {};
      GrowsTrans(old(own), own1, own, s.id, {}, x, x);
      GrowsTrans(old(own), own1, own, s.id, {}, x, {p});
      SameThenChanged(old(mem), s, mem1, t, mem, t, v, LeafPte(p, perm));
      return true, t;
    }

    /** mappages: map n pages from v to the pages from p on. k of them are mapped when memory
        for page-table pages runs out. */
    method Mappages(root: nat, v: Vpn, n: nat, p: nat, perm: Perm, ghost s: Space)
      returns (ok: bool, ghost t: Space, ghost k: nat)
      requires KmemOk() && SpaceOk(mem, own, s) && root == s.root && 1 <= n && v + n <= MAXVPN
      requires forall w: Vpn | v <= w < v + n :: !Look(mem, s, w).v
      requires Hands(own, s.id, v, 0, n, p)
      modifies `mem, `freelist, `nfree, `nalloc, `list, `own
      ensures KmemOk() && SpaceOk(mem, own, t) && t.id == s.id && t.root == s.root
      ensures Frame(old(mem), old(own), mem, own, s.id)
      ensures k <= n && (ok <==> k == n) && RangeMapped(old(mem), s, mem, t, v, k, p, perm)
      ensures Grows(old(own), own, s.id, From(p, k))
      ensures Hands(own, s.id, v, k, n, p)
      ensures v >= TRAPFRAME ==> Grows(old(own), own, s.id, {})
      ensures nfree + 2 * n >= old(nfree) && (!ok ==> old(nfree) < 2 * n)
    {
      hide SpaceOk, Look, Frame, Chain, FreeIs, RangeMapped, Changed, SameLook, Grows, Hands;
      t, k := s, 0;
      FrameSelf(mem, own, s.id);
      GrowsSelf(own, s.id);
      RangeStart(mem, s, v, p, perm);
      assert From(p, 0) == {};
      ok := true;
      var i := 0;
      while i < n
        invariant k == i <= n
        invariant KmemOk() && SpaceOk(mem, own, t) && Frame(old(mem), old(own), mem, own, s.id) && t.id == s.id
        invariant t.root == s.root
        invariant RangeMapped(old(mem), s, mem, t, v, k, p, perm)
        invariant Grows(old(own), own, s.id, From(p, k)) && Hands(own, s.id, v, k, n, p)
        invariant v >= TRAPFRAME ==> Grows(old(own), own, s.id, {})
        invariant nfree + 2 * k >= old(nfree)
      {
        ghost var mem1, own1, t1 := mem, own, t;
        RangeOutside(old(mem), s, mem, t, v, k, p, perm, v + i);
        HandAt(own, s.id, v, k, n, p);
        ok, t := MapOne(root, v + i, p + i, perm, t);
        FrameTrans(old(mem), old(own), mem1, own1, mem, own, s.id);
        HandsKept(own1, own, s.id, v, k, n, p, ok);
        if v >= TRAPFRAME { GrowsTrans(old(own), own1, own, s.id, {}, {}, {}); }
        if !ok {
          GrowsTrans(old(own), own1, own, s.id, From(p, k), {}, From(p, k));
          RangeThenSame(old(mem), s, mem1, t1, mem, t, v, k, p, perm);
          return;
        }
        GrowsTrans(old(own), own1, own, s.id, From(p, k), {p + k}, From(p, k + 1));
        RangeThenChanged(old(mem), s, mem1, t1, mem, t, v, k, p, perm);
        i := i + 1;
        k := k + 1;
      }
    }

    /** One step of uvmunmap: the entry of v becomes zero, and a user page is freed. */
    method UnmapOne(root: nat, v: Vpn, doFree: bool, ghost s: Space)
      requires KmemOk() && SpaceOk(mem, own, s) && root == s.root && (doFree <==> v < TRAPFRAME)
      modifies `mem, `freelist, `next, `nfree, `nalloc, `list, `own
      ensures KmemOk() && SpaceOk(mem, own, s)
      ensures Changed(old(mem), s, mem, s, v, NOPTE) && Frame(old(mem), old(own), mem, own, s.id)
      ensures Shrinks(old(own), own, s.id)
      ensures nfree == old(nfree) + if doFree && Look(old(mem), s, v).v then 1 else 0
    {
      hide Linked, UserOwned, Clean, Placed, Look, Px, Changed, Frame, Chain, FreeIs, SameLook, Grows;
      FrameSelf(mem, own, s.id);
      var r;
      ghost var t;
      r, t := Walk(root, v, false, s);
      if r == None {
        NoPageNoEntry(mem, s, v);
        ChangedToSame(mem, s, v);
        return;
      }
      LeafPageIn(mem, own, s, v);
      var pte := mem[r.value][Px(0, v)];
      if !pte.v {
        ChangedToSame(mem, s, v);
        return;
      }
      UnmapOk(mem, own, s, v);
      ghost var own1 := UnmapOwn(own, s.id, v, pte.ppn);
      if doFree {
        UserLeaf(mem, own, s, v);
        Kfree(pte.ppn);
      }
      mem := SetEntry(mem, r.value, Px(0, v), NOPTE);
      if doFree {
        Repurposed(mem, own1, s, pte.ppn, Free);
        FrameHand(mem, own1, pte.ppn, s.id);
        assert own1[pte.ppn := Free] == own;
        FrameTrans(old(mem), old(own), mem, own1, mem, own, s.id);
      }
    }

    /** uvmunmap: unmap n pages from v on; pages that are not mapped are skipped. */
    method Uvmunmap(root: nat, v: nat, n: nat, doFree: bool, ghost s: Space)
      requires KmemOk() && SpaceOk(mem, own, s) && root == s.root && v + n <= MAXVPN
      requires if doFree then v + n <= TRAPFRAME else v >= TRAPFRAME
      modifies `mem, `freelist, `next, `nfree, `nalloc, `list, `own
      ensures KmemOk() && SpaceOk(mem, own, s)
      ensures Cleared(old(mem), s, mem, s, v, n) && Frame(old(mem), old(own), mem, own, s.id)
      ensures Shrinks(old(own), own, s.id)
      ensures nfree == old(nfree) + if doFree then |MappedIn(old(mem), s, v, n)| else 0
    {
      hide SpaceOk, Look, Changed, Cleared, Frame, Shrinks, Chain, FreeIs, MappedIn;
      MappedNone(mem, s, v);
      FrameSelf(mem, own, s.id);
      ClearedNone(mem, s, v);
      ShrinksSelf(own, s.id);
      for k := 0 to n
        invariant KmemOk() && SpaceOk(mem, own, s)
        invariant Cleared(old(mem), s, mem, s, v, k) && Frame(old(mem), old(own), mem, own, s.id)
        invariant Shrinks(old(own), own, s.id)
        invariant nfree == old(nfree) + if doFree then |MappedIn(old(mem), s, v, k)| else 0
      {
        ghost var mem1, own1 := mem, own;
        MappedNext(old(mem), s, v, k);
        ClearedAt(old(mem), s, mem, s, v, k, v + k);
        UnmapOne(root, v + k, doFree, s);
        ClearedNext(old(mem), s, mem1, s, mem, s, v, k);
        FrameTrans(old(mem), old(own), mem1, own1, mem, own, s.id);
        ShrinksTrans(old(own), own1, own, s.id);
      }
    }

    /** Allocate a page, fill it and map it at v; if that fails nothing is mapped and the page
        is freed again. */
    method AllocMap(root: nat, v: Vpn, content: Content, perm: Perm, ghost s: Space)
      returns (r: Option<nat>, ghost t: Space)
      requires KmemOk() && Sound(mem, own, s) && root == s.root && v < TRAPFRAME && !Look(mem, s, v).v
      modifies `mem, `data, `freelist, `next, `nfree, `nalloc, `list, `own
      ensures KmemOk() && Sound(mem, own, t) && t.id == s.id && t.root == s.root
      ensures Frame(old(mem), old(own), mem, own, s.id)
      ensures r == None ==> SameLook(old(mem), s, mem, t)
      ensures Uses(old(own), own) && DataKept(old(own), old(data), data)
      ensures nfree + 3 >= old(nfree) && (r == None ==> old(nfree) <= 2)
      ensures r.Some? ==> r.value in old(own) && old(own)[r.value] == Free
      ensures r.Some? ==>
                Changed(old(mem), s, mem, t, v, LeafPte(r.value, perm)) && data == old(data)[r.value := content]
    {
      hide SpaceOk, Look, Frame, Chain, FreeIs, RangeMapped, Changed, SameLook, Grows, NoHand, Px;
      r := Kalloc(Hand(s.id));
      if r == None {
        SameLookSelf(mem, s);
        FrameSelf(mem, own, s.id);
        return None, s;
      }
      var p := r.value;
      Repurposed(mem, old(own), s, p, Hand(s.id));
      FrameHand(mem, old(own), p, s.id);
      ghost var mem1, own1 := mem, own;
      data := data[p := content];
      var ok;
      ghost var k;
      ok, t, k := Mappages(root, v, 1, p, perm, s);
      FrameTrans(old(mem), old(own), mem1, own1, mem, own, s.id);
      RangeOne(mem1, s, mem, t, v, k, p, perm);
      assert From(p, 1) == {p} && From(p, 0) == {};
      if ok {
        ChangedAt(mem1, s, mem, t, v, LeafPte(p, perm));
        UserLeaf(mem, own, t, v);
        HandMapped(old(own), own, s.id, p);
        HandUses(old(own), own, s.id, p);
        return;
      }
      HandAt(own, s.id, v, 0, 1, p);
      Repurposed(mem, own, t, p, Free);
      FrameHand(mem, own, p, s.id);
      HandReturned(old(own), own, s.id, p);
      GrowsMore(old(own)[p := Hand(s.id)], own, s.id, p);
      HandUses(old(own), own, s.id, p);
      ghost var own2 := own;
      Kfree(p);
      FrameTrans(old(mem), old(own), mem, own2, mem, own, s.id);
      r := None;
    }

    /** ismapped */
    method Ismapped(root: nat, v: Vpn, ghost s: Space) returns (b: bool)
      requires KmemOk() && Sound(mem, own, s) && root == s.root
      modifies `mem, `freelist, `nfree, `nalloc, `list, `own
      ensures KmemOk() && mem == old(mem) && own == old(own) && list == old(list) && nfree == old(nfree)
      ensures b == Look(mem, s, v).v
    {
      hide Linked, UserOwned, Clean, Placed, Look, Px, Frame, Chain, FreeIs, SameLook, Grows;
      var r;
      ghost var t;
      r, t := Walk(root, v, false, s);
      if r == None {
        NoPageNoEntry(mem, s, v);
        return false;
      }
      LeafPageIn(mem, own, s, v);
      return mem[r.value][Px(0, v)].v;
    }

    /** uvmdealloc: bring the size from oldsz to newsz by unmapping and freeing the pages above. */
    method Uvmdealloc(root: nat, oldsz: nat, newsz: nat, ghost s: Space) returns (r: nat)
      requires KmemOk() && Sound(mem, own, s) && root == s.root && Pages(oldsz) <= TRAPFRAME
      modifies `mem, `freelist, `next, `nfree, `nalloc, `list, `own
      ensures KmemOk() && Sound(mem, own, s) && Frame(old(mem), old(own), mem, own, s.id)
      ensures r == if newsz >= oldsz then oldsz else newsz
      ensures Cleared(old(mem), s, mem, s, Pages(r), Pages(oldsz) - Pages(r))
      ensures nfree == old(nfree) + |MappedIn(old(mem), s, Pages(r), Pages(oldsz) - Pages(r))|
    {
      hide SpaceOk, Look, Frame, Cleared, Shrinks, NoHand, Chain, FreeIs, MappedIn;
      MappedNone(mem, s, Pages(oldsz));
      if newsz < oldsz { PagesMono(newsz, oldsz); }
      ClearedNone(mem, s, Pages(oldsz));
      ClearedNone(mem, s, Pages(newsz));
      FrameSelf(mem, own, s.id);
      if newsz >= oldsz {
        return oldsz;
      }
      if Pages(newsz) < Pages(oldsz) {
        ghost var own1 := own;
        Uvmunmap(root, Pages(newsz), Pages(oldsz) - Pages(newsz), true, s);
        ShrinksNoHand(own1, own, s.id);
      }
      return newsz;
    }

    /** uvmalloc: grow from oldsz to newsz with zeroed pages, or change nothing and return 0. */
    method Uvmalloc(root: nat, oldsz: nat, newsz: nat, perm: Perm, ghost s: Space) returns (r: nat, ghost t: Space)
      requires KmemOk() && Sound(mem, own, s) && root == s.root && Pages(newsz) <= TRAPFRAME
      requires forall w: Vpn | Pages(oldsz) <= w < Pages(newsz) :: !Look(mem, s, w).v
      modifies `mem, `data, `freelist, `next, `nfree, `nalloc, `list, `own
      ensures KmemOk() && Sound(mem, own, t) && t.id == s.id && t.root == s.root
      ensures Frame(old(mem), old(own), mem, own, s.id)
      ensures r == newsz || (newsz < oldsz && r == oldsz) || r == 0
      ensures newsz < oldsz ==> r == oldsz && t == s && mem == old(mem) && own == old(own) && data == old(data)
      ensures oldsz <= newsz && r != 0 ==> Grown(old(mem), s, mem, t, data, Pages(oldsz), Pages(newsz) - Pages(oldsz),
                perm)
      ensures oldsz <= newsz && r == 0 ==> newsz == 0 || SameLook(old(mem), s, mem, t)
      ensures DataKept(old(own), old(data), data)
      ensures oldsz <= newsz && r == 0 ==> newsz == 0 || old(nfree) < 3 * (Pages(newsz) - Pages(oldsz))
    {
      hide SpaceOk, Uses, DataKept, Pages, Look, Frame, Cleared, NoHand, Chain, FreeIs, Changed, Grown, SameLook;
      t := s;
      FrameSelf(mem, own, s.id);
      KeptSelf(own, data);
      if newsz < oldsz {
        return oldsz, s;
      }
      var v := Pages(oldsz);
      PagesMono(oldsz, newsz);
      GrownNone(mem, s, data, v, perm);
      var a := v;
      while a < Pages(newsz)
        invariant v <= a <= Pages(newsz)
        invariant KmemOk() && Sound(mem, own, t) && t.id == s.id && t.root == s.root
        invariant Frame(old(mem), old(own), mem, own, s.id)
        invariant Grown(old(mem), s, mem, t, data, v, a - v, perm) && nfree + 3 * (a - v) >= old(nfree)
        invariant Uses(old(own), own) && DataKept(old(own), old(data), data)
      {
        ghost var mem1, own1, t1, data1 := mem, own, t, data;
        GrownOutside(old(mem), s, mem, t, data, v, a - v, perm, a);
        var p;
        p, t := AllocMap(root, a, ZEROED, perm, t);
        FrameTrans(old(mem), old(own), mem1, own1, mem, own, s.id);
        UsesTrans(old(own), own1, own);
        DataKeptTrans(old(own), own1, old(data), data1, data);
        if p == None {
          UserOwnedOf(mem1, own1, t1);
          GrownThenSame(old(mem), s, mem1, own1, t1, data1, mem, t, data, v, a - v, perm);
          ghost var mem2, own2 := mem, own;
          PagesExact(a);
          PagesExact(v);
          var n := Uvmdealloc(root, a * PGSIZE, v * PGSIZE, t);
          FrameTrans(old(mem), old(own), mem2, own2, mem, own, s.id);
          CleanOf(old(mem), old(own), s);
          GrownCleared(old(mem), old(own), s, mem2, t, mem, t, data, v, a - v, perm);
          return 0, t;
        }
        GrownStep(old(mem), s, mem1, own1, t1, data1, mem, t, v, a - v, p.value, perm);
        a := a + 1;
      }
      return newsz, t;
    }

    /** One step of uvmcopy: if the parent maps v, the child gets a copy of the page there. */
    method CopyOne(src: nat, dst: nat, v: Vpn, ghost s: Space, ghost c: Space) returns (ok: bool, ghost t: Space)
      requires KmemOk() && Sound(mem, own, s) && Sound(mem, own, c) && src == s.root && dst == c.root && s.id != c.id
      requires v < TRAPFRAME && !Look(mem, c, v).v
      modifies `mem, `data, `freelist, `next, `nfree, `nalloc, `list, `own
      ensures KmemOk() && Sound(mem, own, t) && Sound(mem, own, s) && t.id == c.id && t.root == c.root
      ensures Frame(old(mem), old(own), mem, own, c.id) && SameLook(old(mem), s, mem, s)
      ensures Uses(old(own), own) && DataKept(old(own), old(data), data)
      ensures !ok ==> SameLook(old(mem), c, mem, t)
      ensures nfree + 3 >= old(nfree) && (!ok ==> old(nfree) <= 2)
      ensures ok ==> CopiedAt(mem, s, t, data, v) && ChangedElse(old(mem), c, mem, t, v)
    {
      hide SpaceOk, Look, Frame, Chain, FreeIs, Changed, SameLook, NoHand, Px, Uses, DataKept;
      var r;
      ghost var t0;
      t := c;
      FrameSelf(mem, own, c.id);
      KeptSelf(own, data);
      SameLookSelf(mem, s);
      SameLookSelf(mem, c);
      r, t0 := Walk(src, v, false, s);
      CleanOf(mem, own, c);
      CleanAt(mem, c, v);
      if r == None {
        NoPageNoEntry(mem, s, v);
        return true, c;
      }
      LeafPageIn(mem, own, s, v);
      var pte := mem[r.value][Px(0, v)];
      if !pte.v {
        return true, c;
      }
      UserLeaf(mem, own, s, v);
      ghost var data1 := data;
      var p;
      p, t := AllocMap(dst, v, At(data, pte.ppn), Perm(pte.r, pte.w, pte.x, pte.u), c);
      FrameSound(old(mem), old(own), mem, own, c.id, s);
      if p == None {
        return false, t;
      }
      CopyMade(old(mem), old(own), s, c, mem, t, data1, v, p.value);
      return true, t;
    }

    /** uvmcopy: the child gets a copy of each page below sz that the parent maps, or, when memory
        runs out, nothing. The parent and every other space stay as they are. */
    method Uvmcopy(src: nat, dst: nat, sz: nat, ghost s: Space, ghost c: Space) returns (ok: bool, ghost t: Space)
      requires KmemOk() && Sound(mem, own, s) && Sound(mem, own, c) && src == s.root && dst == c.root && s.id != c.id
      requires Pages(sz) <= TRAPFRAME && forall w: Vpn | w < Pages(sz) :: !Look(mem, c, w).v
      modifies `mem, `data, `freelist, `next, `nfree, `nalloc, `list, `own
      ensures KmemOk() && Sound(mem, own, t) && Sound(mem, own, s) && t.id == c.id && t.root == c.root
      ensures Frame(old(mem), old(own), mem, own, c.id) && SameLook(old(mem), s, mem, s)
      ensures DataKept(old(own), old(data), data)
      ensures ok ==> Copied(old(mem), s, c, mem, t, data, Pages(sz))
      ensures !ok ==> SameLook(old(mem), c, mem, t) && old(nfree) < 3 * Pages(sz)
    {
      hide SpaceOk, Look, Frame, Chain, FreeIs, SameLook, NoHand, Uses, DataKept, Copied, CopiedAt, ChangedElse;
      hide Pages, Cleared, Shrinks;
      t := c;
      FrameSelf(mem, own, c.id);
      KeptSelf(own, data);
      SameLookSelf(mem, s);
      CopiedNone(mem, s, c, data);
      var i := 0;
      while i < Pages(sz)
        invariant 0 <= i <= Pages(sz)
        invariant KmemOk() && Sound(mem, own, t) && Sound(mem, own, s) && t.id == c.id && t.root == c.root
        invariant Frame(old(mem), old(own), mem, own, c.id) && SameLook(old(mem), s, mem, s)
        invariant Uses(old(own), own) && DataKept(old(own), old(data), data)
        invariant Copied(old(mem), s, c, mem, t, data, i) && nfree + 3 * i >= old(nfree)
      {
        ghost var mem1, own1, t1, data1 := mem, own, t, data;
        CopiedBeyond(old(mem), s, c, mem, t, data, i);
        ok, t := CopyOne(src, dst, i, s, t);
        FrameTrans(old(mem), old(own), mem1, own1, mem, own, c.id);
        SameLookTrans(old(mem), s, mem1, s, mem, s);
        UsesTrans(old(own), own1, own);
        DataKeptTrans(old(own), own1, old(data), data1, data);
        if !ok {
          ghost var mem2, own2 := mem, own;
          Uvmunmap(dst, 0, i, true, t);
          FrameTrans(old(mem), old(own), mem2, own2, mem, own, c.id);
          ShrinksNoHand(own2, own, c.id);
          FrameSound(old(mem), old(own), mem, own, c.id, s);
          CleanOf(old(mem), old(own), c);
          CopiedCleared(old(mem), s, c, mem1, t1, data1, mem2, t, mem, i);
          return false, t;
        }
        CopiedNext(old(mem), s, c, mem1, own1, t1, data1, mem, t, data, i);
        i := i + 1;
      }
      return true, t;
    }

    /** freewalk: free the page-table page and every one below it. Its panic on a leaf entry
        cannot happen. */
    method Freewalk(page: nat, ghost s: Space, ghost n: Node)
      requires KmemOk() && Sub(mem, own, s, n) && page == s.tree[n]
      modifies `mem, `freelist, `next, `nfree, `list, `own
      ensures KmemOk() && Freed(old(mem), old(own), mem, own, s, n) && mem.Keys == old(mem).Keys
      decreases Depth(n)
    {
      hide Chain, FreeIs, Sub, FreedTo, Freed, EntriesOk, Below, Under;
      FreedNone(mem, own, s, n);
      var i := 0;
      while i < ENTRIES
        invariant 0 <= i <= ENTRIES && n in s.tree
        invariant KmemOk() && FreedTo(old(mem), old(own), mem, own, s, n, i) && mem.Keys == old(mem).Keys
      {
        EntryAt(old(mem), old(own), mem, own, s, n, i);
        var pte := mem[page][i];
        if pte.v && !IsLeaf(pte) {
          ghost var mem1, own1 := mem, own;
          SubChild(old(mem), old(own), mem, own, s, n, i);
          Freewalk(pte.ppn, s, Child(n, i));
          FreedNext(old(mem), old(own), mem1, own1, mem, own, s, n, i);
          mem := SetEntry(mem, page, i, NOPTE);
        } else {
          assert !pte.v;
          FreedSkip(old(mem), old(own), mem, own, s, n, i);
        }
        i := i + 1;
      }
      FreedDone(old(mem), old(own), mem, own, s, n);
      Kfree(page);
    }

    /** uvmfree: unmap and free the user pages below sz, then free the page table. */
    method Uvmfree(root: nat, sz: nat, ghost s: Space)
      requires KmemOk() && Sound(mem, own, s) && root == s.root && Pages(sz) <= TRAPFRAME && UserOnly(mem, s, Pages(sz))
      modifies `mem, `freelist, `next, `nfree, `nalloc, `list, `own
      ensures KmemOk() && Gone(old(own), own, s.id) && Frame(old(mem), old(own), mem, own, s.id)
    {
      hide SpaceOk, Look, Frame, Cleared, NoHand, Chain, FreeIs, Shrinks, Empty, Gone, Freed, Sub, UserOnly;
      ClearedNone(mem, s, 0);
      FrameSelf(mem, own, s.id);
      ShrinksSelf(own, s.id);
      if sz > 0 {
        Uvmunmap(root, 0, Pages(sz), true, s);
      }
      ghost var mem1, own1 := mem, own;
      ShrinksNoHand(old(own), own, s.id);
      ClearedEmpty(old(mem), s, mem, Pages(sz));
      EmptySub(mem, own, s);
      RootAt(mem, own, s);
      Freewalk(root, s, Root);
      EmptyGone(old(mem), old(own), s, mem1, own1, mem, own);
      FreedFrame(mem1, own1, mem, own, s);
      FrameTrans(old(mem), old(own), mem1, own1, mem, own, s.id);
    }

    /** uvmcreate: an empty page table. */
    method Uvmcreate(ghost id: nat) returns (r: Option<nat>, ghost s: Space)
      requires KmemOk() && Fresh(own, id)
      modifies `mem, `freelist, `nfree, `nalloc, `list, `own
      ensures KmemOk() && Frame(old(mem), old(own), mem, own, id)
      ensures nfree + 1 >= old(nfree)
      ensures r == None ==> own == old(own) && old(nfree) == 0
      ensures r.Some? ==> Sound(mem, own, s) && s.root == r.value && s.id == id && Empty(mem, s)
    {
      hide Chain, FreeIs, SpaceOk, NoHand, Empty, Frame;
      r := Kalloc(Page(id, Root));
      FrameSelf(mem, own, id);
      if r.Some? {
        NewRoot(mem, old(own), id, r.value);
        mem := mem[r.value := Blank(ENTRIES)];
        s := RootSpace(id, r.value);
      } else {
        s := RootSpace(id, 0);
      }
    }

    /** proc_pagetable: a page table with the trampoline and the trapframe, or nothing at all. */
    method ProcPagetable(trampoline: nat, trapframe: nat, ghost id: nat) returns (r: Option<nat>, ghost s: Space)
      requires KmemOk() && Fresh(own, id)
      modifies `mem, `freelist, `next, `nfree, `nalloc, `list, `own
      ensures KmemOk() && Frame(old(mem), old(own), mem, own, id)
      ensures r == None ==> own == old(own) && old(nfree) < 5
      ensures r.Some? ==> nfree + 5 >= old(nfree)
      ensures r.Some? ==>
                Sound(mem, own, s) && s.id == id && s.root == r.value && Layout(mem, s, 0, trampoline, trapframe)
    {
      hide Chain, FreeIs, SpaceOk, NoHand, Empty, Frame, Look, Grows, RangeMapped, UserOnly, Gone, Fresh, Changed;
      hide SameLook, Cleared, Shrinks, Layout;
      r, s := Uvmcreate(id);
      if r == None {
        return None, s;
      }
      var root := r.value;
      ghost var mem1, own1, s1 := mem, own, s;
      EmptyAt(mem, s);
      var ok;
      ghost var k;
      ok, s, k := Mappages(root, TRAMPOLINE, 1, trampoline, Perm(true, false, true, false), s);
      FrameTrans(old(mem), old(own), mem1, own1, mem, own, id);
      GrowsNoHand(own1, own, id);
      RangeOne(mem1, s1, mem, s, TRAMPOLINE, k, trampoline, Perm(true, false, true, false));
      ghost var mem2, own2, s2 := mem, own, s;
      if !ok {
        SameEmpty(mem1, s1, mem, s);
        Uvmfree(root, 0, s);
        FrameTrans(old(mem), old(own), mem2, own2, mem, own, id);
        FreshGone(old(mem), old(own), mem2, own2, own, id);
        return None, s;
      }
      OnlyTrampoline(mem1, s1, mem, s, LeafPte(trampoline, Perm(true, false, true, false)));
      ok, s, k := Mappages(root, TRAPFRAME, 1, trapframe, Perm(true, true, false, false), s);
      FrameTrans(old(mem), old(own), mem2, own2, mem, own, id);
      GrowsNoHand(own2, own, id);
      RangeOne(mem2, s2, mem, s, TRAPFRAME, k, trapframe, Perm(true, true, false, false));
      if !ok {
        ghost var mem3, own3 := mem, own;
        Uvmunmap(root, TRAMPOLINE, 1, false, s);
        FrameTrans(old(mem), old(own), mem3, own3, mem, own, id);
        ShrinksNoHand(own3, own, id);
        TrampolineCleared(mem1, s1, mem2, s2, mem3, s, mem, LeafPte(trampoline, Perm(true, false, true, false)));
        ghost var mem4, own4 := mem, own;
        Uvmfree(root, 0, s);
        FrameTrans(old(mem), old(own), mem4, own4, mem, own, id);
        FreshGone(old(mem), old(own), mem4, own4, own, id);
        return None, s;
      }
      NewLayout(mem1, s1, mem2, s2, mem, s, trampoline, trapframe);
      return Some(root), s;
    }

    /** proc_freepagetable: the page table and every user page are free again. */
    method ProcFreepagetable(root: nat, sz: nat, ghost s: Space, ghost trampoline: nat, ghost trapframe: nat)
      requires KmemOk() && Sound(mem, own, s) && root == s.root && Layout(mem, s, Pages(sz), trampoline, trapframe)
      modifies `mem, `freelist, `next, `nfree, `nalloc, `list, `own
      ensures KmemOk() && Gone(old(own), own, s.id) && Frame(old(mem), old(own), mem, own, s.id)
    {
      hide SpaceOk, Look, Frame, Cleared, NoHand, Chain, FreeIs, Shrinks, Gone, UserOnly, Pages, Layout;
      Uvmunmap(root, TRAMPOLINE, 1, false, s);
      ghost var mem1, own1 := mem, own;
      Uvmunmap(root, TRAPFRAME, 1, false, s);
      ghost var mem2, own2 := mem, own;
      FrameTrans(old(mem), old(own), mem1, own1, mem, own, s.id);
      ShrinksTrans(old(own), own1, own, s.id);
      ShrinksNoHand(old(own), own, s.id);
      LayoutCleared(old(mem), s, mem1, mem, Pages(sz), trampoline, trapframe);
      Uvmfree(root, sz, s);
      FrameTrans(old(mem), old(own), mem2, own2, mem, own, s.id);
      ShrinksGone(old(own), own2, own, s.id);
    }
  }

  lemma PageKept(own: Owners, s: Space, n: Node, p: nat)
    requires n in s.tree && s.tree[n] in own && own[s.tree[n]] == Page(s.id, n) && p in own && own[p] == Free
    ensures s.tree[n] != p
  {
  }

  lemma GrowsSelf(own: Owners, id: nat)
    ensures Grows(own, own, id, {})
  {
  }

  lemma AtRoot(v: Vpn)
    ensures NodeAt(2, v) == Root
  {
  }

  lemma RootThere(mem: Mem, own: Owners, s: Space)
    requires SpaceOk(mem, own, s)
    ensures Root in s.tree && s.tree[Root] == s.root
  {
    hide Linked, UserOwned, Clean;
  }

  lemma InteriorEntry(mem: Mem, own: Owners, s: Space, n: Node, i: nat)
    requires SpaceOk(mem, own, s) && n in s.tree && !n.Low? && i < ENTRIES
    ensures s.tree[n] in mem
    ensures mem[s.tree[n]][i] == if Child(n, i) in s.tree then TablePte(s.tree[Child(n, i)]) else NOPTE
  {
  }

  /** A missing interior page means a missing leaf page. */
  lemma NoLeafPage(mem: Mem, own: Owners, s: Space, level: nat, v: Vpn)
    requires SpaceOk(mem, own, s) && 1 <= level <= 2 && NodeAt(level - 1, v) !in s.tree
    ensures NodeAt(0, v) !in s.tree
  {
    hide Px, Linked, UserOwned, Clean;
    assert Parent(NodeAt(0, v)) == NodeAt(1, v);
  }

  lemma GrowsMore(own: Owners, own': Owners, id: nat, p: nat)
    requires Grows(own, own', id, {})
    ensures Grows(own, own', id, {p})
  {
  }

  lemma HandKept(own: Owners, own': Owners, id: nat, p: nat)
    requires Grows(own, own', id, {})
    ensures p in own && own[p] == Hand(id) ==> p in own' && own'[p] == Hand(id)
  {
    assert p in own.Keys ==> p in own'.Keys;
  }

  lemma MapOwnKept(list: seq<nat>, own: Owners, id: nat, v: Vpn, p: nat)
    requires FreeIs(list, own) && (v < TRAPFRAME ==> p in own && own[p] == Hand(id))
    ensures FreeIs(list, MapOwn(own, id, v, p))
    ensures Grows(own, MapOwn(own, id, v, p), id, if v < TRAPFRAME then {p} else {})
  {
  }

  lemma LeafPageIn(mem: Mem, own: Owners, s: Space, v: Vpn)
    requires SpaceOk(mem, own, s) && NodeAt(0, v) in s.tree
    ensures s.tree[NodeAt(0, v)] in mem
    ensures Look(mem, s, v) == mem[s.tree[NodeAt(0, v)]][Px(0, v)]
  {
    hide Px;
  }

  /** The k pages from p on. */
  ghost function From(p: nat, k: nat): (s: set<nat>)
    ensures forall q :: q in s <==> p <= q < p + k
  {
    if k == 0 then {} else From(p, k - 1) + {p + k - 1}
  }

  /** Of the pages from p on, those from number k to n that user pages need are at hand. */
  ghost predicate Hands(own: Owners, id: nat, v: nat, k: nat, n: nat, p: nat) {
    forall q | p + k <= q < p + n && v + (q - p) < TRAPFRAME :: q in own && own[q] == Hand(id)
  }

  lemma HandAt(own: Owners, id: nat, v: nat, k: nat, n: nat, p: nat)
    requires Hands(own, id, v, k, n, p) && k < n
    ensures v + k < TRAPFRAME ==> p + k in own && own[p + k] == Hand(id)
  {
  }

  lemma HandsKept(own: Owners, own': Owners, id: nat, v: nat, k: nat, n: nat, p: nat, ok: bool)
    requires Hands(own, id, v, k, n, p) && k < n && Grows(own, own', id, if ok then {p + k} else {})
    ensures Hands(own', id, v, if ok then k + 1 else k, n, p)
  {
    forall q | p + (if ok then k + 1 else k) <= q < p + n && v + (q - p) < TRAPFRAME
      ensures q in own' && own'[q] == Hand(id)
    {
      assert q in own && own[q] == Hand(id);
      assert q in own.Keys && q in own'.Keys;
    }
  }

  lemma ShrinksSelf(own: Owners, id: nat)
    ensures Shrinks(own, own, id)
  {
  }

  lemma NoPageNoEntry(mem: Mem, s: Space, v: Vpn)
    requires NodeAt(0, v) !in s.tree
    ensures Look(mem, s, v) == NOPTE
  {
    hide Px;
  }

  lemma UserLeaf(mem: Mem, own: Owners, s: Space, v: Vpn)
    requires SpaceOk(mem, own, s) && v < TRAPFRAME && Look(mem, s, v).v
    ensures Look(mem, s, v).ppn in own && own[Look(mem, s, v).ppn] == User(s.id, v)
  {
  }

  lemma ChangedAt(mem: Mem, s: Space, mem': Mem, s': Space, v: Vpn, e: Pte)
    requires Changed(mem, s, mem', s', v, e)
    ensures Look(mem', s', v) == e
  {
    hide Look;
  }

  lemma UserOwnedOf(mem: Mem, own: Owners, s: Space)
    requires SpaceOk(mem, own, s)
    ensures UserOwned(mem, own, s)
  {
  }

  lemma CleanOf(mem: Mem, own: Owners, s: Space)
    requires SpaceOk(mem, own, s)
    ensures Clean(mem, s)
  {
  }

  lemma EntryAt(mem: Mem, own: Owners, mem': Mem, own': Owners, s: Space, n: Node, k: nat)
    requires Sub(mem, own, s, n) && FreedTo(mem, own, mem', own', s, n, k) && k < ENTRIES
    ensures s.tree[n] in mem'
    ensures mem'[s.tree[n]][k] == if !n.Low? && Child(n, k) in s.tree then TablePte(s.tree[Child(n, k)]) else NOPTE
  {
    hide Sub;
    SubEntry(mem, own, s, n, k);
  }

  lemma RootAt(mem: Mem, own: Owners, s: Space)
    requires SpaceOk(mem, own, s)
    ensures Root in s.tree && s.tree[Root] == s.root
  {
  }
}
