/** User address spaces as vm.c builds them: what growing, copying and freeing an address space
    does to the flat map, to the pages and to their contents. */
module Uvm {
  import opened Sv39

  type Content = seq<nat>

  /** What memset(..., 0, PGSIZE) leaves. */
  const ZEROED: Content := []

  function At(data: map<nat, Content>, p: nat): Content {
    if p in data then data[p] else ZEROED
  }

  const PGSIZE: nat := 4096

  /** PGROUNDUP(sz) / PGSIZE. */
  function Pages(sz: nat): nat {
    (sz + PGSIZE - 1) / PGSIZE
  }

  /** Pages(sz) pages hold sz bytes, and one page less does not. */
  lemma PagesCover(sz: nat)
    ensures sz <= Pages(sz) * PGSIZE < sz + PGSIZE
  {
  }

  /** The pages from v to v + n - 1 that are mapped. */
  ghost function MappedIn(mem: Mem, s: Space, v: nat, n: nat): set<nat>
    requires v + n <= MAXVPN
  {
    set w: nat | v <= w < v + n && Look(mem, s, w).v
  }

  lemma MappedNone(mem: Mem, s: Space, v: nat)
    requires v <= MAXVPN
    ensures |MappedIn(mem, s, v, 0)| == 0
  {
    hide Look;
    assert MappedIn(mem, s, v, 0) == {};
  }

  lemma MappedNext(mem: Mem, s: Space, v: nat, n: nat)
    requires v + n < MAXVPN
    ensures |MappedIn(mem, s, v, n + 1)| == |MappedIn(mem, s, v, n)| + if Look(mem, s, v + n).v then 1 else 0
  {
    hide Look;
    assert MappedIn(mem, s, v, n + 1) == MappedIn(mem, s, v, n) + if Look(mem, s, v + n).v then {v + n} else {};
  }

  lemma PagesExact(n: nat)
    ensures Pages(n * PGSIZE) == n
  {
  }

  lemma PagesMono(m: nat, n: nat)
    requires m <= n
    ensures Pages(m) <= Pages(n)
  {
  }

  /** No page is allocated for the space without being mapped. */
  ghost predicate NoHand(own: Owners, id: nat) {
    forall p | p in own :: own[p] != Hand(id)
  }

  ghost predicate Sound(mem: Mem, own: Owners, s: Space) {
    SpaceOk(mem, own, s) && NoHand(own, s.id)
  }

  lemma ShrinksNoHand(own: Owners, own': Owners, id: nat)
    requires Shrinks(own, own', id) && NoHand(own, id)
    ensures NoHand(own', id)
  {
    forall p | p in own' ensures own'[p] != Hand(id) { assert p in own.Keys; }
  }

  /** Pages in use keep their contents. */
  ghost predicate DataKept(own: Owners, data: map<nat, Content>, data': map<nat, Content>) {
    forall p | p in own && own[p] != Free :: At(data', p) == At(data, p)
  }

  /** Pages in use stay in use. */
  ghost predicate Uses(own: Owners, own': Owners) {
    forall p | p in own && own[p] != Free :: p in own' && own'[p] != Free
  }

  lemma UsesTrans(a: Owners, b: Owners, c: Owners)
    requires Uses(a, b) && Uses(b, c)
    ensures Uses(a, c)
  {
  }

  lemma KeptSelf(own: Owners, data: map<nat, Content>)
    ensures Uses(own, own) && DataKept(own, data, data)
  {
  }

  lemma HandUses(own: Owners, own': Owners, id: nat, p: nat)
    requires p in own && own[p] == Free && Grows(own[p := Hand(id)], own', id, {p})
    ensures Uses(own, own') && Uses(own, own'[p := Free])
  {
    var own1 := own[p := Hand(id)];
    forall q | q in own && own[q] != Free ensures q in own' && own'[q] != Free {
      assert q in own1.Keys && q in own'.Keys && own1[q] == own[q];
    }
  }

  // ----- one new page

  lemma RangeOne(mem: Mem, s: Space, mem': Mem, s': Space, v: Vpn, k: nat, p: nat, perm: Perm)
    requires k <= 1 && RangeMapped(mem, s, mem', s', v, k, p, perm)
    ensures k == 1 ==> Changed(mem, s, mem', s', v, LeafPte(p, perm))
    ensures k == 0 ==> SameLook(mem, s, mem', s')
  {
    hide Look;
  }

  lemma HandMapped(own: Owners, own': Owners, id: nat, p: nat)
    requires NoHand(own, id) && p in own && Grows(own[p := Hand(id)], own', id, {p}) && p in own' && own'[p] != Hand(id)
    ensures NoHand(own', id)
  {
    forall q | q in own' ensures own'[q] != Hand(id) {
      assert q in own[p := Hand(id)].Keys;
      assert q != p ==> own[p := Hand(id)][q] == own[q];
    }
  }

  lemma HandReturned(own: Owners, own': Owners, id: nat, p: nat)
    requires NoHand(own, id) && p in own && Grows(own[p := Hand(id)], own', id, {}) && p in own'
    ensures NoHand(own'[p := Free], id)
  {
    var own1 := own'[p := Free];
    forall q | q in own1 ensures own1[q] != Hand(id) {
      assert q in own[p := Hand(id)].Keys;
      assert q != p ==> own[p := Hand(id)][q] == own[q];
    }
  }

  // ----- growing

  /** The n pages from v on are new zeroed pages; the rest is as before. */
  ghost predicate Grown(mem: Mem, s: Space, mem': Mem, s': Space, data: map<nat, Content>, v: nat, n: nat, perm: Perm) {
    && s'.id == s.id && s'.root == s.root
    && (forall w: Vpn | v <= w < v + n ::
          Look(mem', s', w) == LeafPte(Look(mem', s', w).ppn, perm) && At(data, Look(mem', s', w).ppn) == ZEROED)
    && (forall w: Vpn | !(v <= w < v + n) :: Look(mem', s', w) == Look(mem, s, w))
  }

  lemma GrownNone(mem: Mem, s: Space, data: map<nat, Content>, v: nat, perm: Perm)
    ensures Grown(mem, s, mem, s, data, v, 0, perm)
  {
    hide Look;
  }

  lemma GrownOutside(mem: Mem, s: Space, mem': Mem, s': Space, data: map<nat, Content>, v: nat, n: nat, perm: Perm,
                     w: Vpn)
    requires Grown(mem, s, mem', s', data, v, n, perm) && !(v <= w < v + n)
    ensures Look(mem', s', w) == Look(mem, s, w)
  {
    hide Look;
  }

  lemma GrownNext(mem: Mem, s: Space, mem1: Mem, own1: Owners, s1: Space, data1: map<nat, Content>, mem2: Mem,
                  s2: Space, v: nat, n: nat, p: nat, perm: Perm)
    requires v + n < TRAPFRAME && Grown(mem, s, mem1, s1, data1, v, n, perm)
    requires Changed(mem1, s1, mem2, s2, v + n, LeafPte(p, perm))
    requires UserOwned(mem1, own1, s1) && p in own1 && own1[p] == Free
    ensures Grown(mem, s, mem2, s2, data1[p := ZEROED], v, n + 1, perm)
  {
    hide Look;
    forall w: Vpn | v <= w < v + n + 1
      ensures Look(mem2, s2, w) == LeafPte(Look(mem2, s2, w).ppn, perm)
      ensures At(data1[p := ZEROED], Look(mem2, s2, w).ppn) == ZEROED
    {
      if w < v + n { assert Look(mem2, s2, w) == Look(mem1, s1, w); }
    }
  }

  lemma GrownStep(mem: Mem, s: Space, mem1: Mem, own1: Owners, s1: Space, data1: map<nat, Content>, mem2: Mem,
                  s2: Space, v: nat, n: nat, p: nat, perm: Perm)
    requires v + n < TRAPFRAME && Grown(mem, s, mem1, s1, data1, v, n, perm)
    requires Changed(mem1, s1, mem2, s2, v + n, LeafPte(p, perm))
    requires Sound(mem1, own1, s1) && p in own1 && own1[p] == Free
    ensures Grown(mem, s, mem2, s2, data1[p := ZEROED], v, n + 1, perm)
  {
    hide Look, Grown, Changed;
    GrownNext(mem, s, mem1, own1, s1, data1, mem2, s2, v, n, p, perm);
  }

  /** Growing and then unmapping what was grown leaves the flat map as it was. */
  lemma GrownCleared(mem: Mem, own: Owners, s: Space, mem1: Mem, s1: Space, mem2: Mem, s2: Space,
                     data: map<nat, Content>, v: nat, n: nat, perm: Perm)
    requires Clean(mem, s) && (forall w: Vpn | v <= w < v + n :: !Look(mem, s, w).v)
    requires Grown(mem, s, mem1, s1, data, v, n, perm) && Cleared(mem1, s1, mem2, s2, v, n)
    ensures SameLook(mem, s, mem2, s2)
  {
    hide Look;
  }

  lemma GrownThenSame(mem: Mem, s: Space, mem1: Mem, own1: Owners, s1: Space, data1: map<nat, Content>, mem2: Mem,
                      s2: Space, data2: map<nat, Content>, v: nat, n: nat, perm: Perm)
    requires v + n <= TRAPFRAME && Grown(mem, s, mem1, s1, data1, v, n, perm) && SameLook(mem1, s1, mem2, s2)
    requires UserOwned(mem1, own1, s1) && DataKept(own1, data1, data2)
    ensures Grown(mem, s, mem2, s2, data2, v, n, perm)
  {
    hide Look, At;
    forall w: Vpn | v <= w < v + n
      ensures Look(mem2, s2, w) == LeafPte(Look(mem2, s2, w).ppn, perm) && At(data2, Look(mem2, s2, w).ppn) == ZEROED
    {
      assert Look(mem1, s1, w).v;
      assert own1[Look(mem1, s1, w).ppn] != Free;
    }
  }

  lemma DataKeptTrans(own: Owners, own1: Owners, data: map<nat, Content>, data1: map<nat, Content>,
                      data2: map<nat, Content>)
    requires DataKept(own, data, data1) && DataKept(own1, data1, data2)
    requires Uses(own, own1)
    ensures DataKept(own, data, data2)
  {
    hide At;
  }

  // ----- copying

  /** Page v of the child is a copy of the parent's. */
  ghost predicate CopiedAt(mem: Mem, s: Space, c: Space, data: map<nat, Content>, v: Vpn) {
    var e, f := Look(mem, s, v), Look(mem, c, v);
    if e.v then f == e.(ppn := f.ppn) && f.ppn != e.ppn && At(data, f.ppn) == At(data, e.ppn) else f == NOPTE
  }

  ghost predicate ChangedElse(mem: Mem, s: Space, mem': Mem, s': Space, v: Vpn) {
    forall w: Vpn | w != v :: Look(mem', s', w) == Look(mem, s, w)
  }

  lemma CleanAt(mem: Mem, s: Space, v: Vpn)
    requires Clean(mem, s) && !Look(mem, s, v).v
    ensures Look(mem, s, v) == NOPTE
  {
  }

  /** What one space does leaves another one sound and its translations alone. */
  lemma FrameSound(mem: Mem, own: Owners, mem': Mem, own': Owners, id: nat, s: Space)
    requires Frame(mem, own, mem', own', id) && Sound(mem, own, s) && s.id != id
    ensures Sound(mem', own', s) && SameLook(mem, s, mem', s)
  {
    hide SpaceOk, Look;
    FrameSpace(mem, own, mem', own', id, s);
    forall p | p in own' ensures own'[p] != Hand(s.id) {
      assert p in own.Keys;
    }
  }

  lemma CopyMade(mem: Mem, own: Owners, s: Space, c: Space, mem': Mem, t: Space, data: map<nat, Content>, v: Vpn,
                 p: nat)
    requires SpaceOk(mem, own, s) && SameLook(mem, s, mem', s) && v < TRAPFRAME && Look(mem, s, v).v && p in own
    requires own[p] == Free
    requires var e := Look(mem, s, v); Changed(mem, c, mem', t, v, LeafPte(p, Perm(e.r, e.w, e.x, e.u)))
    ensures CopiedAt(mem', s, t, data[p := At(data, Look(mem, s, v).ppn)], v) && ChangedElse(mem, c, mem', t, v)
  {
    hide Look;
  }

  /** The first n pages of t are copies of those of s, the others are those of c. */
  ghost predicate Copied(mem: Mem, s: Space, c: Space, mem': Mem, t: Space, data: map<nat, Content>, n: nat) {
    && (forall w: Vpn | w < n :: CopiedAt(mem', s, t, data, w))
    && (forall w: Vpn | n <= w :: Look(mem', t, w) == Look(mem, c, w))
  }

  lemma CopiedNone(mem: Mem, s: Space, c: Space, data: map<nat, Content>)
    ensures Copied(mem, s, c, mem, c, data, 0)
  {
    hide Look;
  }

  lemma CopiedBeyond(mem: Mem, s: Space, c: Space, mem': Mem, t: Space, data: map<nat, Content>, n: Vpn)
    requires Copied(mem, s, c, mem', t, data, n)
    ensures Look(mem', t, n) == Look(mem, c, n)
  {
    hide Look;
  }

  lemma CopiedAtKept(mem1: Mem, own1: Owners, s: Space, t1: Space, data1: map<nat, Content>, mem2: Mem, t2: Space,
                     data2: map<nat, Content>, n: Vpn, w: Vpn)
    requires w < n < TRAPFRAME && CopiedAt(mem1, s, t1, data1, w) && ChangedElse(mem1, t1, mem2, t2, n)
    requires SameLook(mem1, s, mem2, s)
    requires Sound(mem1, own1, s) && Sound(mem1, own1, t1) && DataKept(own1, data1, data2)
    ensures CopiedAt(mem2, s, t2, data2, w)
  {
    hide Look, At;
    assert Look(mem2, s, w) == Look(mem1, s, w) && Look(mem2, t2, w) == Look(mem1, t1, w);
    var e, f := Look(mem1, s, w), Look(mem1, t1, w);
    assert e.v ==> e.ppn in own1 && own1[e.ppn] != Free && f.ppn in own1 && own1[f.ppn] != Free;
  }

  lemma CopiedNext(mem: Mem, s: Space, c: Space, mem1: Mem, own1: Owners, t1: Space, data1: map<nat, Content>,
                   mem2: Mem, t2: Space, data2: map<nat, Content>, n: nat)
    requires n < TRAPFRAME && Copied(mem, s, c, mem1, t1, data1, n)
    requires CopiedAt(mem2, s, t2, data2, n) && ChangedElse(mem1, t1, mem2, t2, n) && SameLook(mem1, s, mem2, s)
    requires Sound(mem1, own1, s) && Sound(mem1, own1, t1) && DataKept(own1, data1, data2)
    ensures Copied(mem, s, c, mem2, t2, data2, n + 1)
  {
    hide Look, Sound, DataKept, SameLook, CopiedAt;
    forall w: Vpn | w < n + 1 ensures CopiedAt(mem2, s, t2, data2, w) {
      if w < n { CopiedAtKept(mem1, own1, s, t1, data1, mem2, t2, data2, n, w); }
    }
  }

  lemma CopiedCleared(mem: Mem, s: Space, c: Space, mem1: Mem, t1: Space, data1: map<nat, Content>, mem2: Mem,
                      t2: Space, mem3: Mem, n: nat)
    requires Copied(mem, s, c, mem1, t1, data1, n) && SameLook(mem1, t1, mem2, t2) && Cleared(mem2, t2, mem3, t2, 0, n)
    requires t2.id == c.id && t2.root == c.root && Clean(mem, c) && forall w: Vpn | w < n :: !Look(mem, c, w).v
    ensures SameLook(mem, c, mem3, t2)
  {
    hide Look, CopiedAt;
    forall w: Vpn ensures Look(mem3, t2, w) == Look(mem, c, w) {
      if w >= n { assert Look(mem1, t1, w) == Look(mem, c, w); }
    }
  }
}
