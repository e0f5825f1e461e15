/** The three-level page tables of Sv39, as vm.c uses them, and the flat map from virtual
    page numbers to page-table entries that they stand for.

    Pages of physical memory are named by their page number. mem holds the contents of the
    page-table pages; a Space is one page table together with the tree of its pages. */
module Sv39 {

  const ENTRIES: nat := 512
  const MAXVPN: nat := 0x400_0000                  // MAXVA / PGSIZE = 2^26
  const ROOTUSED: nat := 256                       // root entries below MAXVA
  const TRAMPOLINE: nat := MAXVPN - 1
  const TRAPFRAME: nat := MAXVPN - 2

  datatype Pte = Pte(ppn: nat, v: bool, r: bool, w: bool, x: bool, u: bool)

  const NOPTE := Pte(0, false, false, false, false, false)

  type Table = t: seq<Pte> | |t| == ENTRIES witness Blank(ENTRIES)
  type Mem = map<nat, Table>

  function Blank(n: nat): (t: seq<Pte>)
    ensures |t| == n
    ensures forall i | 0 <= i < n :: t[i] == NOPTE
  {
    if n == 0 then [] else Blank(n - 1) + [NOPTE]
  }

  /** An entry that points to the next level. */
  function TablePte(ppn: nat): Pte {
    Pte(ppn, true, false, false, false, false)
  }

  predicate IsLeaf(e: Pte) {
    e.r || e.w || e.x
  }

  // ----- virtual page numbers and their three indices

  type Vpn = v: nat | v < MAXVPN

  function Px(level: nat, v: Vpn): (i: nat)
    ensures i < ENTRIES
    ensures level >= 2 ==> i < ROOTUSED
  {
    if level == 0 then v % 512 else if level == 1 then (v / 512) % 512 else v / 262144
  }

  /** The three indices determine the page number. */
  lemma PxInjective(v: Vpn, w: Vpn)
    requires Px(2, v) == Px(2, w) && Px(1, v) == Px(1, w) && Px(0, v) == Px(0, w)
    ensures v == w
  {
    PxCompose(v);
    PxCompose(w);
  }

  lemma PxCompose(v: Vpn)
    ensures v == Px(2, v) * 262144 + Px(1, v) * 512 + Px(0, v)
  {
  }

  // ----- the tree

  /** A page-table page by the indices that lead to it. */
  datatype Node = Root | Mid(i: nat) | Low(i: nat, j: nat)

  function NodeAt(level: nat, v: Vpn): Node {
    if level == 0 then Low(Px(2, v), Px(1, v)) else if level == 1 then Mid(Px(2, v)) else Root
  }

  function Child(n: Node, i: nat): Node
    requires !n.Low?
  {
    if n.Root? then Mid(i) else Low(n.i, i)
  }

  predicate NodeOk(n: Node) {
    match n
    case Root => true
    case Mid(i) => i < ROOTUSED
    case Low(i, j) => i < ROOTUSED && j < ENTRIES
  }

  function Parent(n: Node): Node {
    match n
    case Root => Root
    case Mid(i) => Root
    case Low(i, j) => Mid(i)
  }

  datatype Space = Space(id: nat, root: nat, tree: map<Node, nat>)

  /** What a page is used for; Hand means allocated for a space but not mapped yet, Trap is the
      trapframe page of a process. */
  datatype Use = Free | Page(id: nat, node: Node) | User(id: nat, v: nat) | Hand(id: nat) | Trap(pid: nat) | Kernel

  type Owners = map<nat, Use>

  /** The pages of the tree are in memory, each belongs to its node alone. */
  ghost predicate Placed(mem: Mem, own: Owners, s: Space) {
    && Root in s.tree && s.tree[Root] == s.root
    && (forall n | n in s.tree :: NodeOk(n) && Parent(n) in s.tree && s.tree[n] in mem && s.tree[n] in own
         && own[s.tree[n]] == Page(s.id, n))
    && (forall p | p in own && own[p].Page? && own[p].id == s.id :: own[p].node in s.tree && s.tree[own[p].node] == p)
  }

  /** The interior entries are those of the tree. */
  ghost predicate Linked(mem: Mem, s: Space) {
    forall n, i: nat | n in s.tree && s.tree[n] in mem && !n.Low? && i < ENTRIES ::
      mem[s.tree[n]][i] == if Child(n, i) in s.tree then TablePte(s.tree[Child(n, i)]) else NOPTE
  }

  /** The entry of a virtual page in the flat map. */
  function Look(mem: Mem, s: Space, v: Vpn): Pte {
    var n := NodeAt(0, v);
    if n in s.tree && s.tree[n] in mem then mem[s.tree[n]][Px(0, v)] else NOPTE
  }

  /** A user page is owned by the one virtual page that maps it. */
  ghost predicate UserOwned(mem: Mem, own: Owners, s: Space) {
    && (forall v: Vpn | v < TRAPFRAME && Look(mem, s, v).v ::
          Look(mem, s, v).ppn in own && own[Look(mem, s, v).ppn] == User(s.id, v))
    && (forall p | p in own && own[p].User? && own[p].id == s.id ::
          own[p].v < TRAPFRAME && Look(mem, s, own[p].v).v && Look(mem, s, own[p].v).ppn == p)
  }

  /** An entry that is not valid is zero. */
  ghost predicate Clean(mem: Mem, s: Space) {
    forall v: Vpn :: !Look(mem, s, v).v ==> Look(mem, s, v) == NOPTE
  }

  ghost predicate SpaceOk(mem: Mem, own: Owners, s: Space) {
    Placed(mem, own, s) && Linked(mem, s) && UserOwned(mem, own, s) && Clean(mem, s)
  }

  // ----- setting a leaf entry

  function SetEntry(mem: Mem, p: nat, i: nat, e: Pte): Mem
    requires p in mem && i < ENTRIES
  {
    mem[p := mem[p][i := e]]
  }

  /** Writing the entry of v changes the flat map at v only. */
  lemma SetLeafLook(mem: Mem, own: Owners, s: Space, v: Vpn, e: Pte, w: Vpn)
    requires Placed(mem, own, s) && NodeAt(0, v) in s.tree
    ensures var mem' := SetEntry(mem, s.tree[NodeAt(0, v)], Px(0, v), e);
            Look(mem', s, w) == if w == v then e else Look(mem, s, w)
  {
    hide Px;
    var p := s.tree[NodeAt(0, v)];
    if NodeAt(0, w) in s.tree && s.tree[NodeAt(0, w)] == p {
      assert NodeAt(0, w) == NodeAt(0, v);
      if Px(0, w) == Px(0, v) { PxInjective(v, w); }
    }
  }

  lemma SetLeafTree(mem: Mem, own: Owners, s: Space, v: Vpn, e: Pte)
    requires Placed(mem, own, s) && Linked(mem, s) && NodeAt(0, v) in s.tree
    ensures var mem' := SetEntry(mem, s.tree[NodeAt(0, v)], Px(0, v), e);
            Placed(mem', own, s) && Linked(mem', s)
  {
    hide Px;
    var p := s.tree[NodeAt(0, v)];
    var mem' := SetEntry(mem, p, Px(0, v), e);
    forall n | n in s.tree && !n.Low? ensures mem'[s.tree[n]] == mem[s.tree[n]] {
      assert own[s.tree[n]] == Page(s.id, n) && own[p] == Page(s.id, NodeAt(0, v));
    }
  }

  // ----- adding a page to the tree

  /** Page p, zeroed, becomes the child i of node n. */
  function AddedMem(mem: Mem, s: Space, n: Node, i: nat, p: nat): Mem
    requires n in s.tree && s.tree[n] in mem && i < ENTRIES
  {
    mem[p := Blank(ENTRIES)][s.tree[n] := mem[s.tree[n]][i := TablePte(p)]]
  }

  function AddedSpace(s: Space, n: Node, i: nat, p: nat): Space
    requires !n.Low?
  {
    s.(tree := s.tree[Child(n, i) := p])
  }

  lemma AddedPlaced(mem: Mem, own: Owners, s: Space, n: Node, i: nat, p: nat)
    requires Placed(mem, own, s) && n in s.tree && !n.Low? && i < ENTRIES && NodeOk(Child(n, i))
    requires Child(n, i) !in s.tree
    requires p in own && own[p] == Free
    ensures Placed(AddedMem(mem, s, n, i, p), own[p := Page(s.id, Child(n, i))], AddedSpace(s, n, i, p))
  {
  }

  lemma AddedLinked(mem: Mem, own: Owners, s: Space, n: Node, i: nat, p: nat)
    requires Placed(mem, own, s) && Linked(mem, s) && n in s.tree && !n.Low? && i < ENTRIES && NodeOk(Child(n, i))
    requires Child(n, i) !in s.tree
    requires p in own && own[p] == Free
    ensures Linked(AddedMem(mem, s, n, i, p), AddedSpace(s, n, i, p))
  {
    hide Blank;
    var mem', t := AddedMem(mem, s, n, i, p), AddedSpace(s, n, i, p);
    forall m, k: nat | m in t.tree && t.tree[m] in mem' && !m.Low? && k < ENTRIES
      ensures mem'[t.tree[m]][k] == if Child(m, k) in t.tree then TablePte(t.tree[Child(m, k)]) else NOPTE
    {
      if m == Child(n, i) {
        assert Parent(Child(m, k)) == m;
      } else {
        assert m in s.tree && s.tree[m] != p;
        if m != n { assert own[s.tree[m]] == Page(s.id, m) && own[s.tree[n]] == Page(s.id, n); }
      }
    }
  }

  /** Adding a page leaves the flat map alone. */
  lemma AddedLook(mem: Mem, own: Owners, s: Space, n: Node, i: nat, p: nat, v: Vpn)
    requires Placed(mem, own, s) && n in s.tree && !n.Low? && i < ENTRIES && NodeOk(Child(n, i))
    requires Child(n, i) !in s.tree
    requires p in own && own[p] == Free
    ensures Look(AddedMem(mem, s, n, i, p), AddedSpace(s, n, i, p), v) == Look(mem, s, v)
  {
    hide Px, Blank;
  }

  // ----- one space and the others

  predicate Foreign(u: Use, id: nat) {
    u.Kernel? || u.Trap? || (!u.Free? && u.id != id)
  }

  /** Pages of other spaces and of the kernel stay as they are. */
  ghost predicate Frame(mem: Mem, own: Owners, mem': Mem, own': Owners, id: nat) {
    && own'.Keys == own.Keys
    && (forall p | p in own && Foreign(own[p], id) :: own'[p] == own[p] && (p in mem <==> p in mem')
         && (p in mem ==> mem'[p] == mem[p]))
    && (forall p | p in own && Foreign(own'[p], id) :: own[p] == own'[p])
  }

  lemma FrameSelf(mem: Mem, own: Owners, id: nat)
    ensures Frame(mem, own, mem, own, id)
  {
  }

  lemma FrameTrans(mem: Mem, own: Owners, mem1: Mem, own1: Owners, mem2: Mem, own2: Owners, id: nat)
    requires Frame(mem, own, mem1, own1, id) && Frame(mem1, own1, mem2, own2, id)
    ensures Frame(mem, own, mem2, own2, id)
  {
  }

  /** What one space does leaves every other space, and what it maps, alone. */
  lemma FrameSpace(mem: Mem, own: Owners, mem': Mem, own': Owners, id: nat, s: Space)
    requires Frame(mem, own, mem', own', id) && SpaceOk(mem, own, s) && s.id != id
    ensures SpaceOk(mem', own', s)
    ensures forall v: Vpn :: Look(mem', s, v) == Look(mem, s, v)
  {
    hide Px;
    forall n | n in s.tree ensures s.tree[n] in mem' && mem'[s.tree[n]] == mem[s.tree[n]] {
      assert Foreign(own[s.tree[n]], id);
    }
    forall p | p in own' && (own'[p].Page? || own'[p].User?) && own'[p].id == s.id ensures own[p] == own'[p] {
      assert p in own.Keys && Foreign(own'[p], id);
    }
    forall p | p in own && (own[p].Page? || own[p].User?) && own[p].id == s.id ensures p in own' && own'[p] == own[p] {
      assert p in own'.Keys && Foreign(own[p], id);
    }
    forall v: Vpn ensures Look(mem', s, v) == Look(mem, s, v) {
    }
  }

  /** Two page tables that translate alike. */
  ghost predicate SameLook(mem: Mem, s: Space, mem': Mem, s': Space) {
    s'.id == s.id && s'.root == s.root && forall v: Vpn :: Look(mem', s', v) == Look(mem, s, v)
  }

  lemma SameLookSelf(mem: Mem, s: Space)
    ensures SameLook(mem, s, mem, s)
  {
  }

  lemma SameLookTrans(mem: Mem, s: Space, mem1: Mem, s1: Space, mem2: Mem, s2: Space)
    requires SameLook(mem, s, mem1, s1) && SameLook(mem1, s1, mem2, s2)
    ensures SameLook(mem, s, mem2, s2)
  {
    hide Look;
  }

  lemma NextLevel(level: nat, v: Vpn)
    requires 1 <= level <= 2
    ensures !NodeAt(level, v).Low? && Child(NodeAt(level, v), Px(level, v)) == NodeAt(level - 1, v)
    ensures NodeOk(NodeAt(level - 1, v))
  {
    hide Px;
  }

  /** Owners of user pages do not notice a page that was free. */
  lemma UserOwnedKept(mem: Mem, own: Owners, s: Space, mem': Mem, s': Space, p: nat, n: Node)
    requires UserOwned(mem, own, s) && SameLook(mem, s, mem', s') && p in own && own[p] == Free
    ensures UserOwned(mem', own[p := Page(s.id, n)], s')
  {
    hide Look;
    var own' := own[p := Page(s.id, n)];
    forall v: Vpn | v < TRAPFRAME && Look(mem', s', v).v
      ensures Look(mem', s', v).ppn in own' && own'[Look(mem', s', v).ppn] == User(s'.id, v)
    {
      assert Look(mem, s, v).v;
    }
    forall q | q in own' && own'[q].User? && own'[q].id == s'.id
      ensures own'[q].v < TRAPFRAME && Look(mem', s', own'[q].v).v && Look(mem', s', own'[q].v).ppn == q
    {
      assert own[q] == own'[q];
      assert Look(mem', s', own[q].v) == Look(mem, s, own[q].v);
    }
  }

  /** A new interior page: the page table stays one, translates as before, and no other space
      is touched. */
  lemma AddedOk(mem: Mem, own: Owners, s: Space, n: Node, i: nat, p: nat)
    requires SpaceOk(mem, own, s) && n in s.tree && !n.Low? && i < ENTRIES && NodeOk(Child(n, i))
    requires Child(n, i) !in s.tree
    requires p in own && own[p] == Free
    ensures var mem', own', s' := AddedMem(mem, s, n, i, p), own[p := Page(s.id, Child(n, i))], AddedSpace(s, n, i, p);
            SpaceOk(mem', own', s') && SameLook(mem, s, mem', s') && Frame(mem, own, mem', own', s.id)
  {
    hide Look, Linked, UserOwned, Clean;
    AddedPlaced(mem, own, s, n, i, p);
    AddedLinked(mem, own, s, n, i, p);
    var mem', s' := AddedMem(mem, s, n, i, p), AddedSpace(s, n, i, p);
    forall v: Vpn ensures Look(mem', s', v) == Look(mem, s, v) {
      AddedLook(mem, own, s, n, i, p, v);
    }
    UserOwnedKept(mem, own, s, mem', s', p, Child(n, i));
    CleanKept(mem, s, mem', s');
  }

  lemma CleanKept(mem: Mem, s: Space, mem': Mem, s': Space)
    requires Clean(mem, s) && SameLook(mem, s, mem', s')
    ensures Clean(mem', s')
  {
    hide Look;
  }

  // ----- mapping and unmapping pages

  datatype Perm = Perm(r: bool, w: bool, x: bool, u: bool)

  function LeafPte(ppn: nat, perm: Perm): Pte {
    Pte(ppn, true, perm.r, perm.w, perm.x, perm.u)
  }

  /** The flat map changes at v only, to e. */
  ghost predicate Changed(mem: Mem, s: Space, mem': Mem, s': Space, v: Vpn, e: Pte) {
    s'.id == s.id && s'.root == s.root && forall w: Vpn :: Look(mem', s', w) == if w == v then e else Look(mem, s, w)
  }

  lemma SetLeafChanged(mem: Mem, own: Owners, s: Space, v: Vpn, e: Pte)
    requires Placed(mem, own, s) && NodeAt(0, v) in s.tree
    ensures Changed(mem, s, SetEntry(mem, s.tree[NodeAt(0, v)], Px(0, v), e), s, v, e)
  {
    hide Look, Px;
    forall w: Vpn { SetLeafLook(mem, own, s, v, e, w); }
  }

  lemma ChangedClean(mem: Mem, s: Space, mem': Mem, s': Space, v: Vpn, e: Pte)
    requires Clean(mem, s) && Changed(mem, s, mem', s', v, e) && (e.v || e == NOPTE)
    ensures Clean(mem', s')
  {
    hide Look;
  }

  /** The owners after v is mapped to page p. */
  function MapOwn(own: Owners, id: nat, v: Vpn, p: nat): Owners {
    if v < TRAPFRAME then own[p := User(id, v)] else own
  }

  lemma MapUserOwned(mem: Mem, own: Owners, s: Space, mem': Mem, v: Vpn, e: Pte)
    requires UserOwned(mem, own, s) && Changed(mem, s, mem', s, v, e) && !Look(mem, s, v).v && e.v
    requires v < TRAPFRAME ==> e.ppn in own && own[e.ppn] == Hand(s.id)
    ensures UserOwned(mem', MapOwn(own, s.id, v, e.ppn), s)
  {
    hide Look;
    var own' := MapOwn(own, s.id, v, e.ppn);
    forall w: Vpn | w < TRAPFRAME && Look(mem', s, w).v
      ensures Look(mem', s, w).ppn in own' && own'[Look(mem', s, w).ppn] == User(s.id, w)
    {
      if w != v { assert Look(mem, s, w).v; }
    }
    forall q | q in own' && own'[q].User? && own'[q].id == s.id
      ensures own'[q].v < TRAPFRAME && Look(mem', s, own'[q].v).v && Look(mem', s, own'[q].v).ppn == q
    {
      if q != e.ppn || v >= TRAPFRAME { assert own[q] == own'[q]; }
    }
  }

  /** Mapping a page that is at hand. */
  lemma MapOk(mem: Mem, own: Owners, s: Space, v: Vpn, e: Pte)
    requires SpaceOk(mem, own, s) && NodeAt(0, v) in s.tree && !Look(mem, s, v).v && e.v
    requires v < TRAPFRAME ==> e.ppn in own && own[e.ppn] == Hand(s.id)
    ensures var mem', own' := SetEntry(mem, s.tree[NodeAt(0, v)], Px(0, v), e), MapOwn(own, s.id, v, e.ppn);
            SpaceOk(mem', own', s) && Changed(mem, s, mem', s, v, e) && Frame(mem, own, mem', own', s.id)
  {
    hide Look, Px, UserOwned, Linked, Changed, Clean;
    SetLeafChanged(mem, own, s, v, e);
    ChangedClean(mem, s, SetEntry(mem, s.tree[NodeAt(0, v)], Px(0, v), e), s, v, e);
    SetLeafTree(mem, own, s, v, e);
    MapUserOwned(mem, own, s, SetEntry(mem, s.tree[NodeAt(0, v)], Px(0, v), e), v, e);
  }

  /** The owners after v, mapped to page p, is unmapped: the page is at hand again. */
  function UnmapOwn(own: Owners, id: nat, v: Vpn, p: nat): Owners {
    if v < TRAPFRAME then own[p := Hand(id)] else own
  }

  lemma UnmapUserOwned(mem: Mem, own: Owners, s: Space, mem': Mem, v: Vpn)
    requires UserOwned(mem, own, s) && Changed(mem, s, mem', s, v, NOPTE) && Look(mem, s, v).v
    ensures UserOwned(mem', UnmapOwn(own, s.id, v, Look(mem, s, v).ppn), s)
  {
    hide Look;
    var p := Look(mem, s, v).ppn;
    var own' := UnmapOwn(own, s.id, v, p);
    forall w: Vpn | w < TRAPFRAME && Look(mem', s, w).v
      ensures Look(mem', s, w).ppn in own' && own'[Look(mem', s, w).ppn] == User(s.id, w)
    {
      assert w != v && Look(mem, s, w).v;
    }
    forall q | q in own' && own'[q].User? && own'[q].id == s.id
      ensures own'[q].v < TRAPFRAME && Look(mem', s, own'[q].v).v && Look(mem', s, own'[q].v).ppn == q
    {
      assert own[q] == own'[q];
    }
  }

  lemma UnmapOk(mem: Mem, own: Owners, s: Space, v: Vpn)
    requires SpaceOk(mem, own, s) && NodeAt(0, v) in s.tree && Look(mem, s, v).v
    ensures var mem' := SetEntry(mem, s.tree[NodeAt(0, v)], Px(0, v), NOPTE);
            var own' := UnmapOwn(own, s.id, v, Look(mem, s, v).ppn);
            SpaceOk(mem', own', s) && Changed(mem, s, mem', s, v, NOPTE) && Frame(mem, own, mem', own', s.id)
  {
    hide Look, Px, Linked, Changed, Clean;
    SetLeafChanged(mem, own, s, v, NOPTE);
    ChangedClean(mem, s, SetEntry(mem, s.tree[NodeAt(0, v)], Px(0, v), NOPTE), s, v, NOPTE);
    SetLeafTree(mem, own, s, v, NOPTE);
    UnmapUserOwned(mem, own, s, SetEntry(mem, s.tree[NodeAt(0, v)], Px(0, v), NOPTE), v);
  }

  // ----- composing changes

  /** Apart from the pages x, owners change only where a free page becomes a page-table page. */
  ghost predicate Grows(own: Owners, own': Owners, id: nat, x: set<nat>) {
    own'.Keys == own.Keys
    && forall q | q in own && q !in x :: own'[q] == own[q] || (own[q] == Free && own'[q].Page? && own'[q].id == id)
  }

  lemma GrowsTrans(a: Owners, b: Owners, c: Owners, id: nat, x: set<nat>, y: set<nat>, z: set<nat>)
    requires Grows(a, b, id, x) && Grows(b, c, id, y) && x <= z && y <= z
    ensures Grows(a, c, id, z)
  {
    forall q | q in a && q !in z ensures c[q] == a[q] || (a[q] == Free && c[q].Page? && c[q].id == id) {
      assert q in b.Keys && q !in x && q !in y;
    }
  }

  lemma SameThenChanged(mem: Mem, s: Space, mem1: Mem, s1: Space, mem2: Mem, s2: Space, v: Vpn, e: Pte)
    requires SameLook(mem, s, mem1, s1) && Changed(mem1, s1, mem2, s2, v, e)
    ensures Changed(mem, s, mem2, s2, v, e)
  {
    hide Look;
  }

  lemma LookKept(mem: Mem, s: Space, mem': Mem, s': Space, v: Vpn)
    requires SameLook(mem, s, mem', s')
    ensures Look(mem', s', v) == Look(mem, s, v)
  {
  }

  /** The k pages from v on map the pages from p on; the rest is as before. */
  ghost predicate RangeMapped(mem: Mem, s: Space, mem': Mem, s': Space, v: nat, k: nat, p: nat, perm: Perm) {
    && s'.id == s.id && s'.root == s.root
    && forall w: Vpn :: Look(mem', s', w) == if v <= w < v + k then LeafPte(p + (w - v), perm) else Look(mem, s, w)
  }

  lemma RangeStart(mem: Mem, s: Space, v: nat, p: nat, perm: Perm)
    ensures RangeMapped(mem, s, mem, s, v, 0, p, perm)
  {
    hide Look;
  }

  lemma RangeOutside(mem: Mem, s: Space, mem': Mem, s': Space, v: nat, k: nat, p: nat, perm: Perm, w: Vpn)
    requires RangeMapped(mem, s, mem', s', v, k, p, perm) && !(v <= w < v + k)
    ensures Look(mem', s', w) == Look(mem, s, w)
  {
    hide Look;
  }

  lemma RangeThenSame(mem: Mem, s: Space, mem1: Mem, s1: Space, mem2: Mem, s2: Space, v: nat, k: nat, p: nat,
                      perm: Perm)
    requires RangeMapped(mem, s, mem1, s1, v, k, p, perm) && SameLook(mem1, s1, mem2, s2)
    ensures RangeMapped(mem, s, mem2, s2, v, k, p, perm)
  {
    hide Look;
  }

  lemma RangeThenChanged(mem: Mem, s: Space, mem1: Mem, s1: Space, mem2: Mem, s2: Space, v: nat, k: nat, p: nat,
                         perm: Perm)
    requires v + k < MAXVPN && RangeMapped(mem, s, mem1, s1, v, k, p, perm)
    requires Changed(mem1, s1, mem2, s2, v + k, LeafPte(p + k, perm))
    ensures RangeMapped(mem, s, mem2, s2, v, k + 1, p, perm)
  {
    hide Look;
  }

  /** The n pages from v on are unmapped; the rest is as before. */
  ghost predicate Cleared(mem: Mem, s: Space, mem': Mem, s': Space, v: nat, n: nat) {
    && s'.id == s.id && s'.root == s.root
    && forall w: Vpn :: Look(mem', s', w) == if v <= w < v + n then NOPTE else Look(mem, s, w)
  }

  lemma ClearedNone(mem: Mem, s: Space, v: nat)
    ensures Cleared(mem, s, mem, s, v, 0)
  {
    hide Look;
  }

  lemma ClearedAt(mem: Mem, s: Space, mem': Mem, s': Space, v: nat, n: nat, w: Vpn)
    requires Cleared(mem, s, mem', s', v, n)
    ensures Look(mem', s', w) == if v <= w < v + n then NOPTE else Look(mem, s, w)
  {
    hide Look;
  }

  lemma ClearedNext(mem: Mem, s: Space, mem1: Mem, s1: Space, mem2: Mem, s2: Space, v: nat, n: nat)
    requires v + n < MAXVPN && Cleared(mem, s, mem1, s1, v, n) && Changed(mem1, s1, mem2, s2, v + n, NOPTE)
    ensures Cleared(mem, s, mem2, s2, v, n + 1)
  {
    hide Look;
  }

  lemma ChangedToSame(mem: Mem, s: Space, v: Vpn)
    requires Clean(mem, s) && !Look(mem, s, v).v
    ensures Changed(mem, s, mem, s, v, NOPTE)
  {
    hide Look;
  }

  /** Owners change only where a user page of the space becomes free. */
  ghost predicate Shrinks(own: Owners, own': Owners, id: nat) {
    own'.Keys == own.Keys
    && forall q | q in own :: own'[q] == own[q] || (own[q].User? && own[q].id == id && own'[q] == Free)
  }

  lemma ShrinksTrans(a: Owners, b: Owners, c: Owners, id: nat)
    requires Shrinks(a, b, id) && Shrinks(b, c, id)
    ensures Shrinks(a, c, id)
  {
    forall q | q in a ensures c[q] == a[q] || (a[q].User? && a[q].id == id && c[q] == Free) {
      assert q in b.Keys;
    }
  }

  predicate Unmapped(u: Use) {
    u.Free? || u.Hand? || u.Trap?
  }

  /** A page that is not mapped may change between these uses without a space noticing. */
  lemma Repurposed(mem: Mem, own: Owners, s: Space, p: nat, use: Use)
    requires SpaceOk(mem, own, s) && p in own && Unmapped(own[p]) && Unmapped(use)
    ensures SpaceOk(mem, own[p := use], s)
  {
    hide Look, Linked, Clean;
    var own' := own[p := use];
    assert Placed(mem, own', s);
    forall w: Vpn | w < TRAPFRAME && Look(mem, s, w).v
      ensures Look(mem, s, w).ppn in own' && own'[Look(mem, s, w).ppn] == User(s.id, w)
    {
    }
  }

  lemma FrameHand(mem: Mem, own: Owners, p: nat, id: nat)
    requires p in own && (own[p] == Free || own[p] == Hand(id) || (own[p].User? && own[p].id == id))
    ensures Frame(mem, own, mem, own[p := Hand(id)], id) && Frame(mem, own, mem, own[p := Free], id)
  {
  }
}
