/** Taking a page table apart: freewalk and what it leaves of the pages. */
module Teardown {
  import opened Sv39
  import opened Uvm

  /** m is n or below it. */
  predicate Below(m: Node, n: Node) {
    n.Root? || m == n || (n.Mid? && m.Low? && m.i == n.i)
  }

  /** m is below one of the first k children of n. */
  predicate Under(m: Node, n: Node, k: nat) {
    match n
    case Root => !m.Root? && m.i < k
    case Mid(i) => m.Low? && m.i == i && m.j < k
    case Low(_, _) => false
  }

  function Depth(n: Node): nat {
    if n.Root? then 2 else if n.Mid? then 1 else 0
  }

  lemma UnderNext(m: Node, n: Node, k: nat)
    requires !n.Low?
    ensures Under(m, n, k + 1) <==> Under(m, n, k) || Below(m, Child(n, k))
  {
  }

  lemma UnderAll(m: Node, n: Node)
    requires NodeOk(m)
    ensures Below(m, n) <==> m == n || Under(m, n, ENTRIES)
  {
  }

  predicate Of(u: Use, id: nat, n: Node) {
    u.Page? && u.id == id && Below(u.node, n)
  }

  predicate OfFirst(u: Use, id: nat, n: Node, k: nat) {
    u.Page? && u.id == id && Under(u.node, n, k)
  }

  /** The entries of page n: links to its children in the tree, and nothing at the lowest level. */
  ghost predicate EntriesOk(mem: Mem, s: Space, n: Node)
    requires n in s.tree && s.tree[n] in mem
  {
    forall i: nat | i < ENTRIES ::
      mem[s.tree[n]][i] == if !n.Low? && Child(n, i) in s.tree then TablePte(s.tree[Child(n, i)]) else NOPTE
  }

  /** The pages at and below n form a tree without leaf entries. */
  ghost predicate Sub(mem: Mem, own: Owners, s: Space, n: Node) {
    && n in s.tree
    && (forall m | m in s.tree && Below(m, n) :: NodeOk(m) && Parent(m) in s.tree && s.tree[m] in mem
         && s.tree[m] in own && own[s.tree[m]] == Page(s.id, m))
    && (forall m | m in s.tree && Below(m, n) && s.tree[m] in mem :: EntriesOk(mem, s, m))
    && (forall p | p in own && Of(own[p], s.id, n) :: own[p].node in s.tree && s.tree[own[p].node] == p)
  }

  lemma SubEntry(mem: Mem, own: Owners, s: Space, n: Node, i: nat)
    requires Sub(mem, own, s, n) && i < ENTRIES
    ensures s.tree[n] in mem && s.tree[n] in own && own[s.tree[n]] == Page(s.id, n)
    ensures mem[s.tree[n]][i] == if !n.Low? && Child(n, i) in s.tree then TablePte(s.tree[Child(n, i)]) else NOPTE
  {
    assert Below(n, n);
  }

  /** After the first k children of n are freed. */
  ghost predicate FreedTo(mem: Mem, own: Owners, mem': Mem, own': Owners, s: Space, n: Node, k: nat)
    requires n in s.tree
  {
    && own'.Keys == own.Keys
    && (forall p | p in own :: own'[p] == if OfFirst(own[p], s.id, n, k) then Free else own[p])
    && (forall p | p in mem && p != s.tree[n] && !(p in own && OfFirst(own[p], s.id, n, k)) :: p in mem'
         && mem'[p] == mem[p])
    && s.tree[n] in mem' && s.tree[n] in mem
    && (forall i: nat | k <= i < ENTRIES :: mem'[s.tree[n]][i] == mem[s.tree[n]][i])
  }

  /** n and everything below it is free; the rest is as before. */
  ghost predicate Freed(mem: Mem, own: Owners, mem': Mem, own': Owners, s: Space, n: Node) {
    && own'.Keys == own.Keys
    && (forall p | p in own :: own'[p] == if Of(own[p], s.id, n) then Free else own[p])
    && (forall p | p in mem && !(p in own && Of(own[p], s.id, n)) :: p in mem' && mem'[p] == mem[p])
  }

  /** The next child is still as it was. */
  lemma SubChild(mem: Mem, own: Owners, mem': Mem, own': Owners, s: Space, n: Node, k: nat)
    requires Sub(mem, own, s, n) && FreedTo(mem, own, mem', own', s, n, k) && !n.Low? && Child(n, k) in s.tree
    ensures Sub(mem', own', s, Child(n, k))
  {
    var c := Child(n, k);
    assert Below(n, n);
    forall m | m in s.tree && Below(m, c)
      ensures NodeOk(m) && Parent(m) in s.tree && s.tree[m] in mem' && s.tree[m] in own'
      ensures own'[s.tree[m]] == Page(s.id, m) && mem'[s.tree[m]] == mem[s.tree[m]]
    {
      assert Below(m, n) && m != n && !Under(m, n, k);
      assert s.tree[m] != s.tree[n];
      assert s.tree[m] in own.Keys;
    }
    forall p | p in own' && Of(own'[p], s.id, c) ensures own'[p].node in s.tree && s.tree[own'[p].node] == p {
      assert p in own.Keys;
      assert own'[p] == own[p] && Of(own[p], s.id, n);
    }
  }

  /** One more child is freed, and its entry cleared. */
  lemma FreedNext(mem: Mem, own: Owners, mem1: Mem, own1: Owners, mem2: Mem, own2: Owners, s: Space, n: Node, k: nat)
    requires Sub(mem, own, s, n) && FreedTo(mem, own, mem1, own1, s, n, k) && !n.Low? && k < ENTRIES
    requires Freed(mem1, own1, mem2, own2, s, Child(n, k))
    ensures s.tree[n] in mem2 && FreedTo(mem, own, SetEntry(mem2, s.tree[n], k, NOPTE), own2, s, n, k + 1)
  {
    hide Below, Under;
    var c := Child(n, k);
    UnderNever(n, k);
    assert own[s.tree[n]] == Page(s.id, n) by { BelowSelf(n); }
    assert s.tree[n] in own.Keys;
    assert own1[s.tree[n]] == Page(s.id, n);
    var mem3 := SetEntry(mem2, s.tree[n], k, NOPTE);
    forall p | p in own ensures own2[p] == if OfFirst(own[p], s.id, n, k + 1) then Free else own[p] {
      assert p in own1.Keys;
      if own[p].Page? { UnderNext(own[p].node, n, k); }
    }
    forall p | p in mem && p != s.tree[n] && !(p in own && OfFirst(own[p], s.id, n, k + 1))
      ensures p in mem3 && mem3[p] == mem[p]
    {
      assert p in own.Keys <==> p in own1.Keys;
      if p in own && own[p].Page? { UnderNext(own[p].node, n, k); }
    }
  }

  lemma BelowSelf(n: Node)
    ensures Below(n, n)
  {
  }

  lemma UnderNever(n: Node, k: nat)
    requires !n.Low?
    ensures !Under(n, n, k) && !Under(n, n, k + 1) && !Below(n, Child(n, k))
  {
  }

  lemma FreedNone(mem: Mem, own: Owners, s: Space, n: Node)
    requires Sub(mem, own, s, n)
    ensures n in s.tree && FreedTo(mem, own, mem, own, s, n, 0)
  {
    assert Below(n, n);
  }

  /** There is nothing to free below a child that is not there. */
  lemma FreedSkip(mem: Mem, own: Owners, mem1: Mem, own1: Owners, s: Space, n: Node, k: nat)
    requires Sub(mem, own, s, n) && FreedTo(mem, own, mem1, own1, s, n, k) && k < ENTRIES
    requires n.Low? || Child(n, k) !in s.tree
    ensures FreedTo(mem, own, mem1, own1, s, n, k + 1)
  {
    forall p | p in own ensures OfFirst(own[p], s.id, n, k + 1) <==> OfFirst(own[p], s.id, n, k) {
      if !n.Low? && own[p].Page? && own[p].id == s.id && Below(own[p].node, Child(n, k)) {
        assert Of(own[p], s.id, n);
        assert Parent(own[p].node) in s.tree;
      }
    }
  }

  /** With all children freed, freeing the page itself frees the subtree. */
  lemma FreedDone(mem: Mem, own: Owners, mem1: Mem, own1: Owners, s: Space, n: Node)
    requires Sub(mem, own, s, n) && FreedTo(mem, own, mem1, own1, s, n, ENTRIES)
    ensures s.tree[n] in own1 && own1[s.tree[n]] == Page(s.id, n)
    ensures Freed(mem, own, mem1, own1[s.tree[n] := Free], s, n)
  {
    hide Below, Under;
    BelowSelf(n);
    UnderItself(n);
    var own2 := own1[s.tree[n] := Free];
    assert s.tree[n] in own.Keys;
    forall p | p in own && own[p].Page? && own[p].id == s.id
      ensures Of(own[p], s.id, n) <==> p == s.tree[n] || OfFirst(own[p], s.id, n, ENTRIES)
    {
      UnderBelow(own[p].node, n);
      if Of(own[p], s.id, n) { UnderAll(own[p].node, n); }
    }
  }

  lemma UnderBelow(m: Node, n: Node)
    ensures Under(m, n, ENTRIES) ==> Below(m, n)
  {
  }

  lemma UnderItself(n: Node)
    ensures !Under(n, n, ENTRIES)
  {
  }

  // ----- the whole table

  ghost predicate Empty(mem: Mem, s: Space) {
    forall v: Vpn :: Look(mem, s, v) == NOPTE
  }

  /** A table without translations is a tree without leaf entries. */
  lemma EmptySub(mem: Mem, own: Owners, s: Space)
    requires SpaceOk(mem, own, s) && Empty(mem, s)
    ensures Sub(mem, own, s, Root)
  {
    hide Px, UserOwned, Clean, Look, Empty;
    forall m | m in s.tree && s.tree[m] in mem ensures EntriesOk(mem, s, m) {
      if m.Low? { LowBlank(mem, s, m); }
    }
  }

  lemma LowBlank(mem: Mem, s: Space, n: Node)
    requires Empty(mem, s) && n.Low? && NodeOk(n) && n in s.tree && s.tree[n] in mem
    ensures EntriesOk(mem, s, n)
  {
    hide Px;
    forall k: nat | k < ENTRIES ensures mem[s.tree[n]][k] == NOPTE {
      var v := Compose(n.i, n.j, k);
      ComposePx(n.i, n.j, k);
      assert Look(mem, s, v) == NOPTE;
    }
  }

  /** The page number with the given indices. */
  function Compose(i: nat, j: nat, k: nat): Vpn
    requires i < ROOTUSED && j < ENTRIES && k < ENTRIES
  {
    (i * 512 + j) * 512 + k
  }

  lemma ComposePx(i: nat, j: nat, k: nat)
    requires i < ROOTUSED && j < ENTRIES && k < ENTRIES
    ensures var v := Compose(i, j, k); Px(2, v) == i && Px(1, v) == j && Px(0, v) == k
  {
    var v := Compose(i, j, k);
    Split(i * 512 + j, k);
    Split(i, j);
    assert v / 262144 == i;
  }

  lemma Split(a: nat, b: nat)
    requires b < 512
    ensures (a * 512 + b) / 512 == a && (a * 512 + b) % 512 == b
  {
  }

  predicate Belongs(u: Use, id: nat) {
    !u.Free? && !u.Kernel? && !u.Trap? && u.id == id
  }

  /** Every page of the space is free and nothing else changed hands. */
  ghost predicate Gone(own: Owners, own': Owners, id: nat) {
    own'.Keys == own.Keys && forall p | p in own :: own'[p] == if Belongs(own[p], id) then Free else own[p]
  }

  lemma EmptyGone(mem: Mem, own: Owners, s: Space, mem1: Mem, own1: Owners, mem2: Mem, own2: Owners)
    requires Sound(mem1, own1, s) && Empty(mem1, s) && Shrinks(own, own1, s.id)
    requires Freed(mem1, own1, mem2, own2, s, Root) && NoHand(own, s.id)
    ensures Gone(own, own2, s.id)
  {
    hide Look, Placed, Linked, Clean, Empty;
    NoUser(mem1, own1, s);
    forall p | p in own ensures own2[p] == if Belongs(own[p], s.id) then Free else own[p] {
      assert p in own1.Keys;
    }
  }

  lemma NoUser(mem: Mem, own: Owners, s: Space)
    requires UserOwned(mem, own, s) && Empty(mem, s)
    ensures forall p | p in own :: !(own[p].User? && own[p].id == s.id)
  {
    hide Look;
  }

  lemma FreedFrame(mem: Mem, own: Owners, mem': Mem, own': Owners, s: Space)
    requires Freed(mem, own, mem', own', s, Root) && (forall p | p in mem' :: p in mem)
    ensures Frame(mem, own, mem', own', s.id)
  {
  }

  /** Only the first n pages are mapped. */
  ghost predicate UserOnly(mem: Mem, s: Space, n: nat) {
    forall v: Vpn | n <= v :: Look(mem, s, v) == NOPTE
  }

  lemma ClearedEmpty(mem: Mem, s: Space, mem': Mem, n: nat)
    requires UserOnly(mem, s, n) && Cleared(mem, s, mem', s, 0, n)
    ensures Empty(mem', s)
  {
    hide Look;
  }

  // ----- creating a page table

  ghost predicate Fresh(own: Owners, id: nat) {
    forall p | p in own :: !Belongs(own[p], id)
  }

  ghost function RootSpace(id: nat, p: nat): Space {
    Space(id, p, map[Root := p])
  }

  lemma NewRoot(mem: Mem, own: Owners, id: nat, p: nat)
    requires Fresh(own, id) && p in own && own[p] == Free
    ensures var mem', own' := mem[p := Blank(ENTRIES)], own[p := Page(id, Root)];
            Sound(mem', own', RootSpace(id, p)) && Empty(mem', RootSpace(id, p)) && Frame(mem, own, mem', own', id)
  {
    hide Px;
  }

  lemma EmptyAt(mem: Mem, s: Space)
    requires Empty(mem, s)
    ensures forall v: Vpn :: !Look(mem, s, v).v
    ensures UserOnly(mem, s, 0)
  {
    hide Look;
  }

  lemma SameEmpty(mem: Mem, s: Space, mem': Mem, s': Space)
    requires Empty(mem, s) && SameLook(mem, s, mem', s')
    ensures UserOnly(mem', s', 0)
  {
    hide Look;
  }

  lemma GrowsNoHand(own: Owners, own': Owners, id: nat)
    requires Grows(own, own', id, {}) && NoHand(own, id)
    ensures NoHand(own', id)
  {
    forall p | p in own' ensures own'[p] != Hand(id) { assert p in own.Keys; }
  }

  /** What was built from nothing and is gone again leaves the owners as they were. */
  lemma FreshGone(mem: Mem, own: Owners, mem': Mem, own1: Owners, own2: Owners, id: nat)
    requires Fresh(own, id) && Frame(mem, own, mem', own1, id) && Gone(own1, own2, id)
    ensures own2 == own
  {
    forall p | p in own ensures p in own2 && own2[p] == own[p] {
      assert p in own1.Keys;
    }
    forall p | p in own2 ensures p in own { assert p in own1.Keys; }
  }

  /** The address space of a process of n user pages. */
  ghost predicate Layout(mem: Mem, s: Space, n: nat, trampoline: nat, trapframe: nat) {
    && n <= TRAPFRAME
    && Look(mem, s, TRAMPOLINE) == LeafPte(trampoline, Perm(true, false, true, false))
    && Look(mem, s, TRAPFRAME) == LeafPte(trapframe, Perm(true, true, false, false))
    && forall v: Vpn | n <= v < TRAPFRAME :: Look(mem, s, v) == NOPTE
  }

  lemma OnlyTrampoline(mem: Mem, s: Space, mem': Mem, s': Space, e: Pte)
    requires Empty(mem, s) && Changed(mem, s, mem', s', TRAMPOLINE, e)
    ensures forall v: Vpn | v != TRAMPOLINE :: !Look(mem', s', v).v
  {
    hide Look;
  }

  lemma TrampolineCleared(mem: Mem, s: Space, mem1: Mem, s1: Space, mem2: Mem, s2: Space, mem3: Mem, e: Pte)
    requires Empty(mem, s) && Changed(mem, s, mem1, s1, TRAMPOLINE, e) && SameLook(mem1, s1, mem2, s2)
    requires Cleared(mem2, s2, mem3, s2, TRAMPOLINE, 1)
    ensures UserOnly(mem3, s2, 0)
  {
    hide Look;
  }

  lemma NewLayout(mem: Mem, s: Space, mem1: Mem, s1: Space, mem2: Mem, s2: Space, trampoline: nat, trapframe: nat)
    requires Empty(mem, s) && Changed(mem, s, mem1, s1, TRAMPOLINE, LeafPte(trampoline, Perm(true, false, true, false)))
    requires Changed(mem1, s1, mem2, s2, TRAPFRAME, LeafPte(trapframe, Perm(true, true, false, false)))
    ensures Layout(mem2, s2, 0, trampoline, trapframe)
  {
    hide Look;
  }

  lemma LayoutCleared(mem: Mem, s: Space, mem1: Mem, mem2: Mem, n: nat, trampoline: nat, trapframe: nat)
    requires Layout(mem, s, n, trampoline, trapframe) && Cleared(mem, s, mem1, s, TRAMPOLINE, 1)
    requires Cleared(mem1, s, mem2, s, TRAPFRAME, 1)
    ensures n <= TRAPFRAME && UserOnly(mem2, s, n)
  {
    hide Look;
  }

  lemma ShrinksGone(own: Owners, own1: Owners, own2: Owners, id: nat)
    requires Shrinks(own, own1, id) && Gone(own1, own2, id)
    ensures Gone(own, own2, id)
  {
    forall p | p in own ensures own2[p] == if Belongs(own[p], id) then Free else own[p] {
      assert p in own1.Keys;
    }
  }
}
