/** The memory of all processes: allocproc, fork, sbrk, page faults and freeproc, over any run. */
module UserMemory {
  import opened Options
  import opened Sv39
  import opened Uvm
  import opened Teardown
  import opened Vm
  import opened Sets

  const TWO64: nat := 0x1_0000_0000_0000_0000

  datatype Proc = Proc(root: nat, sz: nat, trapframe: nat)

  /** A process: its page table, its size and its trapframe page. */
  ghost predicate ProcOk(mem: Mem, own: Owners, s: Space, p: Proc, id: nat, trampoline: nat) {
    && Sound(mem, own, s) && s.id == id && s.root == p.root
    && p.sz <= TRAPFRAME * PGSIZE && Layout(mem, s, Pages(p.sz), trampoline, p.trapframe)
    && p.trapframe in own && own[p.trapframe] == Trap(id)
  }

  /** Every page is free, the kernel's, or belongs to a live process. */
  ghost predicate Accounted(own: Owners, procs: map<nat, Proc>) {
    forall q | q in own ::
      own[q].Free? || own[q].Kernel? ||
          if own[q].Trap? then own[q].pid in procs && procs[own[q].pid].trapframe == q
          else own[q].id in procs
  }

  ghost predicate AllOk(mem: Mem, own: Owners, spaces: map<nat, Space>, procs: map<nat, Proc>, trampoline: nat) {
    && spaces.Keys == procs.Keys
    && (forall id | id in procs :: ProcOk(mem, own, spaces[id], procs[id], id, trampoline))
  }

  lemma LayoutKept(mem: Mem, s: Space, mem': Mem, s': Space, n: nat, trampoline: nat, trapframe: nat)
    requires Layout(mem, s, n, trampoline, trapframe) && SameLook(mem, s, mem', s')
    ensures Layout(mem', s', n, trampoline, trapframe)
  {
    hide Look;
  }

  /** What one process does leaves another one alone. */
  lemma OtherKept(mem: Mem, own: Owners, mem': Mem, own': Owners, id: nat, s: Space, p: Proc, j: nat, trampoline: nat)
    requires Frame(mem, own, mem', own', id) && ProcOk(mem, own, s, p, j, trampoline) && j != id
    ensures ProcOk(mem', own', s, p, j, trampoline) && SameLook(mem, s, mem', s)
  {
    hide SpaceOk, Look, SameLook, Layout;
    FrameSound(mem, own, mem', own', id, s);
    LayoutKept(mem, s, mem', s, Pages(p.sz), trampoline, p.trapframe);
    assert p.trapframe in own'.Keys;
  }

  lemma AllUpdated(mem: Mem, own: Owners, mem': Mem, own': Owners, spaces: map<nat, Space>, procs: map<nat, Proc>,
                   id: nat, s: Space, p: Proc, trampoline: nat)
    requires AllOk(mem, own, spaces, procs, trampoline) && Frame(mem, own, mem', own', id)
    requires ProcOk(mem', own', s, p, id, trampoline)
    ensures AllOk(mem', own', spaces[id := s], procs[id := p], trampoline)
  {
    hide ProcOk, Frame;
    var spaces', procs' := spaces[id := s], procs[id := p];
    forall j | j in procs' ensures ProcOk(mem', own', spaces'[j], procs'[j], j, trampoline) {
      if j != id { OtherKept(mem, own, mem', own', id, spaces[j], procs[j], j, trampoline); }
    }
  }

  lemma AccountedUpdated(mem: Mem, own: Owners, mem': Mem, own': Owners, procs: map<nat, Proc>, id: nat, p: Proc)
    requires Accounted(own, procs) && Frame(mem, own, mem', own', id)
    requires id in procs && procs[id].trapframe == p.trapframe
    ensures Accounted(own', procs[id := p])
  {
    forall q | q in own' && !own'[q].Free? && !own'[q].Kernel?
      ensures if own'[q].Trap? then own'[q].pid in procs && procs[own'[q].pid].trapframe == q else own'[q].id in procs
    {
      assert q in own.Keys;
    }
  }

  /** A page number inside the process. */
  lemma InsidePages(va: nat, sz: nat)
    requires va < sz <= TRAPFRAME * PGSIZE
    ensures va / PGSIZE < Pages(sz) <= TRAPFRAME
  {
  }

  lemma PagesBound(sz: nat)
    requires sz <= TRAPFRAME * PGSIZE
    ensures Pages(sz) <= TRAPFRAME
  {
  }

  lemma One(mem: Mem, own: Owners, spaces: map<nat, Space>, procs: map<nat, Proc>, trampoline: nat, id: nat)
    requires AllOk(mem, own, spaces, procs, trampoline) && id in procs
    ensures id in spaces && ProcOk(mem, own, spaces[id], procs[id], id, trampoline)
    ensures Sound(mem, own, spaces[id]) && spaces[id].id == id && spaces[id].root == procs[id].root
    ensures procs[id].sz <= TRAPFRAME * PGSIZE
    ensures Layout(mem, spaces[id], Pages(procs[id].sz), trampoline, procs[id].trapframe)
  {
    hide Sound, Layout;
  }

  /** A process after its address space changed. */
  lemma Updated(mem: Mem, own: Owners, mem': Mem, own': Owners, spaces: map<nat, Space>, procs: map<nat, Proc>,
                id: nat, s: Space, p: Proc, trampoline: nat)
    requires AllOk(mem, own, spaces, procs, trampoline) && Accounted(own, procs) && Frame(mem, own, mem', own', id)
    requires id in procs
    requires Sound(mem', own', s) && s.id == id && s.root == p.root && p.root == procs[id].root
    requires p.sz <= TRAPFRAME * PGSIZE && Layout(mem', s, Pages(p.sz), trampoline, p.trapframe)
    requires p.trapframe == procs[id].trapframe
    ensures AllOk(mem', own', spaces[id := s], procs[id := p], trampoline) && Accounted(own', procs[id := p])
    ensures p == procs[id] ==> procs[id := p] == procs
  {
    hide AllOk, Accounted, Sound, Layout;
    One(mem, own, spaces, procs, trampoline, id);
    assert p.trapframe in own'.Keys;
    AllUpdated(mem, own, mem', own', spaces, procs, id, s, p, trampoline);
    AccountedUpdated(mem, own, mem', own', procs, id, p);
  }

  lemma LayoutChanged(mem: Mem, s: Space, mem': Mem, s': Space, n: nat, trampoline: nat, trapframe: nat, v: Vpn, e: Pte)
    requires Layout(mem, s, n, trampoline, trapframe) && Changed(mem, s, mem', s', v, e) && v < n
    ensures Layout(mem', s', n, trampoline, trapframe)
  {
    hide Look;
  }

  ghost function SpaceOf(spaces: map<nat, Space>, id: nat): Space {
    if id in spaces then spaces[id] else Space(id, 0, map[])
  }

  /** What a page fault at va does: it maps a new zeroed page at an address of the process that was
      not mapped, or nothing; the latter only for an address outside, a page already there, or when
      memory runs out. */
  ghost predicate Faulted(mem: Mem, s: Space, mem': Mem, s': Space, data': map<nat, Content>, sz: nat, va: nat,
                          r: Option<nat>, nfree: nat) {
    if r == None then
      SameLook(mem, s, mem', s') && (va >= sz || (va / PGSIZE < MAXVPN && Look(mem, s, va / PGSIZE).v) || nfree <= 2)
    else
      && va < sz && va / PGSIZE < TRAPFRAME && !Look(mem, s, va / PGSIZE).v
      && Changed(mem, s, mem', s', va / PGSIZE, LeafPte(r.value, Perm(true, true, false, true)))
      && At(data', r.value) == ZEROED
  }

  /** What growproc(n) does for n > 0: it maps zeroed pages up to the new size, or changes nothing; the
      latter only past TRAPFRAME or when memory runs out. */
  ghost predicate Extended(mem: Mem, s: Space, mem': Mem, s': Space, data': map<nat, Content>, sz: nat, n: nat,
                           ok: bool, nfree: nat) {
    if !ok then
      SameLook(mem, s, mem', s') && (sz + n > TRAPFRAME * PGSIZE || nfree < 3 * (Pages(sz + n) - Pages(sz)))
    else
      && sz + n <= TRAPFRAME * PGSIZE && Pages(sz) <= Pages(sz + n)
      && Grown(mem, s, mem', s', data', Pages(sz), Pages(sz + n) - Pages(sz), Perm(true, true, false, true))
  }

  /** What it does for n < 0 with a new size m: the pages above m, and only they, lose their mappings and
      are free. */
  ghost predicate Reduced(mem: Mem, s: Space, mem': Mem, s': Space, sz: nat, m: nat, nfree: nat, nfree': nat) {
    && m <= sz && Pages(m) <= Pages(sz) <= TRAPFRAME
    && Cleared(mem, s, mem', s', Pages(m), Pages(sz) - Pages(m))
    && (forall w: Vpn | Pages(m) <= w < TRAPFRAME :: !Look(mem', s', w).v)
    && nfree' == nfree + |MappedIn(mem, s, Pages(m), Pages(sz) - Pages(m))|
  }

  lemma NothingCleared(mem: Mem, s: Space, mem': Mem, v: nat)
    ensures Cleared(mem, s, mem', s, v, 0) ==> SameLook(mem, s, mem', s)
    ensures v <= MAXVPN ==> |MappedIn(mem, s, v, 0)| == 0
  {
    hide Look;
    if v <= MAXVPN { MappedNone(mem, s, v); }
  }

  /** Growing, or only raising the size, and shrinking again. */
  lemma TakenBack(mem: Mem, s: Space, mem1: Mem, s1: Space, mem2: Mem, s2: Space, sz: nat, n: nat, trampoline: nat,
                  trapframe: nat)
    requires Layout(mem, s, Pages(sz), trampoline, trapframe) && Pages(sz) <= Pages(sz + n) <= TRAPFRAME
    requires s1.id == s.id && s1.root == s.root
    requires forall w: Vpn | !(Pages(sz) <= w < Pages(sz + n)) :: Look(mem1, s1, w) == Look(mem, s, w)
    requires Cleared(mem1, s1, mem2, s2, Pages(sz), Pages(sz + n) - Pages(sz))
    ensures SameLook(mem, s, mem2, s2)
  {
    hide Look, Pages;
  }

  lemma GrownElse(mem: Mem, s: Space, mem': Mem, s': Space, data: map<nat, Content>, v: nat, n: nat)
    requires Grown(mem, s, mem', s', data, v, n, Perm(true, true, false, true))
    ensures s'.id == s.id && s'.root == s.root
    ensures forall w: Vpn | !(v <= w < v + n) :: Look(mem', s', w) == Look(mem, s, w)
  {
    hide Look;
  }

  lemma LayoutAbove(mem: Mem, s: Space, n: nat, trampoline: nat, trapframe: nat)
    requires Layout(mem, s, n, trampoline, trapframe)
    ensures forall w: Vpn | n <= w < TRAPFRAME :: !Look(mem, s, w).v
  {
    hide Look;
  }

  lemma LayoutGrown(mem: Mem, s: Space, mem': Mem, s': Space, data: map<nat, Content>, n: nat, m: nat, trampoline: nat,
                    trapframe: nat, perm: Perm)
    requires n <= m <= TRAPFRAME && Layout(mem, s, n, trampoline, trapframe)
    requires Grown(mem, s, mem', s', data, n, m - n, perm)
    ensures Layout(mem', s', m, trampoline, trapframe)
  {
    hide Look;
  }

  lemma LayoutShrunk(mem: Mem, s: Space, mem': Mem, n: nat, m: nat, trampoline: nat, trapframe: nat)
    requires m <= n && Layout(mem, s, n, trampoline, trapframe) && Cleared(mem, s, mem', s, m, n - m)
    ensures Layout(mem', s, m, trampoline, trapframe)
  {
    hide Look;
  }

  lemma LayoutMore(mem: Mem, s: Space, n: nat, m: nat, trampoline: nat, trapframe: nat)
    requires n <= m <= TRAPFRAME && Layout(mem, s, n, trampoline, trapframe)
    ensures Layout(mem, s, m, trampoline, trapframe)
  {
    hide Look;
  }

  /** Processes translate as before. */
  ghost predicate OthersKept(mem: Mem, spaces: map<nat, Space>, mem': Mem) {
    forall j | j in spaces :: SameLook(mem, spaces[j], mem', spaces[j])
  }

  lemma AllSame(mem: Mem, spaces: map<nat, Space>)
    ensures OthersKept(mem, spaces, mem)
  {
    hide SameLook;
    forall j | j in spaces { SameLookSelf(mem, spaces[j]); }
  }

  lemma AllKept(mem: Mem, own: Owners, mem': Mem, own': Owners, spaces: map<nat, Space>, procs: map<nat, Proc>,
                id: nat, trampoline: nat)
    requires AllOk(mem, own, spaces, procs, trampoline) && Frame(mem, own, mem', own', id) && id !in procs
    ensures AllOk(mem', own', spaces, procs, trampoline) && OthersKept(mem, spaces, mem')
  {
    hide ProcOk, Frame, SameLook;
    forall j | j in procs
      ensures ProcOk(mem', own', spaces[j], procs[j], j, trampoline) && SameLook(mem, spaces[j], mem', spaces[j])
    {
      OtherKept(mem, own, mem', own', id, spaces[j], procs[j], j, trampoline);
    }
    assert forall j | j in spaces :: j in procs.Keys;
  }

  /** A free page becomes the trapframe page of a new process. */
  lemma TrapTaken(mem: Mem, own: Owners, spaces: map<nat, Space>, procs: map<nat, Proc>, trampoline: nat, id: nat,
                  p: nat)
    requires AllOk(mem, own, spaces, procs, trampoline) && Accounted(own, procs) && id !in procs && p in own
    requires own[p] == Free
    ensures AllOk(mem, own[p := Trap(id)], spaces, procs, trampoline) && Fresh(own[p := Trap(id)], id)
  {
    hide SpaceOk, Layout;
    forall j | j in procs ensures ProcOk(mem, own[p := Trap(id)], spaces[j], procs[j], j, trampoline) {
      Repurposed(mem, own, spaces[j], p, Trap(id));
    }
  }

  lemma TrapReturned(own: Owners, p: nat, id: nat)
    requires p in own && own[p] == Free
    ensures own[p := Trap(id)][p := Free] == own
  {
  }

  lemma TrapFreed(mem: Mem, own: Owners, spaces: map<nat, Space>, procs: map<nat, Proc>, trampoline: nat, id: nat,
                  p: nat)
    requires AllOk(mem, own, spaces, procs, trampoline) && id !in procs && p in own && own[p] == Trap(id)
    ensures AllOk(mem, own[p := Free], spaces, procs, trampoline)
  {
    hide SpaceOk, Layout;
    forall j | j in procs ensures ProcOk(mem, own[p := Free], spaces[j], procs[j], j, trampoline) {
      Repurposed(mem, own, spaces[j], p, Free);
    }
  }

  lemma ProcAdded(mem: Mem, own: Owners, mem': Mem, own': Owners, spaces: map<nat, Space>, procs: map<nat, Proc>,
                  trampoline: nat, id: nat, s: Space, p: Proc)
    requires Accounted(own, procs) && id !in procs && p.trapframe in own && own[p.trapframe] == Free
    requires Frame(mem, own[p.trapframe := Trap(id)], mem', own', id) && AllOk(mem', own', spaces, procs, trampoline)
    requires Sound(mem', own', s) && s.id == id && s.root == p.root && p.sz == 0
    requires Layout(mem', s, 0, trampoline, p.trapframe)
    ensures AllOk(mem', own', spaces[id := s], procs[id := p], trampoline) && Accounted(own', procs[id := p])
    ensures procs[id := p] - {id} == procs && spaces[id := s] - {id} == spaces
    ensures OwnFreed(own', own, id, p.trapframe)
  {
    hide Sound, Layout;
    assert p.trapframe in own[p.trapframe := Trap(id)].Keys;
    assert p.trapframe in own'.Keys;
    assert Pages(0) == 0;
    var procs' := procs[id := p];
    forall q | q in own' && !own'[q].Free? && !own'[q].Kernel?
      ensures if own'[q].Trap? then own'[q].pid in procs' && procs'[own'[q].pid].trapframe == q
              else own'[q].id in procs'
    {
      assert q in own[p.trapframe := Trap(id)].Keys;
    }
    assert id !in spaces.Keys;
  }

  /** Every page of the process and its trapframe page are free, and no other page changed. */
  ghost predicate OwnFreed(own: Owners, own': Owners, id: nat, trapframe: nat) {
    own'.Keys == own.Keys && forall q | q in own ::
        own'[q] == if q == trapframe || Belongs(own[q], id) then Free else own[q]
  }

  lemma TrapIsUsed(mem: Mem, own: Owners, s: Space, p: Proc, id: nat, trampoline: nat)
    requires ProcOk(mem, own, s, p, id, trampoline)
    ensures p.trapframe in own && own[p.trapframe] == Trap(id)
  {
    hide Sound, Layout;
  }

  /** freeproc frees the trapframe page first. */
  lemma TrapOff(mem: Mem, own: Owners, spaces: map<nat, Space>, procs: map<nat, Proc>, trampoline: nat, id: nat,
                s: Space, p: Proc)
    requires AllOk(mem, own, spaces, procs, trampoline) && id in procs && id in spaces && s == spaces[id]
    requires p == procs[id]
    ensures p.trapframe in own && Sound(mem, own[p.trapframe := Free], s)
    ensures AllOk(mem, own[p.trapframe := Free], spaces - {id}, procs - {id}, trampoline)
  {
    hide SpaceOk, Layout;
    var own' := own[p.trapframe := Free];
    assert ProcOk(mem, own, s, p, id, trampoline);
    Repurposed(mem, own, s, p.trapframe, Free);
    forall j | j in procs && j != id ensures ProcOk(mem, own', spaces[j], procs[j], j, trampoline) {
      Repurposed(mem, own, spaces[j], p.trapframe, Free);
    }
  }

  lemma ProcGone(own: Owners, own1: Owners, own2: Owners, procs: map<nat, Proc>, id: nat)
    requires Accounted(own, procs) && id in procs && procs[id].trapframe in own && own[procs[id].trapframe] == Trap(id)
    requires own1 == own[procs[id].trapframe := Free] && Gone(own1, own2, id)
    ensures Accounted(own2, procs - {id}) && OwnFreed(own, own2, id, procs[id].trapframe)
  {
    assert own1.Keys == own.Keys;
    forall q | q in own2 && !own2[q].Free? && !own2[q].Kernel?
      ensures var m := procs - {id};
              if own2[q].Trap? then own2[q].pid in m && m[own2[q].pid].trapframe == q else own2[q].id in m
    {
      assert q in own1.Keys && own2[q] == own[q];
    }
  }

  /** The child's user pages are copies of the parent's. */
  ghost predicate ForkedAs(mem: Mem, s: Space, c: Space, data: map<nat, Content>, sz: nat) {
    forall w: Vpn | w < Pages(sz) :: CopiedAt(mem, s, c, data, w)
  }

  lemma StillThere(procs: map<nat, Proc>, procs': map<nat, Proc>, child: nat, id: nat)
    requires procs' - {child} == procs && id in procs
    ensures id in procs' && procs'[id] == procs[id] && id != child
  {
    assert id in (procs' - {child}).Keys;
  }

  lemma PagesZero()
    ensures Pages(0) == 0
  {
  }

  lemma AllLess(mem: Mem, own: Owners, spaces: map<nat, Space>, procs: map<nat, Proc>, trampoline: nat, id: nat)
    requires AllOk(mem, own, spaces, procs, trampoline)
    ensures AllOk(mem, own, spaces - {id}, procs - {id}, trampoline)
  {
    hide ProcOk;
  }

  lemma OthersTrans(mem: Mem, spaces: map<nat, Space>, mem1: Mem, mem2: Mem)
    requires OthersKept(mem, spaces, mem1) && OthersKept(mem1, spaces, mem2)
    ensures OthersKept(mem, spaces, mem2)
  {
    hide SameLook;
    forall j | j in spaces { SameLookTrans(mem, spaces[j], mem1, spaces[j], mem2, spaces[j]); }
  }

  /** Whatever the process does, freeing what it has gives back the owners before it was made. */
  lemma UndoKept(mem: Mem, own: Owners, mem': Mem, own': Owners, before: Owners, id: nat, trapframe: nat)
    requires OwnFreed(own, before, id, trapframe) && Frame(mem, own, mem', own', id)
    ensures OwnFreed(own', before, id, trapframe)
  {
    forall q | q in own' ensures before[q] == if q == trapframe || Belongs(own'[q], id) then Free else own'[q] {
      assert q in own.Keys;
    }
  }

  lemma UndoSame(own: Owners, own': Owners, before: Owners, id: nat, trapframe: nat)
    requires OwnFreed(own, before, id, trapframe) && OwnFreed(own, own', id, trapframe)
    ensures own' == before
  {
    assert own'.Keys == before.Keys;
    forall q | q in own' ensures own'[q] == before[q] { assert q in own.Keys; }
  }

  lemma UndoData(own: Owners, before: Owners, id: nat, trapframe: nat, data: map<nat, Content>,
                 data': map<nat, Content>)
    requires OwnFreed(own, before, id, trapframe) && DataKept(own, data, data')
    ensures DataKept(before, data, data')
  {
    hide At;
    forall q | q in before && before[q] != Free ensures At(data', q) == At(data, q) { assert q in own.Keys; }
  }

  lemma LayoutCopied(mem: Mem, s: Space, c: Space, mem': Mem, t: Space, data: map<nat, Content>, n: nat,
                     trampoline: nat, trapframe: nat)
    requires n <= TRAPFRAME && Layout(mem, c, 0, trampoline, trapframe) && Copied(mem, s, c, mem', t, data, n)
    ensures Layout(mem', t, n, trampoline, trapframe)
  {
    hide Look, CopiedAt;
  }

  lemma ForkMade(mem: Mem, s: Space, c: Space, mem': Mem, t: Space, data: map<nat, Content>, sz: nat)
    requires Copied(mem, s, c, mem', t, data, Pages(sz))
    ensures ForkedAs(mem', s, t, data, sz)
  {
    hide CopiedAt;
  }

  datatype Op =
    | Create(id: nat)
    | Fork(parent: nat, child: nat)
    | Sbrk(id: nat, n: int, eager: bool)
    | Fault(id: nat, va: nat)
    | Exit(id: nat)

  /** The argument of sbrk is an int. */
  predicate OpOk(op: Op) {
    op.Sbrk? ==> -0x8000_0000 <= op.n < 0x8000_0000
  }

  /** The memory and the processes at one moment. */
  datatype World = World(mem: Mem, own: Owners, data: map<nat, Content>, nfree: nat, procs: map<nat, Proc>,
                         spaces: map<nat, Space>)

  /** What a call answers: whether it made a process, or what sbrk or vmfault returns. */
  datatype Answer = Nothing | Made(ok: bool) | Told(r: Option<nat>)

  /** The memory of allocproc: a new process of size 0 that has six pages at most, or nothing for want of
      pages. */
  ghost predicate Created(w: World, id: nat, ok: bool, u: World) {
    && u.data == w.data && OthersKept(w.mem, w.spaces, u.mem)
    && if !ok then u.procs == w.procs && u.spaces == w.spaces && u.own == w.own && w.nfree < 6
       else
         && id in u.procs && u.procs[id].sz == 0 && u.procs - {id} == w.procs && u.spaces - {id} == w.spaces
         && OwnFreed(u.own, w.own, id, u.procs[id].trapframe) && u.nfree + 6 >= w.nfree
  }

  /** The memory of kfork: the child has copies of the parent's pages at the same addresses, or nothing is
      left of it. */
  ghost predicate Forked(w: World, parent: nat, child: nat, ok: bool, u: World)
    requires parent in w.procs
  {
    && DataKept(w.own, w.data, u.data) && OthersKept(w.mem, w.spaces, u.mem)
    && var sz := w.procs[parent].sz;
    if !ok then u.procs == w.procs && u.spaces == w.spaces && u.own == w.own && w.nfree < 6 + 3 * Pages(sz)
    else
      && child in u.procs && u.procs[child].sz == sz && u.procs - {child} == w.procs && u.spaces - {child} == w.spaces
      && OwnFreed(u.own, w.own, child, u.procs[child].trapframe)
      && ForkedAs(u.mem, SpaceOf(u.spaces, parent), SpaceOf(u.spaces, child), u.data, sz)
  }

  /** sys_sbrk: the old size and sz + n bytes from now on, or no answer and no change. */
  ghost predicate Sbrked(w: World, id: nat, n: int, eager: bool, r: Option<nat>, u: World)
    requires id in w.procs
  {
    var sz, s, t := w.procs[id].sz, SpaceOf(w.spaces, id), SpaceOf(u.spaces, id);
    && DataKept(w.own, w.data, u.data) && Frame(w.mem, w.own, u.mem, u.own, id)
    && (r.Some? ==> r.value == sz) && (r == None ==> u.procs == w.procs && n > 0)
    && (r.Some? && sz + n >= 0 ==> u.procs == w.procs[id := w.procs[id].(sz := sz + n)])
    && (n == 0 || sz + n < 0 ==> u.procs == w.procs && u.nfree == w.nfree && SameLook(w.mem, s, u.mem, t))
    && (n < 0 <= sz + n ==> Reduced(w.mem, s, u.mem, t, sz, sz + n, w.nfree, u.nfree))
    && (eager && n > 0 ==> Extended(w.mem, s, u.mem, t, u.data, sz, n, r.Some?, w.nfree))
    && (!eager && n >= 0 ==>
          && u.mem == w.mem && u.own == w.own && u.spaces == w.spaces
          && (r.Some? <==> sz + n <= TRAPFRAME * PGSIZE))
  }

  /** The memory of freeproc: everything the process had is free. */
  ghost predicate Exited(w: World, id: nat, u: World)
    requires id in w.procs
  {
    && u.data == w.data && u.procs == w.procs - {id} && u.spaces == w.spaces - {id}
    && OwnFreed(w.own, u.own, id, w.procs[id].trapframe) && OthersKept(w.mem, w.spaces - {id}, u.mem)
  }

  ghost predicate Did(w: World, op: Op, a: Answer, u: World) {
    match op
    case Create(id) => if id in w.procs then a == Nothing && u == w else a.Made? && Created(w, id, a.ok, u)
    case Fork(p, c) =>
      if p !in w.procs || c in w.procs then a == Nothing && u == w else a.Made? && Forked(w, p, c, a.ok, u)
    case Sbrk(id, n, eager) =>
      if id !in w.procs then a == Nothing && u == w else a.Told? && Sbrked(w, id, n, eager, a.r, u)
    case Fault(id, va) =>
      if id !in w.procs then a == Nothing && u == w
      else
        && a.Told? && u.procs == w.procs && DataKept(w.own, w.data, u.data) && Frame(w.mem, w.own, u.mem, u.own, id)
        && Faulted(w.mem, SpaceOf(w.spaces, id), u.mem, SpaceOf(u.spaces, id), u.data, w.procs[id].sz, va, a.r, w.nfree)
    case Exit(id) => a == Nothing && if id !in w.procs then u == w else Exited(w, id, u)
  }

  /** The kernel's own pages stay its own. */
  ghost predicate KernelKept(own: Owners, own': Owners) {
    own'.Keys == own.Keys && forall q | q in own :: own[q] == Kernel <==> own'[q] == Kernel
  }

  lemma KernelSelf(own: Owners)
    ensures KernelKept(own, own)
  {
  }

  lemma KernelTrans(a: Owners, b: Owners, c: Owners)
    requires KernelKept(a, b) && KernelKept(b, c)
    ensures KernelKept(a, c)
  {
    forall q | q in a ensures a[q] == Kernel <==> c[q] == Kernel { assert q in b.Keys; }
  }

  lemma KernelFrame(mem: Mem, own: Owners, mem': Mem, own': Owners, id: nat)
    requires Frame(mem, own, mem', own', id)
    ensures KernelKept(own, own')
  {
  }

  lemma KernelFreed(own: Owners, own': Owners, id: nat, trapframe: nat)
    requires OwnFreed(own, own', id, trapframe) && trapframe in own && own[trapframe] == Trap(id)
    ensures KernelKept(own, own')
  {
  }

  lemma KernelUndone(own: Owners, before: Owners, id: nat, trapframe: nat)
    requires OwnFreed(own, before, id, trapframe) && trapframe in own && own[trapframe] == Trap(id)
    ensures KernelKept(before, own)
  {
    forall q | q in before ensures before[q] == Kernel <==> own[q] == Kernel { assert q in own.Keys; }
  }

  lemma TrapOf(mem: Mem, own: Owners, spaces: map<nat, Space>, procs: map<nat, Proc>, trampoline: nat, id: nat)
    requires AllOk(mem, own, spaces, procs, trampoline) && id in procs
    ensures procs[id].trapframe in own && own[procs[id].trapframe] == Trap(id)
  {
    hide Sound, Layout;
  }

  /** Without processes every page is free or the kernel's. */
  lemma NothingLeft(own: Owners, own': Owners)
    requires Accounted(own, map[]) && KernelKept(own, own')
    ensures Accounted(own', map[]) ==> own' == own
  {
    if Accounted(own', map[]) {
      forall q | q in own ensures q in own' && own'[q] == own[q] { assert q in own'.Keys; }
      assert own'.Keys == own.Keys;
    }
  }

  lemma SameSize(list: seq<nat>, list': seq<nat>, own: Owners)
    requires FreeIs(list, own) && FreeIs(list', own)
    ensures |list| == |list'|
  {
    NoLonger(list, list');
    NoLonger(list', list);
  }

  class Memory {
    const vm: Vm
    const trampoline: nat
    var procs: map<nat, Proc>
    ghost var spaces: map<nat, Space>

    ghost predicate Inv()
      reads this, vm
    {
      vm.KmemOk() && AllOk(vm.mem, vm.own, spaces, procs, trampoline) && Accounted(vm.own, procs)
    }

    ghost function Now(): World
      reads this, vm
    {
      World(vm.mem, vm.own, vm.data, vm.nfree, procs, spaces)
    }

    /** Before the first process. */
    constructor (vm: Vm, trampoline: nat)
      requires vm.KmemOk() && forall q | q in vm.own :: vm.own[q].Free? || vm.own[q].Kernel?
      ensures Inv() && this.vm == vm && procs == map[]
    {
      this.vm := vm;
      this.trampoline := trampoline;
      procs := map[];
      spaces := map[];
    }

    /** vmfault: map a zeroed page at va if it lies in the process and is not mapped yet. */
    method Vmfault(id: nat, va: nat) returns (r: Option<nat>)
      requires Inv() && id in procs
      modifies vm, `spaces
      ensures Inv() && DataKept(old(vm.own), old(vm.data), vm.data)
      ensures Frame(old(vm.mem), old(vm.own), vm.mem, vm.own, id)
      ensures Faulted(old(vm.mem), SpaceOf(old(spaces), id), vm.mem, SpaceOf(spaces, id), vm.data, old(procs)[id].sz,
                va, r, old(vm.nfree))
    {
      hide AllOk, Accounted, Sound, Look, SameLook, Changed, Layout, Frame, DataKept, Pages, Uses, ProcOk;
      ghost var s := SpaceOf(spaces, id);
      SameLookSelf(vm.mem, s);
      KeptSelf(vm.own, vm.data);
      FrameSelf(vm.mem, vm.own, id);
      if va >= procs[id].sz {
        return None;
      }
      One(vm.mem, vm.own, spaces, procs, trampoline, id);
      InsidePages(va, procs[id].sz);
      var v := va / PGSIZE;
      ghost var p := procs[id];
      var mapped := vm.Ismapped(procs[id].root, v, s);
      if mapped {
        return None;
      }
      ghost var t;
      r, t := vm.AllocMap(procs[id].root, v, ZEROED, Perm(true, true, false, true), s);
      if r == None {
        LayoutKept(old(vm.mem), s, vm.mem, t, Pages(p.sz), trampoline, p.trapframe);
      } else {
        LayoutChanged(old(vm.mem), s, vm.mem, t, Pages(p.sz), trampoline, p.trapframe, v,
            LeafPte(r.value, Perm(true, true, false, true)));
      }
      Updated(old(vm.mem), old(vm.own), vm.mem, vm.own, spaces, procs, id, t, p, trampoline);
      spaces := spaces[id := t];
    }

    /** growproc: grow or shrink process id by n bytes. */
    method Growproc(id: nat, n: int) returns (ok: bool)
      requires Inv() && id in procs && -0x8000_0000 <= n < 0x8000_0000
      modifies vm, `procs, `spaces
      ensures Inv() && DataKept(old(vm.own), old(vm.data), vm.data)
      ensures Frame(old(vm.mem), old(vm.own), vm.mem, vm.own, id)
      ensures !ok ==> procs == old(procs) && n > 0
      ensures ok && old(procs)[id].sz + n >= 0 ==>
                procs == old(procs)[id := old(procs)[id].(sz := old(procs)[id].sz + n)]
      ensures old(procs)[id].sz + n < 0 ==> procs == old(procs)
      ensures n == 0 || old(procs)[id].sz + n < 0 ==>
                && SameLook(old(vm.mem), SpaceOf(old(spaces), id), vm.mem, SpaceOf(spaces, id))
                && vm.nfree == old(vm.nfree)
      ensures n > 0 ==>
                Extended(old(vm.mem), SpaceOf(old(spaces), id), vm.mem, SpaceOf(spaces, id), vm.data,
                         old(procs)[id].sz, n, ok, old(vm.nfree))
      ensures n < 0 <= old(procs)[id].sz + n ==>
                Reduced(old(vm.mem), SpaceOf(old(spaces), id), vm.mem, SpaceOf(spaces, id),
                        old(procs)[id].sz, old(procs)[id].sz + n, old(vm.nfree), vm.nfree)
    {
      hide AllOk, Accounted, Sound, Look, SameLook, Layout, Frame, DataKept, Pages, Uses, ProcOk, Grown, Cleared;
      hide MappedIn;
      One(vm.mem, vm.own, spaces, procs, trampoline, id);
      ghost var s := SpaceOf(spaces, id);
      var p := procs[id];
      SameLookSelf(vm.mem, s);
      KeptSelf(vm.own, vm.data);
      FrameSelf(vm.mem, vm.own, id);
      ClearedNone(vm.mem, s, Pages(p.sz));
      var sz := p.sz;
      ghost var t := s;
      if n > 0 {
        if sz + n > TRAPFRAME * PGSIZE {
          return false;
        }
        PagesBound(sz + n);
        LayoutAbove(vm.mem, s, Pages(sz), trampoline, p.trapframe);
        sz, t := vm.Uvmalloc(p.root, sz, sz + n, Perm(true, true, false, true), s);
        if sz == 0 {
          LayoutKept(old(vm.mem), s, vm.mem, t, Pages(p.sz), trampoline, p.trapframe);
          Updated(old(vm.mem), old(vm.own), vm.mem, vm.own, spaces, procs, id, t, p, trampoline);
          spaces := spaces[id := t];
          return false;
        }
        PagesMono(p.sz, sz);
        LayoutGrown(old(vm.mem), s, vm.mem, t, vm.data, Pages(p.sz), Pages(sz), trampoline, p.trapframe,
            Perm(true, true, false, true));
      } else if n < 0 {
        PagesBound(sz);
        sz := vm.Uvmdealloc(p.root, sz, if sz + n < 0 then sz + n + TWO64 else sz + n, s);
        PagesMono(sz, p.sz);
        LayoutShrunk(old(vm.mem), s, vm.mem, Pages(p.sz), Pages(sz), trampoline, p.trapframe);
        LayoutAbove(vm.mem, s, Pages(sz), trampoline, p.trapframe);
        NothingCleared(old(vm.mem), s, vm.mem, Pages(p.sz));
      }
      Updated(old(vm.mem), old(vm.own), vm.mem, vm.own, spaces, procs, id, t, p.(sz := sz), trampoline);
      spaces := spaces[id := t];
      procs := procs[id := p.(sz := sz)];
      return true;
    }

    /** sys_sbrk: the old size, or None. Lazy growth only raises the size. */
    method Sbrk(id: nat, n: int, eager: bool) returns (r: Option<nat>)
      requires Inv() && id in procs && -0x8000_0000 <= n < 0x8000_0000
      modifies vm, `procs, `spaces
      ensures Inv() && Sbrked(old(Now()), id, n, eager, r, Now())
    {
      hide AllOk, Accounted, Sound, Look, Layout, Frame, DataKept, Pages, ProcOk, Extended, Reduced, SameLook;
      var p := procs[id];
      if eager || n < 0 {
        var ok := Growproc(id, n);
        return if ok then Some(p.sz) else None;
      }
      KeptSelf(vm.own, vm.data);
      SameLookSelf(vm.mem, SpaceOf(spaces, id));
      FrameSelf(vm.mem, vm.own, id);
      One(vm.mem, vm.own, spaces, procs, trampoline, id);
      if p.sz + n > TRAPFRAME * PGSIZE {
        return None;
      }
      PagesBound(p.sz + n);
      PagesMono(p.sz, p.sz + n);
      LayoutMore(vm.mem, spaces[id], Pages(p.sz), Pages(p.sz + n), trampoline, p.trapframe);
      Updated(vm.mem, vm.own, vm.mem, vm.own, spaces, procs, id, spaces[id], p.(sz := p.sz + n), trampoline);
      assert spaces[id := spaces[id]] == spaces;
      procs := procs[id := p.(sz := p.sz + n)];
      return Some(p.sz);
    }

    /** sbrk(n) and then sbrk(-n): if the first succeeds so does the second, and the size and every
        translation are what they were. */
    method SbrkBack(id: nat, n: nat, eager: bool) returns (r: Option<nat>, back: Option<nat>)
      requires Inv() && id in procs && n < 0x8000_0000
      modifies vm, `procs, `spaces
      ensures Inv()
      ensures r.Some? ==> back.Some? && back.value == old(procs)[id].sz + n && procs == old(procs)
      ensures r.Some? ==> SameLook(old(vm.mem), SpaceOf(old(spaces), id), vm.mem, SpaceOf(spaces, id))
    {
      hide AllOk, Accounted, Sound, Look, Layout, Frame, DataKept, Pages, ProcOk, SameLook, Grown, Cleared, MappedIn;
      One(vm.mem, vm.own, spaces, procs, trampoline, id);
      SameLookSelf(vm.mem, SpaceOf(spaces, id));
      ghost var mem, s, p := vm.mem, SpaceOf(spaces, id), procs[id];
      r := Sbrk(id, n, eager);
      back := None;
      if r.Some? {
        ghost var mem1, s1, data := vm.mem, SpaceOf(spaces, id), vm.data;
        var less: int := n;
        back := Sbrk(id, -less, false);
        assert procs == old(procs);
        if n > 0 {
          if eager { GrownElse(mem, s, mem1, s1, data, Pages(p.sz), Pages(p.sz + n) - Pages(p.sz)); }
          TakenBack(mem, s, mem1, s1, vm.mem, SpaceOf(spaces, id), p.sz, n, trampoline, p.trapframe);
        }
      }
    }

    /** The memory of allocproc: a trapframe page and a page table, or nothing. */
    method Allocproc(id: nat) returns (ok: bool)
      requires Inv() && id !in procs
      modifies vm, `procs, `spaces
      ensures Inv() && Created(old(Now()), id, ok, Now())
    {
      hide AllOk, Accounted, Sound, Look, Layout, Frame, Pages, ProcOk, SameLook, OthersKept, Fresh, Uses, Chain;
      hide FreeIs;
      var tf := vm.Kalloc(Trap(id));
      AllSame(vm.mem, spaces);
      if tf == None {
        return false;
      }
      TrapTaken(vm.mem, old(vm.own), spaces, procs, trampoline, id, tf.value);
      ghost var own1 := vm.own;
      var root;
      ghost var s;
      root, s := vm.ProcPagetable(trampoline, tf.value, id);
      AllKept(old(vm.mem), own1, vm.mem, vm.own, spaces, procs, id, trampoline);
      if root == None {
        TrapFreed(vm.mem, vm.own, spaces, procs, trampoline, id, tf.value);
        vm.Kfree(tf.value);
        TrapReturned(old(vm.own), tf.value, id);
        return false;
      }
      ProcAdded(old(vm.mem), old(vm.own), vm.mem, vm.own, spaces, procs, trampoline, id, s,
          Proc(root.value, 0, tf.value));
      procs := procs[id := Proc(root.value, 0, tf.value)];
      spaces := spaces[id := s];
      return true;
    }

    /** The memory of freeproc: the trapframe page, the page table and the user pages are free. */
    method Freeproc(id: nat)
      requires Inv() && id in procs
      modifies vm, `procs, `spaces
      ensures Inv() && Exited(old(Now()), id, Now())
    {
      hide AllOk, Accounted, Sound, Look, Layout, Frame, Pages, ProcOk, SameLook, OthersKept, Gone, Chain, FreeIs;
      hide OwnFreed;
      One(vm.mem, vm.own, spaces, procs, trampoline, id);
      var p := procs[id];
      ghost var s := spaces[id];
      TrapIsUsed(vm.mem, vm.own, s, p, id, trampoline);
      vm.Kfree(p.trapframe);
      ghost var own1 := vm.own;
      TrapOff(vm.mem, old(vm.own), spaces, procs, trampoline, id, s, p);
      vm.ProcFreepagetable(p.root, p.sz, s, trampoline, p.trapframe);
      procs := procs - {id};
      spaces := spaces - {id};
      AllKept(old(vm.mem), own1, vm.mem, vm.own, spaces, procs, id, trampoline);
      ProcGone(old(vm.own), own1, vm.own, old(procs), id);
    }

    /** The memory of kfork: the child is a copy of the parent, or nothing is left of it. */
    method Fork(parent: nat, child: nat) returns (ok: bool)
      requires Inv() && parent in procs && child !in procs
      modifies vm, `procs, `spaces
      ensures Inv() && Forked(old(Now()), parent, child, ok, Now())
    {
      hide AllOk, Accounted, Sound, Look, Layout, Frame, Pages, ProcOk, SameLook, OthersKept, OwnFreed, DataKept;
      hide Copied, ForkedAs, Chain, FreeIs;
      ok := Allocproc(child);
      KeptSelf(old(vm.own), old(vm.data));
      if !ok {
        return;
      }
      ghost var mem1, own1, spaces1, procs1 := vm.mem, vm.own, spaces, procs;
      StillThere(old(procs), procs, child, parent);
      One(vm.mem, vm.own, spaces, procs, trampoline, parent);
      One(vm.mem, vm.own, spaces, procs, trampoline, child);
      var p, c := procs[parent], procs[child];
      ghost var s, t := spaces[parent], spaces[child];
      ghost var blank := t;
      PagesBound(p.sz);
      PagesZero();
      LayoutAbove(vm.mem, t, 0, trampoline, c.trapframe);
      ok, t := vm.Uvmcopy(p.root, c.root, p.sz, s, t);
      AllLess(mem1, own1, spaces1, procs1, trampoline, child);
      AllKept(mem1, own1, vm.mem, vm.own, old(spaces), old(procs), child, trampoline);
      OthersTrans(old(vm.mem), old(spaces), mem1, vm.mem);
      UndoKept(mem1, own1, vm.mem, vm.own, old(vm.own), child, c.trapframe);
      UndoData(own1, old(vm.own), child, c.trapframe, old(vm.data), vm.data);
      if !ok {
        LayoutKept(mem1, blank, vm.mem, t, 0, trampoline, c.trapframe);
        Updated(mem1, own1, vm.mem, vm.own, spaces, procs, child, t, c, trampoline);
        spaces := spaces[child := t];
        ghost var mem2, own2 := vm.mem, vm.own;
        Freeproc(child);
        UndoSame(own2, vm.own, old(vm.own), child, c.trapframe);
        assert spaces == old(spaces);
        OthersTrans(old(vm.mem), old(spaces), mem2, vm.mem);
        return false;
      }
      LayoutCopied(mem1, s, blank, vm.mem, t, vm.data, Pages(p.sz), trampoline, c.trapframe);
      Updated(mem1, own1, vm.mem, vm.own, spaces, procs, child, t, c.(sz := p.sz), trampoline);
      ForkMade(mem1, s, blank, vm.mem, t, vm.data, p.sz);
      procs := procs[child := c.(sz := p.sz)];
      spaces := spaces[child := t];
      return true;
    }

    method Step(op: Op) returns (a: Answer)
      requires Inv() && OpOk(op)
      modifies vm, `procs, `spaces
      ensures Inv() && KernelKept(old(vm.own), vm.own) && Did(old(Now()), op, a, Now())
    {
      hide AllOk, Accounted, Frame, OwnFreed, KernelKept, OthersKept, DataKept, SameLook, Pages, Extended;
      hide Reduced, Faulted;
      hide ForkedAs, Chain, FreeIs;
      KernelSelf(vm.own);
      a := Nothing;
      match op
      case Create(id) =>
        if id !in procs {
          var ok := Allocproc(id);
          a := Made(ok);
          if ok {
            TrapOf(vm.mem, vm.own, spaces, procs, trampoline, id);
            KernelUndone(vm.own, old(vm.own), id, procs[id].trapframe);
          }
        }
      case Fork(parent, child) =>
        if parent in procs && child !in procs {
          var ok := Fork(parent, child);
          a := Made(ok);
          if ok {
            TrapOf(vm.mem, vm.own, spaces, procs, trampoline, child);
            KernelUndone(vm.own, old(vm.own), child, procs[child].trapframe);
          }
        }
      case Sbrk(id, n, eager) =>
        if id in procs {
          var r := Sbrk(id, n, eager);
          a := Told(r);
          KernelFrame(old(vm.mem), old(vm.own), vm.mem, vm.own, id);
        }
      case Fault(id, va) =>
        if id in procs {
          var r := Vmfault(id, va);
          a := Told(r);
          KernelFrame(old(vm.mem), old(vm.own), vm.mem, vm.own, id);
        }
      case Exit(id) =>
        if id in procs {
          TrapOf(vm.mem, vm.own, spaces, procs, trampoline, id);
          Freeproc(id);
          KernelFreed(old(vm.own), vm.own, id, old(procs)[id].trapframe);
        }
    }

    /** Over any run every page is accounted for, every call did what it should, and once all processes
        have exited the allocator is as it was before the first one. */
    method Run(ops: seq<Op>) returns (answers: seq<Answer>, ghost worlds: seq<World>)
      requires Inv() && procs == map[] && forall i | 0 <= i < |ops| :: OpOk(ops[i])
      modifies vm, `procs, `spaces
      ensures Inv()
      ensures procs == map[] ==> vm.own == old(vm.own) && vm.nfree == old(vm.nfree)
      ensures |answers| == |ops| && |worlds| == |ops| + 1 && worlds[0] == old(Now()) && worlds[|ops|] == Now()
      ensures forall i | 0 <= i < |ops| :: Did(worlds[i], ops[i], answers[i], worlds[i + 1])
    {
      hide AllOk, KernelKept, Chain, FreeIs, Accounted, Did;
      KernelSelf(vm.own);
      answers, worlds := [], [Now()];
      for i := 0 to |ops|
        invariant Inv() && KernelKept(old(vm.own), vm.own)
        invariant |answers| == i && |worlds| == i + 1 && worlds[0] == old(Now()) && worlds[i] == Now()
        invariant forall k | 0 <= k < i :: Did(worlds[k], ops[k], answers[k], worlds[k + 1])
      {
        ghost var own1 := vm.own;
        var a := Step(ops[i]);
        KernelTrans(old(vm.own), own1, vm.own);
        answers, worlds := answers + [a], worlds + [Now()];
      }
      NothingLeft(old(vm.own), vm.own);
      if procs == map[] { SameSize(old(vm.list), vm.list, vm.own); }
    }
  }
}
