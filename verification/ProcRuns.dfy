/** The remaining steps of the process table, kwait, sleep, kill, the scheduler and fork, and what
    holds of every run. */
module ProcessRuns {
  import opened Options
  import opened Processes

  // ----- kwait

  function WaitStep(s: Sys, p: nat, ch: Choice): Option<Sys>
    requires p < |s.procs|
  {
    var r := s.procs[p];
    match r.pc
    case WaitLock => if s.wait == None then Some(Go(s.(wait := Some(p)), p, WaitScan(0, false))) else None
    case WaitScan(i, kids) =>
      if i < |s.procs| then
        if s.procs[i].parent != Some(p) then Some(Go(s, p, WaitScan(i + 1, kids)))
        else if s.procs[i].lock == Open then Some(Go(Take(s, i, p), p, WaitHeld(i)))
        else None
      else if !kids then Some(Say(Go(s, p, WaitLeave), p, Failed))
      else if r.lock != Open then None
      else if KilledAt(s, p) then Some(Say(Go(s, p, WaitLeave), p, Failed))
      else Some(Go(s, p, WaitSleep))
    case WaitHeld(i) =>
      if i >= |s.procs| then None
      else if !s.procs[i].state.Zombie? then Some(Go(Release(s, i), p, WaitScan(i + 1, true)))
      else if ch == Fail then Some(Say(Go(Release(s, i), p, WaitLeave), p, Failed))
      else Some(Reaped(s, p, i))
    case WaitLeave => Some(Go(s.(wait := None), p, Run))
    case WaitSleep => if r.lock == Open then Some(Set(s, p, r.(lock := By(p), pc := SleepBoth))) else None
    case _ => None
  }

  /** freeproc on child i. */
  function Freed(s: Sys, i: nat): Sys
    requires i < |s.procs|
  {
    var d := s.data;
    Set(s, i, Proc(Unused, None, NoChan, Open, Away))
      .(data := d.(pid := d.pid[i := 0], killed := d.killed[i := false], status := d.status[i := 0]))
  }

  function Reaped(s: Sys, p: nat, i: nat): Sys
    requires p < |s.procs| && i < |s.procs|
  {
    Say(Go(Freed(s, i), p, WaitLeave), p, Child(Pid(s, i), Status(s, i)))
  }

  lemma WaitLockOk(s: Sys, p: nat, ch: Choice)
    requires Inv(s) && p < |s.procs| && s.procs[p].pc.WaitLock?
    ensures Kept(WaitStep(s, p, ch))
  {
    hide Inv, ParentOk;
    if s.wait == None {
      var s' := WaitStep(s, p, ch).value;
      OnStack(s, p);
      ParentLess(s, s', s'.procs[p], p);
      MoveOk(s, s', p);
    }
  }

  lemma WaitLeaveOk(s: Sys, p: nat, ch: Choice)
    requires Inv(s) && p < |s.procs| && s.procs[p].pc.WaitLeave?
    ensures Kept(WaitStep(s, p, ch))
  {
    hide Inv, ParentOk;
    var s' := WaitStep(s, p, ch).value;
    OnStack(s, p);
    NoRescue(s, p);
    ParentLess(s, s', s'.procs[p], p);
    MoveOk(s, s', p);
  }

  /** A place in kwait beyond the slots that are known to hold no zombie child. */
  lemma ScanKids(s: Sys, s': Sys, r: Proc, r': Proc, p: nat)
    requires KidsOk(s, s', r, p) && (r.pc.WaitScan? || r.pc.WaitHeld?) && r'.state == r.state
    requires r'.pc.WaitScan? || r'.pc.WaitHeld? || r'.pc.WaitSleep? || r'.pc.WaitLeave?
    requires forall c | 0 <= c < |s.procs| && s.procs[c].parent == Some(p) && s.procs[c].state.Zombie?
               && Scanned(r'.pc, c) :: Scanned(r.pc, c)
    ensures KidsOk(s, s', r', p)
  {
    hide Live, WokeParent, Scanned;
  }

  lemma WaitScanOk(s: Sys, p: nat, ch: Choice)
    requires Inv(s) && p < |s.procs| && s.procs[p].pc.WaitScan?
    ensures Kept(WaitStep(s, p, ch))
  {
    hide Inv;
    var i := s.procs[p].pc.i;
    if i < |s.procs| && s.procs[i].parent == Some(p) {
      ScanTakeOk(s, p, i);
    } else if WaitStep(s, p, ch).Some? {
      var t := WaitStep(s, p, ch).value;
      ScanPastOk(s, p, t.procs[p].pc);
      DataOk(Go(s, p, t.procs[p].pc), t.data);
    }
  }

  /** kwait goes on without taking another lock. */
  lemma ScanPastOk(s: Sys, p: nat, pc: Pc)
    requires Inv(s) && p < |s.procs| && s.procs[p].pc.WaitScan?
    requires var i := s.procs[p].pc.i;
             if i >= |s.procs| then pc == WaitLeave || pc == WaitSleep
             else pc.WaitScan? && pc.i == i + 1 && s.procs[i].parent != Some(p)
    ensures Inv(Go(s, p, pc))
  {
    hide Inv, ParentOk, KidsOk;
    var s' := Go(s, p, pc);
    OnStack(s, p);
    Kids(s, p);
    ScanKids(s, s', s.procs[p], s'.procs[p], p);
    NoRescue(s, p);
    ParentLess(s, s', s'.procs[p], p);
    ShiftOk(s, s', p);
  }

  /** kwait takes the lock of its child i. */
  lemma ScanTakeOk(s: Sys, p: nat, i: nat)
    requires Inv(s) && p < |s.procs| && s.procs[p].pc.WaitScan? && s.procs[p].pc.i == i && i < |s.procs|
    requires s.procs[i].parent == Some(p)
    ensures s.procs[i].lock == Open ==> Inv(Go(Take(s, i, p), p, WaitHeld(i)))
  {
    hide Inv, ParentOk, KidsOk;
    if s.procs[i].lock == Open {
      var s' := Go(Take(s, i, p), p, WaitHeld(i));
      SelfParent(s, i);
      OnStack(s, p);
      Kids(s, p);
      ScanKids(s, s', s.procs[p], s'.procs[p], p);
      NoRescue(s, p);
      ParentLess(s, s', s'.procs[p], p);
      ShiftOk(s, s', p);
    }
  }

  lemma WaitHeldOk(s: Sys, p: nat, ch: Choice)
    requires Inv(s) && p < |s.procs| && s.procs[p].pc.WaitHeld?
    ensures Kept(WaitStep(s, p, ch))
  {
    hide Inv, Reaped, Freed;
    var i := s.procs[p].pc.i;
    if i < |s.procs| && !s.procs[i].state.Zombie? {
      ScanOn(s, p, i, WaitScan(i + 1, true));
    } else if i < |s.procs| && ch == Fail {
      ScanOn(s, p, i, WaitLeave);
      DataOk(Go(Release(s, i), p, WaitLeave), WaitStep(s, p, ch).value.data);
    } else if i < |s.procs| {
      ReapedOk(s, p, i);
    }
  }

  /** kwait releases the lock of child i. */
  lemma ScanOn(s: Sys, p: nat, i: nat, pc: Pc)
    requires Inv(s) && p < |s.procs| && s.procs[p].pc == WaitHeld(i) && i < |s.procs|
    requires pc == WaitLeave || (pc == WaitScan(i + 1, true) && !s.procs[i].state.Zombie?)
    ensures Inv(Go(Release(s, i), p, pc))
  {
    hide Inv, ParentOk, KidsOk, LockMove, Rescue;
    var s' := Go(Release(s, i), p, pc);
    OnStack(s, p);
    Kids(s, p);
    ScanKids(s, s', s.procs[p], s'.procs[p], p);
    NoRescue(s, p);
    ParentLess(s, s', s'.procs[p], p);
    LetGo(s, s', p, i);
    ShiftOk(s, s', p);
  }

  lemma LetGo(s: Sys, s': Sys, p: nat, i: nat)
    requires p < |s.procs| == |s'.procs| && i < |s.procs| && i != p && Held(s.procs[p].pc, p) == Some(i)
    requires Held(s'.procs[p].pc, p) == None
    requires s'.procs[i].lock == Open && s'.procs[p].lock == s.procs[p].lock && !s.procs[p].lock.BySched?
    requires forall q | 0 <= q < |s.procs| && q != i && q != p :: s'.procs[q] == s.procs[q]
    ensures LockMove(s, s', p)
  {
    hide Held, OffStack;
  }

  // ----- steps that change a slot besides the thread's own

  /** Only slots p and i differ, and nobody's parent is i. */
  ghost predicate TwoSlots(s: Sys, s': Sys, p: nat, i: nat) {
    && p < |s.procs| == |s'.procs| && i < |s.procs| && i != p && i != INIT
    && (forall q | 0 <= q < |s.procs| && q != p && q != i :: s'.procs[q] == s.procs[q])
    && (forall c | 0 <= c < |s.procs| :: s.procs[c].parent != Some(i))
    && s.procs[p].state.Running? && s'.procs[p].state.Running? && s'.procs[p].parent == s.procs[p].parent
  }

  /** Thread p stays clear of kexit and of kwait's sleep. */
  predicate Clear(pc: Pc) {
    pc.Run? || pc.ForkFind? || pc.ForkMade? || pc.ForkParent? || pc.ForkWake? || pc.WaitHeld? || pc.WaitLeave?
  }

  lemma TwoTree(s: Sys, s': Sys, p: nat, i: nat)
    requires Tree(s) && TwoSlots(s, s', p, i) && Clear(s'.procs[p].pc)
    requires var r := s'.procs[i];
             && (r.parent == None || r.parent == Some(p) || r.parent == s.procs[i].parent)
             && (r.state.Unused? ==> r.parent == None) && (Live(r.state) || r.state.Zombie? ==> r.parent.Some?)
    ensures Tree(s')
  {
    hide GaveAway, Exiting;
    ClearFacts(s'.procs[p]);
  }

  lemma ClearFacts(r: Proc)
    requires Clear(r.pc)
    ensures !Exiting(r.pc) && !Waiting(r) && !r.pc.ReparentWake?
    ensures forall c: nat :: !GaveAway(r.pc, c) && !WokeParent(r.pc, c)
  {
  }

  lemma TwoWaits(s: Sys, s': Sys, p: nat, i: nat)
    requires Waits(s) && Wakes(s) && TwoSlots(s, s', p, i) && Clear(s.procs[p].pc) && Clear(s'.procs[p].pc)
    requires s'.procs[p].pc.WaitHeld? ==> s'.procs[p].pc == s.procs[p].pc
    requires !s'.procs[i].state.Zombie? && (s'.procs[i].pc.Away? || s'.procs[i].pc.Start?)
    requires s'.wait == s.wait && !s.procs[i].pc.ReparentWake?
    ensures Waits(s') && Wakes(s')
  {
    hide Scanned, WokeParent, Waiting;
    ClearFacts(s.procs[p]);
    ClearFacts(s'.procs[p]);
    AwayFacts(s'.procs[i]);
    ScannedLess(s.procs[p].pc, s'.procs[p].pc);
    forall c | 0 <= c < |s'.procs| && s'.procs[c].parent.Some? && s'.procs[c].parent.value < |s'.procs|
      ensures var q := s'.procs[c].parent.value;
              && (s'.procs[c].state.Zombie? ==> !Scanned(s'.procs[q].pc, c) && (Waiting(s'.procs[q]) ==> Rescue(s', q)))
              && (WokeParent(s'.procs[c].pc, q) ==> !Waiting(s'.procs[q]))
    {
      var q := s'.procs[c].parent.value;
      if c != i { assert s'.procs[c].parent == s.procs[c].parent && q != i; }
    }
  }

  lemma AwayFacts(r: Proc)
    requires r.pc.Away? || r.pc.Start?
    ensures forall c: nat :: !WokeParent(r.pc, c)
  {
  }

  lemma ScannedLess(pc: Pc, pc': Pc)
    requires Clear(pc) && Clear(pc') && (pc'.WaitHeld? ==> pc' == pc)
    ensures forall c: nat :: Scanned(pc', c) ==> Scanned(pc, c)
  {
  }

  lemma TwoForks(s: Sys, s': Sys, p: nat, i: nat)
    requires Forks(s) && TwoSlots(s, s', p, i)
    requires Filling(s'.procs[p].pc) == None || (Filling(s'.procs[p].pc) == Some(i) && s'.procs[i].state.Used?)
    requires Filling(s.procs[i].pc) == None == Filling(s'.procs[i].pc)
    requires forall q | 0 <= q < |s.procs| && q != p :: Filling(s.procs[q].pc) != Some(i)
    requires Adopting(s'.procs[p].pc) == Some(i) ==> s'.procs[i].parent == Some(p)
    ensures Forks(s')
  {
    hide Filling, Adopting, Filled, Separate, Adopted;
    TwoFilled(s, s', p, i);
    TwoSeparate(s, s', p, i);
    TwoAdopted(s, s', p, i);
  }

  lemma TwoFilled(s: Sys, s': Sys, p: nat, i: nat)
    requires Filled(s) && TwoSlots(s, s', p, i)
    requires Filling(s'.procs[p].pc) == None || (Filling(s'.procs[p].pc) == Some(i) && s'.procs[i].state.Used?)
    requires Filling(s.procs[i].pc) == None == Filling(s'.procs[i].pc)
    requires forall q | 0 <= q < |s.procs| && q != p :: Filling(s.procs[q].pc) != Some(i)
    ensures Filled(s')
  {
    hide Filling, Adopting;
    forall q | 0 <= q < |s'.procs| && q != p ensures Filling(s'.procs[q].pc) == Filling(s.procs[q].pc) {
    }
    assert forall q | 0 <= q < |s.procs| && Filling(s.procs[q].pc).Some? :: Filling(s.procs[q].pc).value != p;
  }

  lemma TwoSeparate(s: Sys, s': Sys, p: nat, i: nat)
    requires Separate(s) && TwoSlots(s, s', p, i)
    requires Filling(s'.procs[p].pc) == None || Filling(s'.procs[p].pc) == Some(i)
    requires Filling(s.procs[i].pc) == None == Filling(s'.procs[i].pc)
    requires forall q | 0 <= q < |s.procs| && q != p :: Filling(s.procs[q].pc) != Some(i)
    ensures Separate(s')
  {
    hide Filling, Adopting;
    forall q | 0 <= q < |s'.procs| && q != p ensures Filling(s'.procs[q].pc) == Filling(s.procs[q].pc) {
    }
  }

  lemma TwoAdopted(s: Sys, s': Sys, p: nat, i: nat)
    requires Adopted(s) && TwoSlots(s, s', p, i)
    requires Filling(s'.procs[p].pc) == None || Filling(s'.procs[p].pc) == Some(i)
    requires Filling(s'.procs[i].pc) == None
    requires forall q | 0 <= q < |s.procs| && q != p :: Filling(s.procs[q].pc) != Some(i)
    requires Adopting(s'.procs[p].pc) == Some(i) ==> s'.procs[i].parent == Some(p)
    ensures Adopted(s')
  {
    hide Filling, Adopting;
    forall q | 0 <= q < |s'.procs| && Adopting(s'.procs[q].pc).Some? && Adopting(s'.procs[q].pc).value < |s'.procs|
      ensures s'.procs[Adopting(s'.procs[q].pc).value].parent == Some(q)
    {
      FillingWake(s'.procs[q].pc);
    }
  }

  lemma FillingWake(pc: Pc)
    ensures Adopting(pc).Some? ==> Filling(pc) == Adopting(pc)
  {
  }

  /** A step of thread p that changes slot i as well. */
  lemma TwoOk(s: Sys, s': Sys, p: nat, i: nat)
    requires Inv(s) && TwoSlots(s, s', p, i) && Clear(s.procs[p].pc) && Clear(s'.procs[p].pc)
    requires var r := s'.procs[i];
             && (r.parent == None || r.parent == Some(p) || r.parent == s.procs[i].parent)
             && (r.state.Unused? ==> r.parent == None) && (Live(r.state) ==> r.parent.Some?) && !r.state.Zombie?
             && (r.pc.Away? || r.pc.Start?) && (s.procs[i].pc.Away? || s.procs[i].pc.Dead?) && !r.lock.BySched?
    requires s'.procs[p].pc.WaitHeld? ==> s'.procs[p].pc == s.procs[p].pc
    requires s'.wait == s.wait && HoldsWait(s'.procs[p].pc) == HoldsWait(s.procs[p].pc)
    requires LockMove(s, s', p) && StateOk(s'.procs[p], p, |s.procs|) && StateOk(s'.procs[i], i, |s.procs|)
    requires Filling(s'.procs[p].pc) == None || (Filling(s'.procs[p].pc) == Some(i) && s'.procs[i].state.Used?)
    requires forall q | 0 <= q < |s.procs| && q != p :: Filling(s.procs[q].pc) != Some(i)
    requires Adopting(s'.procs[p].pc) == Some(i) ==> s'.procs[i].parent == Some(p)
    ensures Inv(s')
  {
    hide Tree, Waits, Wakes, Locks, WaitLocks, Forks, HoldsWait, Held, OffStack, LockMove, StateOk, Filling, Live;
    hide SameHolds, Clear;
    TwoTree(s, s', p, i);
    TwoWaits(s, s', p, i);
    AwayHolds(s.procs[i].pc, i);
    AwayHolds(s'.procs[i].pc, i);
    TwoHolds(s, s', p, i);
    LocksKept(s, s', p);
    WaitLocksKept(s, s', p);
    TwoForks(s, s', p, i);
  }

  /** What such a step does to the two records: r is that of the thread, q that of slot i. */
  ghost predicate TwoMove(r: Proc, r': Proc, q: Proc, q': Proc, p: nat, i: nat, n: nat) {
    && Clear(r.pc) && Clear(r'.pc) && r.state.Running? && r'.state.Running? && r'.parent == r.parent
    && (r'.pc.WaitHeld? ==> r'.pc == r.pc) && HoldsWait(r'.pc) == HoldsWait(r.pc)
    && StateOk(r', p, n) && StateOk(q', i, n)
    && (q'.parent == None || q'.parent == Some(p) || q'.parent == q.parent)
    && (q'.state.Unused? ==> q'.parent == None) && (Live(q'.state) ==> q'.parent.Some?) && !q'.state.Zombie?
    && (q'.pc.Away? || q'.pc.Start?) && (q.pc.Away? || q.pc.Dead?) && !q'.lock.BySched?
    && (Filling(r'.pc) == None || (Filling(r'.pc) == Some(i) && q'.state.Used?))
    && (Adopting(r'.pc) == Some(i) ==> q'.parent == Some(p))
    && r'.lock == r.lock && !r.lock.BySched? && TwoLocks(Held(r.pc, p), Held(r'.pc, p), q.lock, q'.lock, p, i)
  }

  /** Only the lock of slot i is taken or released. */
  predicate TwoLocks(h: Option<nat>, h': Option<nat>, l: Lock, l': Lock, p: nat, i: nat) {
    && (h == None || h == Some(i)) && (h' == None || h' == Some(i))
    && if h' == Some(i) then l' == By(p) && (h == Some(i) || l == Open)
       else if h == Some(i) then l' == Open
       else l' == l
  }

  lemma TwoMoveOk(s: Sys, p: nat, i: nat, r': Proc, q': Proc)
    requires Inv(s) && p < |s.procs| && i < |s.procs| && i != p && i != INIT
    requires TwoMove(s.procs[p], r', s.procs[i], q', p, i, |s.procs|)
    requires forall c | 0 <= c < |s.procs| :: s.procs[c].parent != Some(i)
    requires forall q | 0 <= q < |s.procs| && q != p :: Filling(s.procs[q].pc) != Some(i)
    ensures Inv(Set(Set(s, i, q'), p, r'))
  {
    hide Inv, Clear, HoldsWait, StateOk, Live, Filling, Adopting, LockMove, Held;
    var s' := Set(Set(s, i, q'), p, r');
    TwoLockMove(s, s', p, i);
    TwoOk(s, s', p, i);
  }

  lemma TwoLockMove(s: Sys, s': Sys, p: nat, i: nat)
    requires p < |s.procs| == |s'.procs| && i < |s.procs| && i != p
    requires forall q | 0 <= q < |s.procs| && q != p && q != i :: s'.procs[q] == s.procs[q]
    requires s'.procs[p].lock == s.procs[p].lock && !s.procs[p].lock.BySched?
    requires TwoLocks(Held(s.procs[p].pc, p), Held(s'.procs[p].pc, p), s.procs[i].lock, s'.procs[i].lock, p, i)
    ensures LockMove(s, s', p)
  {
    hide Held, OffStack;
  }

  lemma AwayHolds(pc: Pc, i: nat)
    requires pc.Away? || pc.Start? || pc.Dead?
    ensures Held(pc, i) == None && !HoldsWait(pc) && Filling(pc) == None
  {
  }

  lemma TwoHolds(s: Sys, s': Sys, p: nat, i: nat)
    requires Locks(s) && TwoSlots(s, s', p, i) && LockMove(s, s', p)
    requires Held(s.procs[i].pc, i) == Held(s'.procs[i].pc, i) && HoldsWait(s.procs[i].pc) == HoldsWait(s'.procs[i].pc)
    requires !s'.procs[i].lock.BySched?
    ensures SameHolds(s, s', p)
  {
    hide Held, HoldsWait, OffStack;
  }

  /** A zombie whose lock another process holds is off its stack, and has no children. */
  lemma OffItsStack(s: Sys, p: nat, i: nat)
    requires Inv(s) && p < |s.procs| && i < |s.procs| && p != i && s.procs[i].lock == By(p) && s.procs[i].state.Zombie?
    ensures s.procs[i].pc.Dead? && i != INIT
    ensures forall c | 0 <= c < |s.procs| :: s.procs[c].parent != Some(i)
    ensures forall q | 0 <= q < |s.procs| :: Filling(s.procs[q].pc) != Some(i)
  {
    hide Inv;
    OnStack(s, i);
    ZombieAlone(s, i);
  }

  lemma ZombieAlone(s: Sys, i: nat)
    requires Inv(s) && i < |s.procs| && (s.procs[i].state.Zombie? || s.procs[i].state.Unused? || s.procs[i].state.Used?)
    ensures i != INIT && forall c | 0 <= c < |s.procs| :: s.procs[c].parent != Some(i)
    ensures !s.procs[i].state.Used? ==> forall q | 0 <= q < |s.procs| :: Filling(s.procs[q].pc) != Some(i)
  {
    hide Locks, WaitLocks, States, Waits, Wakes, GaveAway, Filling, Exiting;
  }

  /** kwait frees a zombie child. */
  lemma ReapedOk(s: Sys, p: nat, i: nat)
    requires Inv(s) && p < |s.procs| && s.procs[p].pc == WaitHeld(i) && i < |s.procs| && s.procs[i].state.Zombie?
    ensures Inv(Reaped(s, p, i))
  {
    hide Inv, TwoMove, Filling;
    OnStack(s, p);
    OffItsStack(s, p, i);
    var r', q' := s.procs[p].(pc := WaitLeave), Proc(Unused, None, NoChan, Open, Away);
    ReapedMove(s.procs[p], s.procs[i], p, i, |s.procs|);
    TwoMoveOk(s, p, i, r', q');
    DataOk(Set(Set(s, i, q'), p, r'), Reaped(s, p, i).data);
  }

  lemma ReapedMove(r: Proc, q: Proc, p: nat, i: nat, n: nat)
    requires StateOk(r, p, n) && r.pc == WaitHeld(i) && !r.lock.BySched? && q.pc.Dead?
    ensures TwoMove(r, r.(pc := WaitLeave), q, Proc(Unused, None, NoChan, Open, Away), p, i, n)
  {
  }

  lemma WaitSleepOk(s: Sys, p: nat, ch: Choice)
    requires Inv(s) && p < |s.procs| && s.procs[p].pc.WaitSleep?
    ensures Kept(WaitStep(s, p, ch))
  {
    hide Inv, ParentOk;
    if s.procs[p].lock == Open {
      var s' := WaitStep(s, p, ch).value;
      OnStack(s, p);
      NoRescue(s, p);
      ParentLess(s, s', s'.procs[p], p);
      MoveOk(s, s', p);
    }
  }

  // ----- sleep

  function SleepStep(s: Sys, p: nat): Option<Sys>
    requires p < |s.procs|
  {
    var r := s.procs[p];
    match r.pc
    case SleepBoth => Some(Go(s.(wait := None), p, SleepSet))
    case SleepSet => Some(Set(s, p, r.(chan := OnProc(p), state := Sleeping, pc := SleepSched)))
    case SleepSched => Some(Set(s, p, r.(lock := BySched, pc := Asleep)))
    case Woken => Some(Set(s, p, r.(chan := NoChan, lock := Open, pc := WaitLock)))
    case _ => None
  }

  /** yield, and sleep on other channels; and the way into forkret. */
  function ParkStep(s: Sys, p: nat): Option<Sys>
    requires p < |s.procs|
  {
    match ParkRecord(s.procs[p], p)
    case Some(r) => Some(Set(s, p, r))
    case None => None
  }

  function ParkRecord(r: Proc, p: nat): Option<Proc> {
    match r.pc
    case Started => Some(r.(lock := Open, pc := Run))
    case Park(c, at) => if r.lock == Open then Some(r.(lock := By(p), pc := ParkHeld(c, at))) else None
    case ParkHeld(c, at) =>
      Some(if c == None then r.(state := Runnable, pc := ParkSched(at))
           else r.(chan := Other(c.value), state := Sleeping, pc := ParkSched(at)))
    case ParkSched(at) => Some(r.(lock := BySched, pc := Parked(at)))
    case ParkWoken(at) => Some(r.(chan := NoChan, lock := Open, pc := Back(at)))
    case _ => None
  }

  /** kwait goes to sleep only without zombie children, and while it holds wait_lock none can
      come. */
  lemma SleepBothOk(s: Sys, p: nat)
    requires Inv(s) && p < |s.procs| && s.procs[p].pc.SleepBoth?
    ensures Kept(SleepStep(s, p))
  {
    hide Inv, ParentOk, KidsOk;
    var s' := SleepStep(s, p).value;
    OnStack(s, p);
    Kids(s, p);
    SleepKids(s, s', p);
    NoRescue(s, p);
    ParentLess(s, s', s'.procs[p], p);
    ShiftOk(s, s', p);
  }

  lemma SleepKids(s: Sys, s': Sys, p: nat)
    requires Inv(s) && p < |s.procs| && s.procs[p].pc.SleepBoth? && KidsOk(s, s', s.procs[p], p)
    ensures KidsOk(s, s', s.procs[p].(pc := SleepSet), p)
  {
    hide Locks, States, Forks, Tree, Waits, Wakes, Live, Rescue;
    forall c | 0 <= c < |s.procs| && s.procs[c].parent == Some(p) ensures !WokeParent(s.procs[c].pc, p) {
      WokeHolds(s, c, p);
    }
  }

  lemma WokeHolds(s: Sys, c: nat, p: nat)
    requires WaitLocks(s) && c < |s.procs| && p < |s.procs| && s.wait == Some(p)
    ensures !WokeParent(s.procs[c].pc, p) || c == p
  {
  }

  lemma StillKids(s: Sys, s': Sys, r: Proc, p: nat)
    requires Inv(s) && p < |s.procs| && Waiting(s.procs[p]) && (r.pc.SleepSched? || r.pc.Asleep?) && Live(r.state)
    requires Rescue(s, INIT) ==> Rescue(s', INIT)
    ensures KidsOk(s, s', r, p)
  {
    hide Locks, WaitLocks, States, Forks, WokeParent, Waiting;
    forall q | Rescue(s, q) ensures Rescue(s', q) { RescueInit(s, q); }
  }

  lemma SleepSetOk(s: Sys, p: nat)
    requires Inv(s) && p < |s.procs| && s.procs[p].pc.SleepSet?
    ensures Kept(SleepStep(s, p))
  {
    hide Inv, ParentOk, KidsOk, Rescue;
    var s' := SleepStep(s, p).value;
    OnStack(s, p);
    RescueOther(s, s', p);
    StillKids(s, s', s'.procs[p], p);
    ParentLess(s, s', s'.procs[p], p);
    ShiftOk(s, s', p);
  }

  lemma SleepSchedOk(s: Sys, p: nat)
    requires Inv(s) && p < |s.procs| && s.procs[p].pc.SleepSched?
    ensures Kept(SleepStep(s, p))
  {
    hide Inv, ParentOk, KidsOk, Rescue;
    var s' := SleepStep(s, p).value;
    OnStack(s, p);
    RescueOther(s, s', p);
    StillKids(s, s', s'.procs[p], p);
    ParentLess(s, s', s'.procs[p], p);
    ShiftOk(s, s', p);
  }

  lemma WokenOk(s: Sys, p: nat)
    requires Inv(s) && p < |s.procs| && s.procs[p].pc.Woken?
    ensures Kept(SleepStep(s, p))
  {
    hide Inv, ParentOk, Rescue;
    var s' := SleepStep(s, p).value;
    OnStack(s, p);
    RescueOther(s, s', p);
    ParentLess(s, s', s'.procs[p], p);
    MoveOk(s, s', p);
  }

  /** A step outside kwait and kexit. */
  lemma PlainOk(s: Sys, s': Sys, p: nat)
    requires Inv(s) && Agree(s, s', p) && Plain(s.procs[p].pc) && Plain(s'.procs[p].pc) && s'.wait == s.wait
    requires LockMove(s, s', p) && StateOk(s'.procs[p], p, |s.procs|) && Live(s'.procs[p].state)
    requires Live(s.procs[p].state)
    requires Keeping(s.procs[p].pc, s'.procs[p].pc) && (Exiting(s'.procs[p].pc) ==> Exiting(s.procs[p].pc))
    ensures Inv(s')
  {
    hide Inv, ParentOk, KidsOk, Rescue, LockMove, StateOk, Keeping, Exiting;
    NotInit(s, p);
    RescueOther(s, s', p);
    PlainKids(s, s', p);
    ParentLess(s, s', s'.procs[p], p);
    ShiftOk(s, s', p);
  }

  /** What a step outside kwait and kexit does to the record of its process. */
  ghost predicate PlainMove(r: Proc, r': Proc, p: nat, n: nat) {
    && Plain(r.pc) && Plain(r'.pc) && StateOk(r', p, n) && Live(r'.state) && Live(r.state) && r'.parent == r.parent
    && Keeping(r.pc, r'.pc) && (Exiting(r'.pc) ==> Exiting(r.pc))
    && (Held(r'.pc, p) == None || Held(r'.pc, p) == Some(p)) && (Held(r.pc, p) == None || Held(r.pc, p) == Some(p))
    && (if Held(r'.pc, p).Some? then r'.lock == By(p) && (Held(r.pc, p).Some? || r.lock == Open)
        else if Held(r.pc, p).Some? then r'.lock == Open || (r'.lock == BySched && OffStack(r'.pc) && !r'.pc.Away?)
        else r'.lock == r.lock && !r.lock.BySched?)
  }

  lemma PlainMoveOk(s: Sys, p: nat, r': Proc)
    requires Inv(s) && p < |s.procs| && PlainMove(s.procs[p], r', p, |s.procs|)
    ensures Inv(Set(s, p, r'))
  {
    hide Inv, Plain, StateOk, Keeping, Exiting, Held, OffStack;
    PlainOk(s, Set(s, p, r'), p);
  }

  lemma ParkOk(s: Sys, p: nat)
    requires Inv(s) && p < |s.procs| && (s.procs[p].pc.Started? || Paused(s.procs[p].pc)) && !OffStack(s.procs[p].pc)
    ensures Kept(ParkStep(s, p))
  {
    hide Inv, PlainMove, StateOk, OffStack, Held, ParkRecord;
    var r := ParkRecord(s.procs[p], p);
    if r.Some? {
      OnStack(s, p);
      ParkMove(s.procs[p], p, |s.procs|, r.value);
      PlainMoveOk(s, p, r.value);
    }
  }

  lemma ParkMove(r: Proc, p: nat, n: nat, r': Proc)
    requires StateOk(r, p, n) && !OffStack(r.pc) && !r.lock.BySched? && p < n
    requires Held(r.pc, p) == Some(p) ==> r.lock == By(p)
    requires ParkRecord(r, p) == Some(r')
    ensures PlainMove(r, r', p, n)
  {
    hide GaveAway;
    if Paused(r.pc) { BackPoint(r.pc.at); }
  }

  lemma BackPoint(at: Point)
    ensures PointOf(Back(at)) == Some(at)
  {
  }

  predicate Plain(pc: Pc) {
    pc.Started? || Paused(pc) || PointOf(pc).Some?
  }

  lemma PlainKids(s: Sys, s': Sys, p: nat)
    requires Inv(s) && p < |s.procs| == |s'.procs| && Plain(s.procs[p].pc) && Plain(s'.procs[p].pc)
    requires Live(s'.procs[p].state)
    ensures KidsOk(s, s', s'.procs[p], p)
  {
    hide Inv, Live;
    KidsPlain(s, p);
  }

  lemma KidsPlain(s: Sys, p: nat)
    requires Inv(s) && p < |s.procs|
    ensures forall c | 0 <= c < |s.procs| && s.procs[c].parent == Some(p) :: Live(s.procs[p].state)
  {
    hide Locks, WaitLocks, States, Forks, Waits, Wakes, Live, GaveAway;
  }

  // ----- fork

  function ForkStep(s: Sys, p: nat, ch: Choice): Option<Sys>
    requires p < |s.procs|
  {
    match s.procs[p].pc
    case ForkFind(i) =>
      if i >= |s.procs| then Some(Say(Go(s, p, Run), p, Failed))
      else if s.procs[i].lock != Open then None
      else if !s.procs[i].state.Unused? then Some(Go(s, p, ForkFind(i + 1)))
      else Some(Made(s, p, i))
    case ForkMade(i) =>
      if i >= |s.procs| then None
      else if ch == Fail then Some(Say(Go(Freed(s, i), p, Run), p, Failed))
      else Some(Say(Go(Release(s, i), p, ForkParent(i)), p, Forked(Pid(s, i))))
    case ForkParent(i) =>
      if i >= |s.procs| || s.wait != None then None
      else Some(Go(Set(s, i, s.procs[i].(parent := Some(p))), p, ForkWake(i)))
    case ForkWake(i) =>
      if i >= |s.procs| || s.procs[i].lock != Open then None
      else Some(Go(Set(s, i, s.procs[i].(state := Runnable, pc := Start)), p, Run))
    case _ => None
  }

  /** allocproc takes slot i. */
  function Made(s: Sys, p: nat, i: nat): Sys
    requires p < |s.procs| && i < |s.procs|
  {
    Go(Set(s, i, s.procs[i].(state := Used, lock := By(p))), p, ForkMade(i))
      .(data := s.data.(pid := s.data.pid[i := s.data.nextpid], nextpid := s.data.nextpid + 1))
  }

  lemma ForkFindOk(s: Sys, p: nat, ch: Choice)
    requires Inv(s) && p < |s.procs| && s.procs[p].pc.ForkFind?
    ensures Kept(ForkStep(s, p, ch))
  {
    hide Inv, Made, Sidestep;
    var i := s.procs[p].pc.i;
    if i < |s.procs| && s.procs[i].lock == Open && s.procs[i].state.Unused? {
      MadeOk(s, p, i);
    } else if ForkStep(s, p, ch).Some? {
      var pc := if i >= |s.procs| then Run else ForkFind(i + 1);
      RunningAt(s, p);
      FindSide(s.procs[p], p, |s.procs|, pc);
      SideOk(s, p, pc);
      DataOk(Go(s, p, pc), ForkStep(s, p, ch).value.data);
    }
  }

  lemma FindSide(r: Proc, p: nat, n: nat, pc: Pc)
    requires StateOk(r, p, n) && r.pc.ForkFind? && (pc == Run || pc.ForkFind?)
    ensures Sidestep(r, pc, p, n)
  {
  }

  lemma MadeOk(s: Sys, p: nat, i: nat)
    requires Inv(s) && p < |s.procs| && s.procs[p].pc == ForkFind(i) && i < |s.procs| && s.procs[i].lock == Open
    requires s.procs[i].state.Unused?
    ensures Inv(Made(s, p, i))
  {
    hide Inv, TwoMove, StateOk, Filling;
    OnStack(s, p);
    OnStack(s, i);
    ZombieAlone(s, i);
    UnusedHasNone(s, i);
    var r', q' := s.procs[p].(pc := ForkMade(i)), s.procs[i].(state := Used, lock := By(p));
    FindRuns(s.procs[p], p, |s.procs|);
    FoundMove(s.procs[p], s.procs[i], p, i, |s.procs|);
    TwoMoveOk(s, p, i, r', q');
    DataOk(Set(Set(s, i, q'), p, r'), Made(s, p, i).data);
  }

  lemma FindRuns(r: Proc, p: nat, n: nat)
    requires StateOk(r, p, n) && r.pc.ForkFind?
    ensures r.state.Running?
  {
  }

  lemma FoundMove(r: Proc, q: Proc, p: nat, i: nat, n: nat)
    requires StateOk(r, p, n) && r.pc == ForkFind(i) && !r.lock.BySched? && i < n && i != p
    requires StateOk(q, i, n) && q.state.Unused? && q.lock == Open && q.parent == None
    ensures TwoMove(r, r.(pc := ForkMade(i)), q, q.(state := Used, lock := By(p)), p, i, n)
  {
  }

  lemma UnusedHasNone(s: Sys, i: nat)
    requires Inv(s) && i < |s.procs| && s.procs[i].state.Unused?
    ensures s.procs[i].parent == None
  {
    hide Locks, WaitLocks, States, Forks, Waits, Wakes, GaveAway;
  }

  /** The slot a fork fills: USED, without a thread, and nobody else's. */
  lemma FilledSlot(s: Sys, p: nat, i: nat)
    requires Inv(s) && p < |s.procs| && i < |s.procs| && Filling(s.procs[p].pc) == Some(i)
    ensures s.procs[i].state.Used? && s.procs[i].pc.Away? && !s.procs[i].lock.BySched? && i != INIT && i != p
    ensures forall c | 0 <= c < |s.procs| :: s.procs[c].parent != Some(i)
    ensures forall q | 0 <= q < |s.procs| && q != p :: Filling(s.procs[q].pc) != Some(i)
    ensures Adopting(s.procs[p].pc) == Some(i) ==> s.procs[i].parent == Some(p)
  {
    hide Inv;
    FilledUsed(s, p, i);
    ZombieAlone(s, i);
    OnStack(s, i);
    OnStack(s, p);
    AwayLock(s, i);
  }

  lemma AwayLock(s: Sys, i: nat)
    requires Inv(s) && i < |s.procs| && s.procs[i].pc.Away?
    ensures !s.procs[i].lock.BySched?
  {
    hide WaitLocks, States, Forks, Tree, Waits, Wakes, Held;
  }

  lemma FilledUsed(s: Sys, p: nat, i: nat)
    requires Inv(s) && p < |s.procs| && i < |s.procs| && Filling(s.procs[p].pc) == Some(i)
    ensures s.procs[i].state.Used?
    ensures forall q | 0 <= q < |s.procs| && q != p :: Filling(s.procs[q].pc) != Some(i)
    ensures Adopting(s.procs[p].pc) == Some(i) ==> s.procs[i].parent == Some(p)
  {
    hide Locks, WaitLocks, States, Tree, Waits, Wakes;
  }

  lemma ForkMadeOk(s: Sys, p: nat, ch: Choice)
    requires Inv(s) && p < |s.procs| && s.procs[p].pc.ForkMade?
    ensures Kept(ForkStep(s, p, ch))
  {
    hide Inv, TwoMove, StateOk, Filling;
    OnStack(s, p);
    var i := s.procs[p].pc.i;
    MadeMove(s.procs[p], p, i, |s.procs|);
    if i < |s.procs| {
      FilledSlot(s, p, i);
      FillMove(s.procs[p], s.procs[i], p, i, |s.procs|);
      var q := Proc(Unused, None, NoChan, Open, Away);
      TwoMoveOk(s, p, i, s.procs[p].(pc := Run), q);
      TwoMoveOk(s, p, i, s.procs[p].(pc := ForkParent(i)), s.procs[i].(lock := Open));
      var t := ForkStep(s, p, ch).value;
      if ch == Fail {
        DataOk(Set(Set(s, i, q), p, s.procs[p].(pc := Run)), t.data);
      } else {
        DataOk(Go(Release(s, i), p, ForkParent(i)), t.data);
      }
    }
  }

  lemma MadeMove(r: Proc, p: nat, i: nat, n: nat)
    requires StateOk(r, p, n) && r.pc == ForkMade(i)
    ensures i < n && i != p && Filling(r.pc) == Some(i)
  {
  }

  /** The lock of the new slot is released, with the slot freed again or kept. */
  lemma FillMove(r: Proc, q: Proc, p: nat, i: nat, n: nat)
    requires StateOk(r, p, n) && r.pc == ForkMade(i) && !r.lock.BySched? && i < n && i != p
    requires q.pc.Away? && q.state.Used?
    ensures TwoMove(r, r.(pc := Run), q, Proc(Unused, None, NoChan, Open, Away), p, i, n)
    ensures TwoMove(r, r.(pc := ForkParent(i)), q, q.(lock := Open), p, i, n)
  {
  }

  lemma ForkParentOk(s: Sys, p: nat, ch: Choice)
    requires Inv(s) && p < |s.procs| && s.procs[p].pc.ForkParent?
    ensures Kept(ForkStep(s, p, ch))
  {
    hide Inv, TwoMove, StateOk, Filling;
    OnStack(s, p);
    var i := s.procs[p].pc.i;
    PlaceMove(s.procs[p], p, i, |s.procs|);
    if s.wait == None && i < |s.procs| {
      FilledSlot(s, p, i);
      ParentMove(s.procs[p], s.procs[i], p, i, |s.procs|);
      TwoMoveOk(s, p, i, s.procs[p].(pc := ForkWake(i)), s.procs[i].(parent := Some(p)));
    }
  }

  lemma PlaceMove(r: Proc, p: nat, i: nat, n: nat)
    requires StateOk(r, p, n) && (r.pc == ForkParent(i) || r.pc == ForkWake(i))
    ensures i < n && i != p && Filling(r.pc) == Some(i) && (r.pc.ForkWake? ==> Adopting(r.pc) == Some(i))
  {
  }

  lemma ParentMove(r: Proc, q: Proc, p: nat, i: nat, n: nat)
    requires StateOk(r, p, n) && r.pc == ForkParent(i) && !r.lock.BySched? && i < n && i != p
    requires q.pc.Away? && q.state.Used? && !q.lock.BySched?
    ensures TwoMove(r, r.(pc := ForkWake(i)), q, q.(parent := Some(p)), p, i, n)
  {
  }

  lemma ForkWakeOk(s: Sys, p: nat, ch: Choice)
    requires Inv(s) && p < |s.procs| && s.procs[p].pc.ForkWake?
    ensures Kept(ForkStep(s, p, ch))
  {
    hide Inv, TwoMove, StateOk, Filling, Adopting;
    OnStack(s, p);
    var i := s.procs[p].pc.i;
    PlaceMove(s.procs[p], p, i, |s.procs|);
    FilledSlot(s, p, i);
    if s.procs[i].lock == Open {
      WakeMove(s.procs[p], s.procs[i], p, i, |s.procs|);
      TwoMoveOk(s, p, i, s.procs[p].(pc := Run), s.procs[i].(state := Runnable, pc := Start));
    }
  }

  lemma WakeMove(r: Proc, q: Proc, p: nat, i: nat, n: nat)
    requires StateOk(r, p, n) && r.pc == ForkWake(i) && !r.lock.BySched? && i < n && i != p
    requires q.pc.Away? && q.state.Used? && q.lock == Open && q.parent == Some(p)
    ensures TwoMove(r, r.(pc := Run), q, q.(state := Runnable, pc := Start), p, i, n)
  {
  }

  // ----- kill, the scheduler and other wakeups

  /** kkill looks at slot i. */
  function KillStep(s: Sys, p: nat): Option<Sys>
    requires p < |s.procs|
  {
    match s.procs[p].pc
    case Kill(i, pid) =>
      if i >= |s.procs| then Some(Say(Go(s, p, Run), p, Failed))
      else if s.procs[i].lock != Open then None
      else if Pid(s, i) != pid then Some(Go(s, p, Kill(i + 1, pid)))
      else Some(Say(Go(Killed(s, i), p, Run), p, Signalled))
    case _ => None
  }

  function Flagged(s: Sys, i: nat): Sys {
    s.(data := s.data.(killed := s.data.killed[i := true]))
  }

  function Killed(s: Sys, i: nat): Sys
    requires i < |s.procs|
  {
    var t := if s.procs[i].state.Sleeping? then Set(s, i, s.procs[i].(state := Runnable)) else s;
    Flagged(t, i)
  }

  /** The two states differ in locks and other data only. */
  ghost predicate AlmostSame(s: Sys, s': Sys) {
    && |s'.procs| == |s.procs| && s'.wait == s.wait
    && (forall q | 0 <= q < |s.procs| :: s'.procs[q] == s.procs[q].(lock := s'.procs[q].lock))
  }

  lemma AlmostTree(s: Sys, s': Sys)
    requires Tree(s) && WaitLocks(s) && AlmostSame(s, s')
    ensures Tree(s') && WaitLocks(s')
  {
    hide GaveAway, Exiting, Live, HoldsWait;
  }

  lemma AlmostWaits(s: Sys, s': Sys)
    requires Waits(s) && Wakes(s) && AlmostSame(s, s')
    ensures Waits(s') && Wakes(s')
  {
    hide Scanned, WokeParent, Waiting, Rescue;
    forall q | 0 <= q < |s.procs|
      ensures Waiting(s'.procs[q]) == Waiting(s.procs[q])
    {
      WaitingSame(s.procs[q], s'.procs[q]);
    }
    forall q ensures Rescue(s', q) == Rescue(s, q) { RescueSame(s, s', q); }
  }

  lemma RescueSame(s: Sys, s': Sys, q: nat)
    requires AlmostSame(s, s')
    ensures Rescue(s', q) == Rescue(s, q)
  {
  }

  lemma AlmostForks(s: Sys, s': Sys)
    requires Forks(s) && States(s) && AlmostSame(s, s')
    ensures Forks(s') && States(s')
  {
    hide Filling, StateOk;
    forall q | 0 <= q < |s.procs|
      ensures StateOk(s'.procs[q], q, |s'.procs|)
    {
      StateOkSame(s.procs[q], s'.procs[q], q, |s.procs|);
    }
    assert forall q | 0 <= q < |s.procs| :: s'.procs[q].pc == s.procs[q].pc && s'.procs[q].state == s.procs[q].state;
  }

  lemma AlmostOk(s: Sys, s': Sys)
    requires Inv(s) && AlmostSame(s, s') && Locks(s')
    ensures Inv(s')
  {
    hide Tree, Waits, Wakes, Locks, WaitLocks, Forks, States, AlmostSame;
    AlmostTree(s, s');
    AlmostWaits(s, s');
    AlmostForks(s, s');
  }

  lemma KillOk(s: Sys, p: nat)
    requires Inv(s) && p < |s.procs| && s.procs[p].pc.Kill?
    ensures Kept(KillStep(s, p))
  {
    hide Inv, Sidestep;
    var i := s.procs[p].pc.i;
    RunningAt(s, p);
    if KillStep(s, p).Some? {
      var t := s;
      if i < |s.procs| && Pid(s, i) == s.procs[p].pc.pid {
        if s.procs[i].state.Sleeping? { RouseOk(s, i); t := Set(s, i, s.procs[i].(state := Runnable)); }
      }
      var pc := KillStep(s, p).value.procs[p].pc;
      RunningAt(t, p);
      KillSide(t.procs[p], p, |t.procs|, pc);
      SideOk(t, p, pc);
      DataOk(Go(t, p, pc), KillStep(s, p).value.data);
    }
  }

  lemma KillSide(r: Proc, p: nat, n: nat, pc: Pc)
    requires StateOk(r, p, n) && r.pc.Kill? && (pc == Run || pc.Kill?)
    ensures Sidestep(r, pc, p, n)
  {
  }

  datatype Action =
    | Thread(p: nat, ch: Choice)
    | Resume(p: nat)
    | Switched(p: nat)
    | WakeOther(p: nat, c: nat)
    | SetKilled(p: nat)

  /** The scheduler picks a RUNNABLE process and switches to it. */
  function ResumeStep(s: Sys, p: nat): Option<Sys>
    requires p < |s.procs|
  {
    var r := s.procs[p];
    if r.lock != Open || !r.state.Runnable? then None
    else
      match r.pc
      case Start => Some(Set(s, p, r.(state := Running, lock := By(p), pc := Started)))
      case Asleep => Some(Set(s, p, r.(state := Running, lock := By(p), pc := Woken)))
      case Parked(at) => Some(Set(s, p, r.(state := Running, lock := By(p), pc := ParkWoken(at))))
      case _ => None
  }

  lemma ResumeOk(s: Sys, p: nat)
    requires Inv(s) && p < |s.procs|
    ensures Kept(ResumeStep(s, p))
  {
    hide Inv;
    var r := s.procs[p];
    if r.lock == Open && r.state.Runnable? {
      match r.pc
      case Start => ResumeAt(s, p, Started);
      case Asleep => ResumeAt(s, p, Woken);
      case Parked(at) => ResumeAt(s, p, ParkWoken(at));
      case _ =>
    }
  }

  lemma ResumeAt(s: Sys, p: nat, pc: Pc)
    requires Inv(s) && p < |s.procs| && s.procs[p].lock == Open && s.procs[p].state.Runnable?
    requires var from := s.procs[p].pc;
             (from.Start? && pc == Started) || (from.Asleep? && pc == Woken)
                 || (from.Parked? && pc == ParkWoken(from.at))
    ensures Inv(Set(s, p, s.procs[p].(state := Running, lock := By(p), pc := pc)))
  {
    hide Inv, ParentOk, KidsOk, Rescue, LockMove, StateOk, Keeping, Exiting, HoldsWait;
    var s' := Set(s, p, s.procs[p].(state := Running, lock := By(p), pc := pc));
    RunningAt(s, p);
    ResumeRecord(s.procs[p], s'.procs[p], p, |s.procs|);
    OwnLock(s, s', p);
    NotInit(s, p);
    RescueOther(s, s', p);
    ResumeKids(s, s', p);
    ParentLess(s, s', s'.procs[p], p);
    ShiftOk(s, s', p);
  }

  lemma ResumeRecord(r: Proc, r': Proc, p: nat, n: nat)
    requires StateOk(r, p, n) && r' == r.(state := Running, lock := By(p), pc := r'.pc)
    requires (r.pc.Start? && r'.pc == Started) || (r.pc.Asleep? && r'.pc == Woken)
               || (r.pc.Parked? && r'.pc == ParkWoken(r.pc.at))
    ensures StateOk(r', p, n) && Keeping(r.pc, r'.pc) && HoldsWait(r.pc) == HoldsWait(r'.pc)
    ensures Held(r.pc, p) == None && Held(r'.pc, p) == Some(p) && (Exiting(r'.pc) ==> Exiting(r.pc))
  {
  }

  /** A thread takes its own lock. */
  lemma OwnLock(s: Sys, s': Sys, p: nat)
    requires p < |s.procs| && s.procs[p].lock == Open && Held(s.procs[p].pc, p) == None
    requires |s'.procs| == |s.procs| && s' == Set(s, p, s'.procs[p])
    requires s'.procs[p].lock == By(p) && Held(s'.procs[p].pc, p) == Some(p)
    ensures LockMove(s, s', p)
  {
    hide Held;
  }

  lemma ResumeKids(s: Sys, s': Sys, p: nat)
    requires Inv(s) && p < |s.procs| == |s'.procs| && s'.procs[p].state.Running?
    requires s'.procs[p].pc.Started? || s'.procs[p].pc.Woken? || s'.procs[p].pc.ParkWoken?
    ensures KidsOk(s, s', s'.procs[p], p)
  {
    hide Inv, WokeParent;
  }

  /** The scheduler, back from a process, releases its lock. */
  function SwitchedStep(s: Sys, p: nat): Option<Sys>
    requires p < |s.procs|
  {
    if s.procs[p].lock.BySched? then Some(Release(s, p)) else None
  }

  lemma SwitchedOk(s: Sys, p: nat)
    requires Inv(s) && p < |s.procs|
    ensures Kept(SwitchedStep(s, p))
  {
    hide Tree, Waits, Wakes, WaitLocks, Forks, States, Held, OffStack;
    if s.procs[p].lock.BySched? { AlmostOk(s, Release(s, p)); }
  }

  // ----- runs

  /** A timer interrupt at a place without a lock: the thread yields, to come back there. */
  function YieldStep(s: Sys, p: nat): Option<Sys>
    requires p < |s.procs|
  {
    match PointOf(s.procs[p].pc)
    case Some(at) => Some(Go(s, p, Park(None, at)))
    case None => None
  }

  lemma YieldOk(s: Sys, p: nat)
    requires Inv(s) && p < |s.procs|
    ensures Kept(YieldStep(s, p))
  {
    hide Inv, Sidestep;
    if PointOf(s.procs[p].pc).Some? {
      RunningAt(s, p);
      YieldSide(s.procs[p], p, |s.procs|);
      SideOk(s, p, Park(None, PointOf(s.procs[p].pc).value));
    }
  }

  lemma YieldSide(r: Proc, p: nat, n: nat)
    requires StateOk(r, p, n) && PointOf(r.pc).Some?
    ensures Sidestep(r, Park(None, PointOf(r.pc).value), p, n)
  {
  }

  function ThreadStep(s: Sys, p: nat, ch: Choice): Option<Sys>
    requires p < |s.procs|
  {
    if ch == Yield then YieldStep(s, p) else
    match s.procs[p].pc
    case Run => StartStep(s, p, ch)
    case ForkFind(_) => ForkStep(s, p, ch)
    case ForkMade(_) => ForkStep(s, p, ch)
    case ForkParent(_) => ForkStep(s, p, ch)
    case ForkWake(_) => ForkStep(s, p, ch)
    case ExitLock => ExitStep(s, p)
    case Reparent(_) => ReparentStep(s, p)
    case ReparentWake(_, _) => WakeStep(s, p)
    case ExitWake(_) => WakeStep(s, p)
    case ExitSelf => ExitStep(s, p)
    case ExitZombie => ExitStep(s, p)
    case ExitRelease => ExitStep(s, p)
    case ExitSched => ExitStep(s, p)
    case WaitLock => WaitStep(s, p, ch)
    case WaitScan(_, _) => WaitStep(s, p, ch)
    case WaitHeld(_) => WaitStep(s, p, ch)
    case WaitLeave => WaitStep(s, p, ch)
    case WaitSleep => WaitStep(s, p, ch)
    case SleepBoth => SleepStep(s, p)
    case SleepSet => SleepStep(s, p)
    case SleepSched => SleepStep(s, p)
    case Woken => SleepStep(s, p)
    case Kill(_, _) => KillStep(s, p)
    case _ => ParkStep(s, p)
  }

  lemma ThreadOk(s: Sys, p: nat, ch: Choice)
    requires Inv(s) && p < |s.procs|
    ensures Kept(ThreadStep(s, p, ch))
  {
    hide Inv, Kept, StartStep, ForkStep, ExitStep, ReparentStep, WakeStep, WaitStep, SleepStep, KillStep;
    hide ParkStep, YieldStep;
    if ch == Yield {
      YieldOk(s, p);
      return;
    }
    match s.procs[p].pc
    case Run => StartOk(s, p, ch);
    case ForkFind(_) => ForkFindOk(s, p, ch);
    case ForkMade(_) => ForkMadeOk(s, p, ch);
    case ForkParent(_) => ForkParentOk(s, p, ch);
    case ForkWake(_) => ForkWakeOk(s, p, ch);
    case ExitLock => ExitLockOk(s, p);
    case Reparent(_) => ReparentOk(s, p);
    case ReparentWake(_, _) => ReparentWakeOk(s, p);
    case ExitWake(_) => ExitWakeOk(s, p);
    case ExitSelf => ExitSelfOk(s, p);
    case ExitZombie => ExitZombieOk(s, p);
    case ExitRelease => ExitReleaseOk(s, p);
    case ExitSched => ExitSchedOk(s, p);
    case WaitLock => WaitLockOk(s, p, ch);
    case WaitScan(_, _) => WaitScanOk(s, p, ch);
    case WaitHeld(_) => WaitHeldOk(s, p, ch);
    case WaitLeave => WaitLeaveOk(s, p, ch);
    case WaitSleep => WaitSleepOk(s, p, ch);
    case SleepBoth => SleepBothOk(s, p);
    case SleepSet => SleepSetOk(s, p);
    case SleepSched => SleepSchedOk(s, p);
    case Woken => WokenOk(s, p);
    case Kill(_, _) => KillOk(s, p);
    case ParkHeld(_, _) => ParkOk(s, p);
    case ParkSched(_) => ParkOk(s, p);
    case Started => ParkOk(s, p);
    case Park(_, _) => ParkOk(s, p);
    case ParkWoken(_) => ParkOk(s, p);
    case _ => NoStep(s, p);
  }

  lemma NoStep(s: Sys, p: nat)
    requires p < |s.procs| && OffStack(s.procs[p].pc)
    ensures Kept(ParkStep(s, p))
  {
  }

  /** A step of a thread, of a scheduler, or of an interrupt. A step that must wait for a lock
      leaves the state as it is. */
  function Act(s: Sys, a: Action): Sys {
    if a.p >= |s.procs| then s
    else
      var o := match a
        case Thread(p, ch) => ThreadStep(s, p, ch)
        case Resume(p) => ResumeStep(s, p)
        case Switched(p) => SwitchedStep(s, p)
        case WakeOther(p, c) => WakeSlot(s, |s.procs|, p, Other(c))
        case SetKilled(p) => Some(Flagged(s, p));
      if o.Some? then o.value else s
  }

  lemma ActOk(s: Sys, a: Action)
    requires Inv(s)
    ensures Inv(Act(s, a))
  {
    hide Inv, ThreadStep, ResumeStep, SwitchedStep;
    if a.p < |s.procs| {
      match a
      case Thread(p, ch) => ThreadOk(s, p, ch);
      case Resume(p) => ResumeOk(s, p);
      case Switched(p) => SwitchedOk(s, p);
      case WakeOther(p, c) => if s.procs[p].lock == Open && s.procs[p].state.Sleeping? { RouseOk(s, p); }
      case SetKilled(p) => DataOk(s, Flagged(s, p).data);
    }
  }

  function Trace(s: Sys, acts: seq<Action>): Sys {
    if acts == [] then s else Act(Trace(s, acts[..|acts| - 1]), acts[|acts| - 1])
  }

  /** After userinit: one RUNNABLE process, init, in a table of n slots. */
  predicate Booted(s: Sys) {
    && |s.procs| > INIT && s.wait == None && s.data == Data(map[INIT := 1], map[], map[], map[], map[], 2)
    && s.procs[INIT] == Proc(Runnable, None, NoChan, Open, Start)
    && forall i | 0 <= i < |s.procs| && i != INIT :: s.procs[i] == Proc(Unused, None, NoChan, Open, Away)
  }

  lemma BootedOk(s: Sys)
    requires Booted(s)
    ensures Inv(s)
  {
    hide Held, HoldsWait, Filling, OffStack, StateOk, GaveAway, Scanned, WokeParent, Waiting, Rescue;
    forall i | 0 <= i < |s.procs|
      ensures Held(s.procs[i].pc, i) == None && !HoldsWait(s.procs[i].pc) && Filling(s.procs[i].pc) == None
      ensures StateOk(s.procs[i], i, |s.procs|)
    {
      AwayHolds(s.procs[i].pc, i);
      FirstState(s.procs[i], i, |s.procs|);
    }
    assert forall i | 0 <= i < |s.procs| :: s.procs[i].parent == None && s.procs[i].lock == Open;
  }

  lemma FirstState(r: Proc, p: nat, n: nat)
    requires r == Proc(Runnable, None, NoChan, Open, Start) || r == Proc(Unused, None, NoChan, Open, Away)
    ensures StateOk(r, p, n)
  {
  }

  lemma {:induction false} TraceOk(s: Sys, acts: seq<Action>)
    requires Booted(s)
    ensures Inv(Trace(s, acts))
  {
    hide Inv, Act;
    if acts == [] { BootedOk(s); } else {
      TraceOk(s, acts[..|acts| - 1]);
      ActOk(Trace(s, acts[..|acts| - 1]), acts[|acts| - 1]);
    }
  }

  /** No exit is lost: whenever wait_lock is free, no process asleep in kwait has a zombie child. */
  lemma NoLostExit(s: Sys, acts: seq<Action>, p: nat, c: nat)
    requires Booted(s)
    ensures var t := Trace(s, acts);
            t.wait == None && p < |t.procs| && c < |t.procs| && t.procs[p].pc.Asleep? && t.procs[p].state.Sleeping?
                && t.procs[c].parent == Some(p)
            ==> !t.procs[c].state.Zombie?
  {
    hide Locks, WaitLocks, States, Forks, Tree, Wakes, Trace;
    TraceOk(s, acts);
  }

  /** No process is orphaned: the parent of each live or zombie process other than init is alive. */
  lemma NoOrphan(s: Sys, acts: seq<Action>, c: nat)
    requires Booted(s)
    ensures var t := Trace(s, acts);
            c < |t.procs| && c != INIT && (Live(t.procs[c].state) || t.procs[c].state.Zombie?)
            ==> t.procs[c].parent.Some? && t.procs[c].parent.value < |t.procs|
                && Live(t.procs[t.procs[c].parent.value].state)
  {
    hide Locks, WaitLocks, States, Forks, Waits, Wakes, Trace, GaveAway, Live;
    TraceOk(s, acts);
  }

  /** A slot is freed only once its thread is off its kernel stack for good. */
  lemma FreedOffStack(s: Sys, acts: seq<Action>, p: nat, i: nat)
    requires Booted(s)
    ensures var t := Trace(s, acts);
            p < |t.procs| && t.procs[p].pc == WaitHeld(i) && i < |t.procs| && t.procs[i].state.Zombie? ==>
                t.procs[i].pc.Dead?
  {
    hide Inv, Trace;
    TraceOk(s, acts);
    var t := Trace(s, acts);
    if p < |t.procs| && t.procs[p].pc == WaitHeld(i) && i < |t.procs| && t.procs[i].state.Zombie? {
      OnStack(t, p);
      OffItsStack(t, p, i);
    }
  }
}
