/** Processes and their locks as a state machine: fork, exit, wait, sleep, wakeup and kill of
    proc.c, interleaved in any way.

    A step of a kernel thread is one lock operation, or one critical section that holds a single
    lock and touches one slot of the process table. */
module Processes {
  import opened Options

  datatype State = Unused | Used | Sleeping | Runnable | Running | Zombie

  datatype Chan = NoChan | OnProc(p: nat) | Other(c: nat)

  /** A p->lock: free, held by the kernel thread of a process, or by the scheduler that a process
      has just switched to. */
  datatype Lock = Open | By(p: nat) | BySched

  /** Where the kernel thread of a process is. */
  datatype Pc =
    | Away                             // no thread
    | Start                            // ready to enter forkret
    | Started                          // in forkret, p->lock held
    | Run                              // elsewhere, no lock of this module held
    | ForkFind(i: nat)                 // allocproc looks at slot i
    | ForkMade(i: nat)                 // slot i is USED, its lock held
    | ForkParent(i: nat)               // about to set the parent of slot i
    | ForkWake(i: nat)                 // about to make slot i RUNNABLE
    | ExitLock                         // about to take wait_lock
    | Reparent(i: nat)                 // reparent looks at slot i
    | ReparentWake(i: nat, k: nat)     // slot i was given to init; wakeup(initproc) looks at slot k
    | ExitWake(k: nat)                 // wakeup(p->parent) looks at slot k
    | ExitSelf                         // about to take p->lock
    | ExitZombie                       // both locks held, about to become ZOMBIE
    | ExitRelease                      // ZOMBIE, about to release wait_lock
    | ExitSched                        // ZOMBIE, about to switch away for good
    | Dead                             // off its stack for good
    | WaitLock                         // kwait is about to take wait_lock
    | WaitScan(i: nat, kids: bool)     // kwait looks at slot i
    | WaitHeld(i: nat)                 // child i found, its lock held too
    | WaitLeave                        // about to release wait_lock and return
    | WaitSleep                        // scan done, about to take p->lock in sleep
    | SleepBoth                        // sleep holds both locks
    | SleepSet                         // wait_lock released, about to become SLEEPING
    | SleepSched                       // SLEEPING, about to switch away
    | Asleep                           // off its stack in kwait's sleep
    | Woken                            // back from sched in kwait's sleep, p->lock held
    | Park(c: Option<nat>, at: Point)  // yield, or sleep on another channel: about to take p->lock
    | ParkHeld(c: Option<nat>, at: Point)
    | ParkSched(at: Point)
    | Parked(at: Point)                // off its stack there
    | ParkWoken(at: Point)
    | Kill(i: nat, pid: nat)           // kkill looks at slot i

  /** The places without a lock, at which a timer interrupt may make the thread yield. */
  datatype Point =
    | AtRun
    | AtForkFind(i: nat)
    | AtForkParent(i: nat)
    | AtForkWake(i: nat)
    | AtExitLock
    | AtWaitLock
    | AtKill(i: nat, pid: nat)

  function PointOf(pc: Pc): Option<Point> {
    match pc
    case Run => Some(AtRun)
    case ForkFind(i) => Some(AtForkFind(i))
    case ForkParent(i) => Some(AtForkParent(i))
    case ForkWake(i) => Some(AtForkWake(i))
    case ExitLock => Some(AtExitLock)
    case WaitLock => Some(AtWaitLock)
    case Kill(i, pid) => Some(AtKill(i, pid))
    case _ => None
  }

  /** Where a thread that yielded goes on. */
  function Back(at: Point): Pc {
    match at
    case AtRun => Run
    case AtForkFind(i) => ForkFind(i)
    case AtForkParent(i) => ForkParent(i)
    case AtForkWake(i) => ForkWake(i)
    case AtExitLock => ExitLock
    case AtWaitLock => WaitLock
    case AtKill(i, pid) => Kill(i, pid)
  }

  predicate Paused(pc: Pc) {
    pc.Park? || pc.ParkHeld? || pc.ParkSched? || pc.Parked? || pc.ParkWoken?
  }

  datatype Proc = Proc(state: State, parent: Option<nat>, chan: Chan, lock: Lock, pc: Pc)

  /** What a call of fork, wait or kill returns. */
  datatype Answer = Failed | Forked(pid: nat) | Child(pid: nat, status: int) | Signalled

  /** The other fields of the slots; the local variables of the calls under way: the status given to
      kexit, and what will be or was returned last; and nextpid. */
  datatype Data = Data(pid: map<nat, nat>, killed: map<nat, bool>, status: map<nat, int>,
                       arg: map<nat, int>, ret: map<nat, Answer>, nextpid: nat)

  /** The process table and the holder of wait_lock. */
  datatype Sys = Sys(procs: seq<Proc>, wait: Option<nat>, data: Data)

  function Pid(s: Sys, i: nat): nat {
    if i in s.data.pid then s.data.pid[i] else 0
  }

  predicate KilledAt(s: Sys, i: nat) {
    i in s.data.killed && s.data.killed[i]
  }

  function Status(s: Sys, i: nat): int {
    if i in s.data.status then s.data.status[i] else 0
  }

  function Arg(s: Sys, p: nat): int {
    if p in s.data.arg then s.data.arg[p] else 0
  }

  function Ret(s: Sys, p: nat): Answer {
    if p in s.data.ret then s.data.ret[p] else Failed
  }

  const INIT: nat := 0

  // ----- what a program counter means

  predicate HoldsWait(pc: Pc) {
    pc.Reparent? || pc.ReparentWake? || pc.ExitWake? || pc.ExitSelf? || pc.ExitZombie? || pc.ExitRelease?
    || pc.WaitScan? || pc.WaitHeld? || pc.WaitLeave? || pc.WaitSleep? || pc.SleepBoth?
  }

  /** The p->lock that thread p holds. */
  function Held(pc: Pc, p: nat): Option<nat> {
    match pc
    case ForkMade(i) => Some(i)
    case WaitHeld(i) => Some(i)
    case Started => Some(p)
    case ExitZombie => Some(p)
    case ExitRelease => Some(p)
    case ExitSched => Some(p)
    case SleepBoth => Some(p)
    case SleepSet => Some(p)
    case SleepSched => Some(p)
    case Woken => Some(p)
    case ParkHeld(_, _) => Some(p)
    case ParkSched(_) => Some(p)
    case ParkWoken(_) => Some(p)
    case _ => None
  }

  /** The thread is not on its kernel stack. */
  predicate OffStack(pc: Pc) {
    pc.Away? || pc.Start? || pc.Dead? || pc.Asleep? || pc.Parked?
  }

  predicate Exiting(pc: Pc) {
    pc.ExitLock? || pc.Reparent? || pc.ReparentWake? || pc.ExitWake? || pc.ExitSelf? || pc.ExitZombie?
    || pc.ExitRelease? || pc.ExitSched? || pc.Dead? || (Paused(pc) && pc.at.AtExitLock?)
  }

  predicate Live(st: State) {
    st.Sleeping? || st.Runnable? || st.Running?
  }

  /** The thread, exiting, has already given slot c away if it was its child. */
  predicate GaveAway(pc: Pc, c: nat) {
    match pc
    case Reparent(i) => c < i
    case ReparentWake(i, _) => c <= i
    case ExitWake(_) => true
    case ExitSelf => true
    case ExitZombie => true
    case ExitRelease => true
    case ExitSched => true
    case Dead => true
    case _ => false
  }

  /** The thread, in kwait, has looked at slot c and found no zombie. */
  predicate Scanned(pc: Pc, c: nat) {
    match pc
    case WaitScan(i, _) => c < i
    case WaitHeld(i) => c < i
    case WaitSleep => true
    case SleepBoth => true
    case _ => false
  }

  /** In kwait's sleep, past releasing wait_lock, and not woken. */
  predicate Waiting(r: Proc) {
    r.pc.SleepSet? || r.pc.SleepSched? || (r.pc.Asleep? && r.state.Sleeping?)
  }

  /** The thread, exiting, has already woken the process in slot q if that is its parent. */
  predicate WokeParent(pc: Pc, q: nat) {
    pc.ExitSelf? || pc.ExitZombie? || (pc.ExitWake? && q < pc.k)
  }

  // ----- the invariant

  /** The state and channel of a process at each program counter. */
  predicate StateOk(r: Proc, p: nat, n: nat) {
    match r.pc
    case Away => r.state.Unused? || r.state.Used?
    case Start => r.state.Runnable?
    case ExitRelease => r.state.Zombie?
    case ExitSched => r.state.Zombie?
    case Dead => r.state.Zombie?
    case SleepSched => r.state.Sleeping? && r.chan == OnProc(p)
    case Asleep => (r.state.Sleeping? || r.state.Runnable?) && r.chan == OnProc(p)
    case Park(_, at) => r.state.Running? && PointOk(at, p, n)
    case ParkHeld(_, at) => r.state.Running? && PointOk(at, p, n)
    case ParkSched(at) => (r.state.Runnable? || (r.state.Sleeping? && r.chan.Other?)) && PointOk(at, p, n)
    case Parked(at) => (r.state.Runnable? || (r.state.Sleeping? && r.chan.Other?)) && PointOk(at, p, n)
    case ParkWoken(at) => r.state.Running? && PointOk(at, p, n)
    case ForkMade(i) => r.state.Running? && i < n && i != p
    case ForkParent(i) => r.state.Running? && i < n && i != p
    case ForkWake(i) => r.state.Running? && i < n && i != p
    case WaitHeld(i) => r.state.Running? && i < n && i != p
    case _ => r.state.Running?
  }

  predicate PointOk(at: Point, p: nat, n: nat) {
    at.AtForkParent? || at.AtForkWake? ==> at.i < n && at.i != p
  }

  ghost predicate Locks(s: Sys) {
    && (forall p, i | 0 <= p < |s.procs| && 0 <= i < |s.procs| ::
         s.procs[i].lock == By(p) <==> Held(s.procs[p].pc, p) == Some(i))
    && (forall i | 0 <= i < |s.procs| && s.procs[i].lock.By? :: s.procs[i].lock.p < |s.procs|)
    && (forall i | 0 <= i < |s.procs| && s.procs[i].lock.BySched? :: OffStack(s.procs[i].pc) && !s.procs[i].pc.Away?)
  }

  ghost predicate WaitLocks(s: Sys) {
    && (forall p | 0 <= p < |s.procs| :: HoldsWait(s.procs[p].pc) <==> s.wait == Some(p))
    && (s.wait.Some? ==> s.wait.value < |s.procs|)
  }

  ghost predicate States(s: Sys) {
    forall p | 0 <= p < |s.procs| :: StateOk(s.procs[p], p, |s.procs|)
  }

  /** A slot that a fork is filling belongs to that fork alone. */
  ghost predicate Forks(s: Sys) {
    Filled(s) && Separate(s) && Adopted(s)
  }

  ghost predicate Filled(s: Sys) {
    forall p | 0 <= p < |s.procs| && Filling(s.procs[p].pc).Some? ::
      var i := Filling(s.procs[p].pc).value; i < |s.procs| && s.procs[i].state.Used?
  }

  ghost predicate Separate(s: Sys) {
    forall p, q | 0 <= p < q < |s.procs| && Filling(s.procs[p].pc).Some? ::
        Filling(s.procs[p].pc) != Filling(s.procs[q].pc)
  }

  ghost predicate Adopted(s: Sys) {
    forall p | 0 <= p < |s.procs| && Adopting(s.procs[p].pc).Some? && Adopting(s.procs[p].pc).value < |s.procs| ::
      s.procs[Adopting(s.procs[p].pc).value].parent == Some(p)
  }

  function Filling(pc: Pc): Option<nat> {
    if pc.ForkMade? || pc.ForkParent? || pc.ForkWake? then Some(pc.i)
    else if Paused(pc) && (pc.at.AtForkParent? || pc.at.AtForkWake?) then Some(pc.at.i)
    else None
  }

  /** The slot that a fork fills, once it has its parent. */
  function Adopting(pc: Pc): Option<nat> {
    if pc.ForkWake? then Some(pc.i) else if Paused(pc) && pc.at.AtForkWake? then Some(pc.at.i) else None
  }

  /** The thread goes on filling the slot, or has nothing more to do with it. */
  predicate Keeping(pc: Pc, pc': Pc) {
    (Filling(pc') == None && Adopting(pc') == None) || (Filling(pc') == Filling(pc) && Adopting(pc') == Adopting(pc))
  }

  /** Every parent is alive and has not given the child away; every process has a parent. */
  ghost predicate Tree(s: Sys) {
    && INIT < |s.procs| && Live(s.procs[INIT].state) && !Exiting(s.procs[INIT].pc) && s.procs[INIT].parent == None
    && (forall c | 0 <= c < |s.procs| && s.procs[c].parent.Some? ::
          var q := s.procs[c].parent.value;
          q < |s.procs| && q != c && Live(s.procs[q].state) && !GaveAway(s.procs[q].pc, c))
    && (forall c | 0 <= c < |s.procs| && c != INIT && (Live(s.procs[c].state) || s.procs[c].state.Zombie?) ::
         s.procs[c].parent.Some?)
    && (forall c | 0 <= c < |s.procs| && s.procs[c].state.Unused? :: s.procs[c].parent == None)
  }

  /** While reparent has given init a child, init is still going to be woken. */
  ghost predicate Rescue(s: Sys, p: nat) {
    p == INIT && s.wait.Some? && s.wait.value < |s.procs| && s.procs[s.wait.value].pc.ReparentWake?
        && s.procs[s.wait.value].pc.k <= INIT
  }

  /** Nobody who waits has a zombie child, apart from init during a reparent. */
  ghost predicate Waits(s: Sys) {
    forall c | 0 <= c < |s.procs| && s.procs[c].parent.Some? && s.procs[c].parent.value < |s.procs|
        && s.procs[c].state.Zombie? ::
      var p := s.procs[c].parent.value;
      !Scanned(s.procs[p].pc, c) && (Waiting(s.procs[p]) ==> Rescue(s, p))
  }

  /** A parent that an exiting child has woken does not wait. */
  ghost predicate Wakes(s: Sys) {
    forall c | 0 <= c < |s.procs| && s.procs[c].parent.Some? && s.procs[c].parent.value < |s.procs| ::
      var p := s.procs[c].parent.value;
      WokeParent(s.procs[c].pc, p) ==> !Waiting(s.procs[p])
  }

  ghost predicate Inv(s: Sys) {
    Locks(s) && WaitLocks(s) && States(s) && Forks(s) && Tree(s) && Waits(s) && Wakes(s)
  }

  // ----- how a step of one thread keeps the invariant

  /** Slots other than p agree on everything but their locks, and p keeps its parent. */
  ghost predicate Agree(s: Sys, s': Sys, p: nat) {
    && p < |s.procs| == |s'.procs| && s'.procs[p].parent == s.procs[p].parent
    && (forall q | 0 <= q < |s.procs| && q != p :: s'.procs[q] == s.procs[q].(lock := s'.procs[q].lock))
  }

  /** The new record of p suits its children, its parent and itself. */
  ghost predicate Fits(s: Sys, s': Sys, p: nat)
    requires p < |s.procs| == |s'.procs|
  {
    var r := s'.procs[p];
    && (forall c | 0 <= c < |s.procs| && s.procs[c].parent == Some(p) :: Live(r.state) && !GaveAway(r.pc, c))
    && (p == INIT ==> Live(r.state) && !Exiting(r.pc))
    && (if r.state.Unused? then r.parent == None else (p == INIT || r.state.Used? || r.parent.Some?))
  }

  /** The new record of p leaves nobody waiting for a zombie. */
  ghost predicate Heeds(s: Sys, s': Sys, p: nat)
    requires p < |s.procs| == |s'.procs|
  {
    var r := s'.procs[p];
    && (forall c | 0 <= c < |s.procs| && s.procs[c].parent == Some(p) ::
          && (s.procs[c].state.Zombie? ==> !Scanned(r.pc, c) && (Waiting(r) ==> Rescue(s', p)))
          && (WokeParent(s.procs[c].pc, p) ==> !Waiting(r)))
    && (r.parent.Some? && r.parent.value < |s.procs| ==>
          var q := r.parent.value;
          && (r.state.Zombie? ==> !Scanned(s.procs[q].pc, p) && (!Waiting(s.procs[q]) || Rescue(s', q)))
          && (WokeParent(r.pc, q) ==> !Waiting(s.procs[q])))
    && (Rescue(s, INIT) ==> Rescue(s', INIT) || !Waiting(s'.procs[INIT]))
  }

  lemma TreeKept(s: Sys, s': Sys, p: nat)
    requires Tree(s) && Agree(s, s', p) && Fits(s, s', p)
    ensures Tree(s')
  {
    hide GaveAway, Exiting;
    forall c | 0 <= c < |s'.procs| && s'.procs[c].parent.Some?
      ensures var q := s'.procs[c].parent.value;
              q < |s'.procs| && q != c && Live(s'.procs[q].state) && !GaveAway(s'.procs[q].pc, c)
    {
      assert s'.procs[c].parent == s.procs[c].parent;
    }
  }

  lemma WaitsKept(s: Sys, s': Sys, p: nat)
    requires Tree(s) && Waits(s) && Wakes(s) && Agree(s, s', p) && Fits(s, s', p) && Heeds(s, s', p)
    ensures Waits(s') && Wakes(s')
  {
    hide GaveAway, Exiting, Live, Scanned, WokeParent, Waiting, Rescue;
    forall c | 0 <= c < |s'.procs| && s'.procs[c].parent.Some? && s'.procs[c].parent.value < |s'.procs|
      ensures var q := s'.procs[c].parent.value;
              && (s'.procs[c].state.Zombie? ==> !Scanned(s'.procs[q].pc, c) && (Waiting(s'.procs[q]) ==> Rescue(s', q)))
              && (WokeParent(s'.procs[c].pc, q) ==> !Waiting(s'.procs[q]))
    {
      var q := s'.procs[c].parent.value;
      assert s'.procs[c].parent == s.procs[c].parent;
      RescueInit(s, q);
      if q != p { WaitingSame(s.procs[q], s'.procs[q]); }
    }
  }

  lemma RescueInit(s: Sys, p: nat)
    ensures Rescue(s, p) ==> p == INIT
  {
  }

  lemma WaitingSame(r: Proc, r': Proc)
    requires r' == r.(lock := r'.lock)
    ensures Waiting(r') == Waiting(r)
  {
  }

  /** Thread p takes or drops p->locks as its program counter says. */
  ghost predicate LockMove(s: Sys, s': Sys, p: nat)
    requires p < |s.procs| == |s'.procs|
  {
    var h, h' := Held(s.procs[p].pc, p), Held(s'.procs[p].pc, p);
    && (h'.Some? ==> h'.value < |s.procs|)
    && (forall i | 0 <= i < |s.procs| ::
          if h' == Some(i) then s'.procs[i].lock == By(p) && (h == h' || s.procs[i].lock == Open)
          else if h == Some(i) then s'.procs[i].lock == Open || (s'.procs[i].lock == BySched && i == p)
          else s'.procs[i].lock == s.procs[i].lock)
    && (s'.procs[p].lock.BySched? ==> OffStack(s'.procs[p].pc) && !s'.procs[p].pc.Away?)
  }

  ghost predicate WaitMove(s: Sys, s': Sys, p: nat)
    requires p < |s.procs| == |s'.procs|
  {
    var h, h' := HoldsWait(s.procs[p].pc), HoldsWait(s'.procs[p].pc);
    if h == h' then s'.wait == s.wait
    else if h' then s.wait == None && s'.wait == Some(p)
    else s'.wait == None
  }

  /** As far as locks go, the other threads are where they were. */
  ghost predicate SameHolds(s: Sys, s': Sys, p: nat) {
    && p < |s.procs| == |s'.procs|
    && (forall q | 0 <= q < |s.procs| && q != p ::
          && Held(s'.procs[q].pc, q) == Held(s.procs[q].pc, q) && HoldsWait(s'.procs[q].pc) == HoldsWait(s.procs[q].pc)
          && (s'.procs[q].lock.BySched? ==> OffStack(s'.procs[q].pc) && !s'.procs[q].pc.Away?))
  }

  lemma AgreeHolds(s: Sys, s': Sys, p: nat)
    requires Locks(s) && Agree(s, s', p) && LockMove(s, s', p)
    ensures SameHolds(s, s', p)
  {
    hide Held, HoldsWait, OffStack;
  }

  lemma LocksKept(s: Sys, s': Sys, p: nat)
    requires Locks(s) && SameHolds(s, s', p) && LockMove(s, s', p)
    ensures Locks(s')
  {
    hide Held, OffStack, HoldsWait;
    forall q, i | 0 <= q < |s'.procs| && 0 <= i < |s'.procs|
      ensures s'.procs[i].lock == By(q) <==> Held(s'.procs[q].pc, q) == Some(i)
    {
      assert s.procs[i].lock == By(q) <==> Held(s.procs[q].pc, q) == Some(i);
      assert s.procs[i].lock == By(p) <==> Held(s.procs[p].pc, p) == Some(i);
    }
  }

  lemma WaitLocksKept(s: Sys, s': Sys, p: nat)
    requires WaitLocks(s) && SameHolds(s, s', p) && WaitMove(s, s', p)
    ensures WaitLocks(s')
  {
    hide HoldsWait, Held, OffStack;
    assert HoldsWait(s.procs[p].pc) <==> s.wait == Some(p);
  }

  lemma ForksKept(s: Sys, s': Sys, p: nat)
    requires Forks(s) && Agree(s, s', p)
    requires Keeping(s.procs[p].pc, s'.procs[p].pc)
    requires s.procs[p].state.Used? ==> s'.procs[p].state.Used?
    ensures Forks(s')
  {
    hide Filling, Adopting;
  }

  /** A step in which only thread p moves. */
  ghost predicate Moves(s: Sys, s': Sys, p: nat) {
    && Agree(s, s', p) && Fits(s, s', p) && Heeds(s, s', p) && LockMove(s, s', p) && WaitMove(s, s', p)
    && StateOk(s'.procs[p], p, |s.procs|)
    && Keeping(s.procs[p].pc, s'.procs[p].pc)
    && (s.procs[p].state.Used? ==> s'.procs[p].state.Used?)
  }

  lemma MovesOk(s: Sys, s': Sys, p: nat)
    requires Inv(s) && Moves(s, s', p)
    ensures Inv(s')
  {
    hide Tree, Waits, Wakes, Locks, WaitLocks, Forks, Fits, Heeds, LockMove, WaitMove, Keeping, Held, HoldsWait;
    hide SameHolds;
    TreeKept(s, s', p);
    WaitsKept(s, s', p);
    AgreeHolds(s, s', p);
    LocksKept(s, s', p);
    WaitLocksKept(s, s', p);
    ForksKept(s, s', p);
    forall q | 0 <= q < |s'.procs| ensures StateOk(s'.procs[q], q, |s'.procs|) {
      if q != p { StateOkSame(s.procs[q], s'.procs[q], q, |s.procs|); }
    }
  }

  lemma StateOkSame(r: Proc, r': Proc, q: nat, n: nat)
    requires r' == r.(lock := r'.lock)
    ensures StateOk(r', q, n) == StateOk(r, q, n)
  {
  }

  // ----- steps

  function Set(s: Sys, p: nat, r: Proc): Sys
    requires p < |s.procs|
  {
    s.(procs := s.procs[p := r])
  }

  function Go(s: Sys, p: nat, pc: Pc): Sys
    requires p < |s.procs|
  {
    Set(s, p, s.procs[p].(pc := pc))
  }

  function Take(s: Sys, i: nat, p: nat): Sys
    requires i < |s.procs|
  {
    Set(s, i, s.procs[i].(lock := By(p)))
  }

  function Release(s: Sys, i: nat): Sys
    requires i < |s.procs|
  {
    Set(s, i, s.procs[i].(lock := Open))
  }

  /** The call of p is going to return a. */
  function Say(s: Sys, p: nat, a: Answer): Sys {
    s.(data := s.data.(ret := s.data.ret[p := a]))
  }

  /** None of the other fields plays a part in the invariant. */
  lemma DataOk(s: Sys, data: Data)
    requires Inv(s)
    ensures Inv(s.(data := data))
  {
    hide Locks, WaitLocks, States, Forks, Tree, Waits, Wakes;
    DataLocks(s, s.(data := data));
    DataTree(s, s.(data := data));
    DataWaits(s, s.(data := data));
  }

  lemma DataLocks(s: Sys, s': Sys)
    requires Locks(s) && WaitLocks(s) && States(s) && Forks(s) && s'.procs == s.procs && s'.wait == s.wait
    ensures Locks(s') && WaitLocks(s') && States(s') && Forks(s')
  {
    hide Held, OffStack, HoldsWait, StateOk, Filling, Adopting;
  }

  lemma DataTree(s: Sys, s': Sys)
    requires Tree(s) && s'.procs == s.procs && s'.wait == s.wait
    ensures Tree(s')
  {
    hide Live, Exiting, GaveAway;
  }

  lemma DataWaits(s: Sys, s': Sys)
    requires Waits(s) && Wakes(s) && s'.procs == s.procs && s'.wait == s.wait
    ensures Waits(s') && Wakes(s')
  {
    hide Scanned, Waiting, WokeParent;
    assert forall q :: Rescue(s', q) == Rescue(s, q);
  }

  /** What a thread outside this module may start, and how an allocation or a copyout ends. */
  datatype Choice =
    | Fork
    | Exit(status: int)
    | Wait
    | KillPid(pid: nat)
    | SleepOn(c: nat)
    | Yield
    | Done
    | Fail

  function StartStep(s: Sys, p: nat, ch: Choice): Option<Sys>
    requires p < |s.procs|
  {
    match ch
    case Fork => Some(Go(s, p, ForkFind(0)))
    case Exit(status) =>
      if p == INIT then None
      else Some(Go(s, p, ExitLock).(data := s.data.(arg := s.data.arg[p := status])))
    case Wait => Some(Go(s, p, WaitLock))
    case KillPid(pid) => Some(Go(s, p, Kill(0, pid)))
    case SleepOn(c) => Some(Go(s, p, Park(Some(c), AtRun)))
    case _ => None
  }

  /** What holds of the children of p, were r its record. */
  ghost predicate KidsOk(s: Sys, s': Sys, r: Proc, p: nat) {
    forall c | 0 <= c < |s.procs| && s.procs[c].parent == Some(p) ::
      && Live(r.state) && !GaveAway(r.pc, c)
      && (s.procs[c].state.Zombie? ==> !Scanned(r.pc, c) && (Waiting(r) ==> Rescue(s', p)))
      && (WokeParent(s.procs[c].pc, p) ==> !Waiting(r))
  }

  /** ... and of its parent. */
  ghost predicate ParentOk(s: Sys, s': Sys, r: Proc, p: nat) {
    r.parent.Some? && r.parent.value < |s.procs| ==>
      var q := r.parent.value;
      && (r.state.Zombie? ==> !Scanned(s.procs[q].pc, p) && (!Waiting(s.procs[q]) || Rescue(s', q)))
      && (WokeParent(r.pc, q) ==> !Waiting(s.procs[q]))
  }

  lemma Suits(s: Sys, s': Sys, p: nat)
    requires Tree(s) && Agree(s, s', p) && KidsOk(s, s', s'.procs[p], p) && ParentOk(s, s', s'.procs[p], p)
    requires p == INIT ==> Live(s'.procs[p].state) && !Exiting(s'.procs[p].pc)
    requires (Live(s.procs[p].state) && !s'.procs[p].state.Unused?) || s'.procs[p].state == s.procs[p].state
    requires Rescue(s, INIT) ==> Rescue(s', INIT) || !Waiting(s'.procs[INIT])
    ensures Fits(s, s', p) && Heeds(s, s', p)
  {
    hide GaveAway, Scanned, WokeParent, Waiting, Rescue, Exiting;
  }

  /** A thread on its stack that is not going to sleep. */
  predicate Up(pc: Pc) {
    !OffStack(pc) && !pc.SleepSet? && !pc.SleepSched?
  }

  lemma Kids(s: Sys, p: nat)
    requires Inv(s) && p < |s.procs| && Up(s.procs[p].pc)
    ensures forall s' :: KidsOk(s, s', s.procs[p], p)
  {
    hide Locks, WaitLocks, Forks, GaveAway, Scanned, WokeParent, Rescue, Live, States;
  }

  lemma KidsLess(s: Sys, s': Sys, r: Proc, r': Proc, p: nat)
    requires KidsOk(s, s', r, p) && Live(r'.state) && !Waiting(r')
    requires forall c: nat :: (GaveAway(r'.pc, c) ==> GaveAway(r.pc, c)) && (Scanned(r'.pc, c) ==> Scanned(r.pc, c))
    ensures KidsOk(s, s', r', p)
  {
    hide GaveAway, Scanned, WokeParent, Waiting, Live;
  }

  lemma ParentLess(s: Sys, s': Sys, r: Proc, p: nat)
    requires !r.state.Zombie? && !r.pc.ExitWake? && !r.pc.ExitSelf? && !r.pc.ExitZombie?
    ensures ParentOk(s, s', r, p)
  {
    hide Scanned, Waiting, Rescue;
  }

  /** init is rescued by somebody else. */
  lemma RescueOther(s: Sys, s': Sys, p: nat)
    requires Agree(s, s', p) && s'.wait == s.wait && !s.procs[p].pc.ReparentWake?
    ensures Rescue(s, INIT) ==> Rescue(s', INIT)
  {
  }

  lemma OnStack(s: Sys, p: nat)
    requires Inv(s) && p < |s.procs|
    ensures !OffStack(s.procs[p].pc) ==> !s.procs[p].lock.BySched?
    ensures HoldsWait(s.procs[p].pc) <==> s.wait == Some(p)
    ensures forall i | 0 <= i < |s.procs| :: s.procs[i].lock == By(p) <==> Held(s.procs[p].pc, p) == Some(i)
    ensures StateOk(s.procs[p], p, |s.procs|)
    ensures Held(s.procs[p].pc, p).Some? ==> Held(s.procs[p].pc, p).value < |s.procs|
  {
    hide OffStack, HoldsWait, Held, StateOk, Tree, Waits, Wakes, Forks;
    HeldBound(s.procs[p], p, |s.procs|);
  }

  lemma HeldBound(r: Proc, p: nat, n: nat)
    requires StateOk(r, p, n) && p < n
    ensures Held(r.pc, p).Some? ==> Held(r.pc, p).value < n
  {
  }

  /** Thread p moves on, perhaps to another state. */
  lemma ShiftOk(s: Sys, s': Sys, p: nat)
    requires Inv(s) && Agree(s, s', p)
    requires LockMove(s, s', p) && WaitMove(s, s', p) && StateOk(s'.procs[p], p, |s.procs|)
    requires Keeping(s.procs[p].pc, s'.procs[p].pc)
    requires KidsOk(s, s', s'.procs[p], p) && ParentOk(s, s', s'.procs[p], p)
    requires p == INIT ==> Live(s'.procs[p].state) && !Exiting(s'.procs[p].pc)
    requires (Live(s.procs[p].state) && !s'.procs[p].state.Unused?) || s'.procs[p].state == s.procs[p].state
    requires Rescue(s, INIT) ==> Rescue(s', INIT) || !Waiting(s'.procs[INIT])
    ensures Inv(s')
  {
    hide Locks, WaitLocks, Forks, StateOk, Waits, Wakes, GaveAway, Scanned, WokeParent, Waiting, Rescue, Held;
    hide HoldsWait, KidsOk, ParentOk, LockMove, WaitMove, Exiting, Fits, Heeds;
    Suits(s, s', p);
    MovesOk(s, s', p);
  }

  /** ... or stays RUNNING. */
  lemma MoveOk(s: Sys, s': Sys, p: nat)
    requires Inv(s) && Agree(s, s', p) && Up(s.procs[p].pc) && s.procs[p].state.Running? && s'.procs[p].state.Running?
    requires LockMove(s, s', p) && WaitMove(s, s', p) && StateOk(s'.procs[p], p, |s.procs|)
    requires Keeping(s.procs[p].pc, s'.procs[p].pc)
    requires forall c: nat :: (GaveAway(s'.procs[p].pc, c) ==> GaveAway(s.procs[p].pc, c))
               && (Scanned(s'.procs[p].pc, c) ==> Scanned(s.procs[p].pc, c))
    requires !Waiting(s'.procs[p]) && ParentOk(s, s', s'.procs[p], p) && (p == INIT ==> !Exiting(s'.procs[p].pc))
    requires Rescue(s, INIT) ==> Rescue(s', INIT) || !Waiting(s'.procs[INIT])
    ensures Inv(s')
  {
    hide Inv, StateOk, GaveAway, Scanned, Waiting, Rescue, Held, HoldsWait, KidsOk, ParentOk, LockMove, WaitMove;
    hide Exiting, Up;
    Kids(s, p);
    KidsLess(s, s', s.procs[p], s'.procs[p], p);
    ShiftOk(s, s', p);
  }

  /** ... nor any lock. */
  lemma GoOk(s: Sys, p: nat, pc: Pc)
    requires Inv(s) && p < |s.procs| && Up(s.procs[p].pc) && s.procs[p].state.Running? && !s.procs[p].pc.ReparentWake?
    requires Held(pc, p) == Held(s.procs[p].pc, p) && HoldsWait(pc) == HoldsWait(s.procs[p].pc)
    requires Keeping(s.procs[p].pc, pc)
    requires StateOk(s.procs[p].(pc := pc), p, |s.procs|) && !OffStack(pc) && !pc.SleepSet?
    requires p == INIT ==> !Exiting(pc)
    requires forall c: nat :: (GaveAway(pc, c) ==> GaveAway(s.procs[p].pc, c))
               && (Scanned(pc, c) ==> Scanned(s.procs[p].pc, c))
    requires ParentOk(s, s, s.procs[p].(pc := pc), p)
    ensures Inv(Go(s, p, pc))
  {
    hide Inv, StateOk, GaveAway, Scanned, WokeParent, Rescue, Held, HoldsWait, ParentOk, Exiting;
    var s' := Go(s, p, pc);
    OnStack(s, p);
    RescueOther(s, s', p);
    ParentSame(s, s', s'.procs[p], p);
    assert !pc.SleepSched? by { SleepSchedState(s'.procs[p], p, |s.procs|); }
    MoveOk(s, s', p);
  }

  /** A thread goes on between two places that hold the same locks and promise nothing new. */
  ghost predicate Sidestep(r: Proc, pc: Pc, p: nat, n: nat) {
    && Up(r.pc) && r.state.Running? && !r.pc.ReparentWake?
    && Held(pc, p) == Held(r.pc, p) && HoldsWait(pc) == HoldsWait(r.pc) && Keeping(r.pc, pc)
    && StateOk(r.(pc := pc), p, n) && !OffStack(pc) && !pc.SleepSet? && (Exiting(pc) ==> Exiting(r.pc) || p != INIT)
    && (forall c: nat :: !GaveAway(pc, c) && !Scanned(pc, c))
    && !pc.ExitWake? && !pc.ExitSelf? && !pc.ExitZombie?
  }

  lemma SideOk(s: Sys, p: nat, pc: Pc)
    requires Inv(s) && p < |s.procs| && Sidestep(s.procs[p], pc, p, |s.procs|)
    ensures Inv(Go(s, p, pc))
  {
    hide Inv, ParentOk, Held, HoldsWait, Keeping, StateOk, OffStack, Exiting, GaveAway, Scanned, Up;
    ParentLess(s, s, s.procs[p].(pc := pc), p);
    NotInit(s, p);
    GoOk(s, p, pc);
  }

  lemma SleepSchedState(r: Proc, p: nat, n: nat)
    requires StateOk(r, p, n) && r.state.Running?
    ensures !r.pc.SleepSched?
  {
  }

  lemma ParentSame(s: Sys, s': Sys, r: Proc, p: nat)
    requires ParentOk(s, s, r, p) && !r.state.Zombie?
    ensures ParentOk(s, s', r, p)
  {
    hide Scanned, Waiting, WokeParent, Rescue;
  }

  ghost predicate Kept(o: Option<Sys>) {
    o.Some? ==> Inv(o.value)
  }

  lemma StartOk(s: Sys, p: nat, ch: Choice)
    requires Inv(s) && p < |s.procs| && s.procs[p].pc.Run?
    ensures Kept(StartStep(s, p, ch))
  {
    hide Inv, Sidestep;
    if StartStep(s, p, ch).Some? {
      var pc := StartStep(s, p, ch).value.procs[p].pc;
      RunningAt(s, p);
      StartSide(s.procs[p], p, |s.procs|, pc);
      SideOk(s, p, pc);
      DataOk(Go(s, p, pc), StartStep(s, p, ch).value.data);
    }
  }

  lemma RunningAt(s: Sys, p: nat)
    requires Inv(s) && p < |s.procs|
    ensures StateOk(s.procs[p], p, |s.procs|)
  {
    hide StateOk, Locks, WaitLocks, Forks, Tree, Waits, Wakes;
  }

  lemma StartSide(r: Proc, p: nat, n: nat, pc: Pc)
    requires StateOk(r, p, n) && r.pc.Run?
    requires pc == ForkFind(0) || (pc == ExitLock && p != INIT) || pc == WaitLock || (pc.Kill? && pc.i == 0)
               || (pc.Park? && pc.at == AtRun)
    ensures Sidestep(r, pc, p, n)
  {
  }

  // ----- exit

  function ExitStep(s: Sys, p: nat): Option<Sys>
    requires p < |s.procs|
  {
    var r := s.procs[p];
    match r.pc
    case ExitLock => if s.wait == None then Some(Go(s.(wait := Some(p)), p, Reparent(0))) else None
    case ExitSelf => if r.lock == Open then Some(Set(s, p, r.(lock := By(p), pc := ExitZombie))) else None
    case ExitZombie =>
      var t := Set(s, p, r.(state := Zombie, pc := ExitRelease));
      Some(t.(data := s.data.(status := s.data.status[p := Arg(s, p)])))
    case ExitRelease => Some(Go(s.(wait := None), p, ExitSched))
    case ExitSched => Some(Set(s, p, r.(lock := BySched, pc := Dead)))
    case _ => None
  }

  lemma NotInit(s: Sys, p: nat)
    requires Inv(s) && p < |s.procs|
    ensures Exiting(s.procs[p].pc) ==> p != INIT
  {
    hide Locks, WaitLocks, States, Forks, Waits, Wakes, Exiting;
  }

  lemma ExitLockOk(s: Sys, p: nat)
    requires Inv(s) && p < |s.procs| && s.procs[p].pc.ExitLock?
    ensures Kept(ExitStep(s, p))
  {
    hide Inv, ParentOk;
    if s.wait == None {
      var s' := ExitStep(s, p).value;
      OnStack(s, p);
      ParentLess(s, s', s'.procs[p], p);
      NotInit(s, p);
      MoveOk(s, s', p);
    }
  }

  /** The parent of an exiting process was woken. */
  lemma WokenParent(s: Sys, p: nat, r: Proc)
    requires Inv(s) && p < |s.procs| && (s.procs[p].pc.ExitSelf? || s.procs[p].pc.ExitZombie?)
    requires r.parent == s.procs[p].parent
    requires r.pc.ExitZombie? || r.pc.ExitRelease?
    ensures ParentOk(s, s, r, p)
  {
    hide Locks, Forks, Rescue, Waiting, GaveAway, Exiting;
    if r.parent.Some? { ScannedHolds(s, p, r.parent); }
  }

  /** A process in kwait's scan holds wait_lock, so nobody else is exiting under it. */
  lemma ScannedHolds(s: Sys, p: nat, q: Option<nat>)
    requires WaitLocks(s) && p < |s.procs| && HoldsWait(s.procs[p].pc) && q.Some? && q.value < |s.procs| && q.value != p
    ensures !Scanned(s.procs[q.value].pc, p)
  {
  }

  lemma ExitSelfOk(s: Sys, p: nat)
    requires Inv(s) && p < |s.procs| && s.procs[p].pc.ExitSelf?
    ensures Kept(ExitStep(s, p))
  {
    hide Inv, ParentOk;
    if s.procs[p].lock == Open {
      var s' := ExitStep(s, p).value;
      OnStack(s, p);
      WokenParent(s, p, s'.procs[p]);
      ParentSame(s, s', s'.procs[p], p);
      NotInit(s, p);
      RescueOther(s, s', p);
      MoveOk(s, s', p);
    }
  }

  lemma NoKids(s: Sys, s': Sys, r: Proc, r': Proc, p: nat)
    requires KidsOk(s, s', r, p) && (r.pc.ExitZombie? || r.pc.ExitRelease? || r.pc.ExitSched?)
    ensures KidsOk(s, s', r', p)
  {
    hide Scanned, WokeParent, Waiting, Live;
  }

  lemma ExitZombieOk(s: Sys, p: nat)
    requires Inv(s) && p < |s.procs| && s.procs[p].pc.ExitZombie?
    ensures Kept(ExitStep(s, p))
  {
    hide Inv, ParentOk, KidsOk, Rescue;
    var s' := Set(s, p, s.procs[p].(state := Zombie, pc := ExitRelease));
    OnStack(s, p);
    Kids(s, p);
    NoKids(s, s', s.procs[p], s'.procs[p], p);
    WokenParent(s, p, s'.procs[p]);
    RescueOther(s, s', p);
    ParentLater(s, s', s'.procs[p], p);
    NotInit(s, p);
    ShiftOk(s, s', p);
    DataOk(s', ExitStep(s, p).value.data);
  }

  lemma ParentLater(s: Sys, s': Sys, r: Proc, p: nat)
    requires ParentOk(s, s, r, p) && (Rescue(s, INIT) ==> Rescue(s', INIT))
    ensures ParentOk(s, s', r, p)
  {
    hide Scanned, Waiting, WokeParent;
    assert forall q :: Rescue(s, q) ==> q == INIT;
  }

  /** A zombie's parent is not stuck. */
  lemma ZombieParent(s: Sys, p: nat, r: Proc)
    requires Inv(s) && p < |s.procs| && s.procs[p].state.Zombie? && r.parent == s.procs[p].parent
    requires r.pc.ExitSched? || r.pc.Dead?
    ensures ParentOk(s, s, r, p)
  {
    hide Locks, WaitLocks, States, Forks, Tree, Rescue, Waiting, Scanned;
  }

  lemma ExitReleaseOk(s: Sys, p: nat)
    requires Inv(s) && p < |s.procs| && s.procs[p].pc.ExitRelease?
    ensures Kept(ExitStep(s, p))
  {
    hide Inv, ParentOk, KidsOk, Rescue;
    var s' := ExitStep(s, p).value;
    OnStack(s, p);
    Kids(s, p);
    NoKids(s, s', s.procs[p], s'.procs[p], p);
    ZombieParent(s, p, s'.procs[p]);
    NoRescue(s, p);
    ParentLater(s, s', s'.procs[p], p);
    NotInit(s, p);
    ShiftOk(s, s', p);
  }

  /** Nobody is being rescued while p holds wait_lock elsewhere. */
  lemma NoRescue(s: Sys, p: nat)
    requires s.wait == Some(p) && p < |s.procs| && !s.procs[p].pc.ReparentWake?
    ensures !Rescue(s, INIT)
  {
  }

  lemma ExitSchedOk(s: Sys, p: nat)
    requires Inv(s) && p < |s.procs| && s.procs[p].pc.ExitSched?
    ensures Kept(ExitStep(s, p))
  {
    hide Inv, ParentOk, KidsOk, Rescue;
    var s' := ExitStep(s, p).value;
    OnStack(s, p);
    Kids(s, p);
    NoKids(s, s', s.procs[p], s'.procs[p], p);
    ZombieParent(s, p, s'.procs[p]);
    RescueOther(s, s', p);
    ParentLater(s, s', s'.procs[p], p);
    NotInit(s, p);
    ShiftOk(s, s', p);
  }

  // ----- wakeup

  /** wakeup looks at slot k for a process that sleeps on channel chan. */
  function WakeSlot(s: Sys, p: nat, k: nat, chan: Chan): Option<Sys>
    requires k < |s.procs|
  {
    if k == p then Some(s)
    else if s.procs[k].lock != Open then None
    else if s.procs[k].state.Sleeping? && s.procs[k].chan == chan then Some(Set(s, k, s.procs[k].(state := Runnable)))
    else Some(s)
  }

  /** A record that waits for nothing suits the children of p as its old one did. */
  lemma KidsAwake(s: Sys, s': Sys, p: nat, r: Proc)
    requires Inv(s) && p < |s.procs| && r.pc == s.procs[p].pc && Live(r.state) && !Waiting(r)
    ensures KidsOk(s, s', r, p)
  {
    hide Locks, WaitLocks, Forks, States, GaveAway, Scanned, WokeParent, Rescue, Waiting, Exiting;
  }

  /** A process that sleeps with its lock free has switched away. */
  lemma SleepsAway(s: Sys, k: nat)
    requires Inv(s) && k < |s.procs| && s.procs[k].lock == Open && s.procs[k].state.Sleeping?
    ensures s.procs[k].pc.Asleep? || s.procs[k].pc.Parked?
    ensures s.procs[k].pc.Asleep? ==> s.procs[k].chan == OnProc(k)
  {
    hide Inv;
    OnStack(s, k);
  }

  /** Waking a sleeper whose lock is free. */
  lemma RouseOk(s: Sys, k: nat)
    requires Inv(s) && k < |s.procs| && s.procs[k].lock == Open && s.procs[k].state.Sleeping?
    ensures Inv(Set(s, k, s.procs[k].(state := Runnable)))
  {
    hide Inv, ParentOk, KidsOk, Rescue;
    var s' := Set(s, k, s.procs[k].(state := Runnable));
    OnStack(s, k);
    SleepsAway(s, k);
    NotInit(s, k);
    KidsAwake(s, s', k, s'.procs[k]);
    ParentLess(s, s', s'.procs[k], k);
    RescueOther(s, s', k);
    ShiftOk(s, s', k);
  }

  /** After wakeup has looked at slot k on the channel of k, process k does not wait. */
  lemma WakeSlotOk(s: Sys, p: nat, k: nat, chan: Chan)
    requires Inv(s) && p < |s.procs| && k < |s.procs| && k != p
    ensures Kept(WakeSlot(s, p, k, chan))
    ensures WakeSlot(s, p, k, chan).Some? && chan == OnProc(k) ==> !Waiting(WakeSlot(s, p, k, chan).value.procs[k])
  {
    hide Inv;
    if s.procs[k].lock == Open {
      OnStack(s, k);
      if s.procs[k].state.Sleeping? {
        RouseOk(s, k);
        SleepsAway(s, k);
      }
    }
  }

  /** One round of the wakeup loops of kexit. */
  function WakeStep(s: Sys, p: nat): Option<Sys>
    requires p < |s.procs|
  {
    match s.procs[p].pc
    case ReparentWake(i, k) =>
      if k >= |s.procs| then Some(Go(s, p, Reparent(i + 1)))
      else
        (match WakeSlot(s, p, k, OnProc(INIT))
         case None => None
         case Some(t) => Some(Go(t, p, ReparentWake(i, k + 1))))
    case ExitWake(k) =>
      if k >= |s.procs| then Some(Go(s, p, ExitSelf))
      else if s.procs[p].parent == None then None
      else
        (match WakeSlot(s, p, k, OnProc(s.procs[p].parent.value))
         case None => None
         case Some(t) => Some(Go(t, p, ExitWake(k + 1))))
    case _ => None
  }

  lemma WakeSlotSame(s: Sys, p: nat, k: nat, chan: Chan)
    requires p < |s.procs| && k < |s.procs| && WakeSlot(s, p, k, chan).Some?
    ensures var t := WakeSlot(s, p, k, chan).value;
            |t.procs| == |s.procs| && t.wait == s.wait && t.procs[p] == s.procs[p] && forall q | 0 <= q < |s.procs|
                && q != k :: t.procs[q] == s.procs[q]
  {
  }

  /** wakeup(initproc) passes slot k: if that is init, it has been woken. */
  lemma ReparentWakeOk(s: Sys, p: nat)
    requires Inv(s) && p < |s.procs| && s.procs[p].pc.ReparentWake?
    ensures Kept(WakeStep(s, p))
  {
    hide Inv, ParentOk, WakeSlot;
    OnStack(s, p);
    NotInit(s, p);
    var i, k := s.procs[p].pc.i, s.procs[p].pc.k;
    if k >= |s.procs| {
      var s' := WakeStep(s, p).value;
      ParentLess(s, s', s'.procs[p], p);
      RescueOver(s, p);
      MoveOk(s, s', p);
    } else if WakeSlot(s, p, k, OnProc(INIT)).Some? {
      var t := WakeSlot(s, p, k, OnProc(INIT)).value;
      WakeSlotSame(s, p, k, OnProc(INIT));
      if k != p { WakeSlotOk(s, p, k, OnProc(INIT)); }
      assert t == s || k != p by { if k == p { SelfSlot(s, p, k, OnProc(INIT)); } }
      RescueNext(t, p, i, k);
    }
  }

  lemma SelfSlot(s: Sys, p: nat, k: nat, chan: Chan)
    requires k < |s.procs| && k == p
    ensures WakeSlot(s, p, k, chan) == Some(s)
  {
  }

  lemma RescueOver(s: Sys, p: nat)
    requires s.wait == Some(p) && p < |s.procs| && s.procs[p].pc.ReparentWake? && s.procs[p].pc.k >= |s.procs|
    ensures !Rescue(s, INIT)
  {
  }

  lemma RescueNext(t: Sys, p: nat, i: nat, k: nat)
    requires Inv(t) && p < |t.procs| && t.procs[p].pc == ReparentWake(i, k) && p != INIT
    requires k == INIT ==> !Waiting(t.procs[INIT])
    ensures Inv(Go(t, p, ReparentWake(i, k + 1)))
  {
    hide Inv, ParentOk;
    var s' := Go(t, p, ReparentWake(i, k + 1));
    OnStack(t, p);
    ParentLess(t, s', s'.procs[p], p);
    MoveOk(t, s', p);
  }

  /** wakeup(p->parent) passes slot k: if that is the parent, it has been woken. */
  lemma ExitWakeOk(s: Sys, p: nat)
    requires Inv(s) && p < |s.procs| && s.procs[p].pc.ExitWake?
    ensures Kept(WakeStep(s, p))
  {
    hide Inv, ParentOk, WakeSlot, Waiting;
    OnStack(s, p);
    NotInit(s, p);
    HasParent(s, p);
    SelfParent(s, p);
    var k := s.procs[p].pc.k;
    WokenSoFar(s, p);
    if k >= |s.procs| {
      ExitWakeNext(s, p, ExitSelf);
    } else if s.procs[p].parent.Some? && WakeSlot(s, p, k, OnProc(s.procs[p].parent.value)).Some? {
      var chan := OnProc(s.procs[p].parent.value);
      var t := WakeSlot(s, p, k, chan).value;
      WakeSlotSame(s, p, k, chan);
      if k != p { WakeSlotOk(s, p, k, chan); }
      assert t == s || k != p by { if k == p { SelfSlot(s, p, k, chan); } }
      WokenSoFar(t, p);
      ExitWakeNext(t, p, ExitWake(k + 1));
    }
  }

  lemma HasParent(s: Sys, p: nat)
    requires Inv(s) && p < |s.procs| && p != INIT && Live(s.procs[p].state)
    ensures s.procs[p].parent.Some?
  {
    hide Locks, WaitLocks, States, Forks, Waits, Wakes, GaveAway, Live;
  }

  lemma SelfParent(s: Sys, p: nat)
    requires Inv(s) && p < |s.procs| && s.procs[p].parent.Some?
    ensures s.procs[p].parent.value != p && s.procs[p].parent.value < |s.procs|
  {
    hide Locks, WaitLocks, States, Forks, Waits, Wakes, GaveAway;
  }

  lemma WokenSoFar(s: Sys, p: nat)
    requires Inv(s) && p < |s.procs| && s.procs[p].pc.ExitWake? && s.procs[p].parent.Some?
    ensures s.procs[p].parent.value < s.procs[p].pc.k && s.procs[p].parent.value < |s.procs| ==>
              !Waiting(s.procs[s.procs[p].parent.value])
  {
    hide Locks, WaitLocks, States, Forks, Waits, Tree, Waiting;
  }

  lemma ExitWakeNext(s: Sys, p: nat, pc: Pc)
    requires Inv(s) && p < |s.procs| && s.procs[p].pc.ExitWake? && s.procs[p].parent.Some?
    requires pc == ExitWake(s.procs[p].pc.k + 1) || (pc == ExitSelf && s.procs[p].pc.k >= |s.procs|)
    requires var q := s.procs[p].parent.value; q <= s.procs[p].pc.k && q < |s.procs| ==> !Waiting(s.procs[q])
    ensures Inv(Go(s, p, pc))
  {
    hide Inv, Waiting;
    OnStack(s, p);
    NotInit(s, p);
    GoOk(s, p, pc);
  }

  // ----- reparent

  function ReparentStep(s: Sys, p: nat): Option<Sys>
    requires p < |s.procs|
  {
    match s.procs[p].pc
    case Reparent(i) =>
      if i >= |s.procs| then Some(Go(s, p, ExitWake(0)))
      else if s.procs[i].parent == Some(p) then Some(Moved(s, p, i))
      else Some(Go(s, p, Reparent(i + 1)))
    case _ => None
  }

  /** Child i of p is given to init. */
  function Moved(s: Sys, p: nat, i: nat): Sys
    requires p < |s.procs| && i < |s.procs|
  {
    Go(Set(s, i, s.procs[i].(parent := Some(INIT))), p, ReparentWake(i, 0))
  }

  lemma ReparentOk(s: Sys, p: nat)
    requires Inv(s) && p < |s.procs| && s.procs[p].pc.Reparent?
    ensures Kept(ReparentStep(s, p))
  {
    hide Inv, Moved, ParentOk, KidsOk;
    OnStack(s, p);
    NotInit(s, p);
    var i := s.procs[p].pc.i;
    if i < |s.procs| && s.procs[i].parent == Some(p) {
      MovedOk(s, p, i);
    } else {
      var s' := ReparentStep(s, p).value;
      Kids(s, p);
      ParentNone(s, s', s'.procs[p], p);
      NoRescue(s, p);
      ReparentKids(s, s', s.procs[p], s'.procs[p], p);
      ShiftOk(s, s', p);
    }
  }

  lemma ParentNone(s: Sys, s': Sys, r: Proc, p: nat)
    requires !r.state.Zombie? && !r.pc.ExitSelf? && !r.pc.ExitZombie? && (r.pc.ExitWake? ==> r.pc.k == 0)
    ensures ParentOk(s, s', r, p)
  {
    hide Scanned, Waiting, Rescue;
  }

  lemma ReparentKids(s: Sys, s': Sys, r: Proc, r': Proc, p: nat)
    requires KidsOk(s, s', r, p) && r.pc.Reparent? && r'.state == r.state
    requires if r.pc.i >= |s.procs| then r'.pc == ExitWake(0)
             else r'.pc == Reparent(r.pc.i + 1) && s.procs[r.pc.i].parent != Some(p)
    ensures KidsOk(s, s', r', p)
  {
    hide Live, WokeParent;
  }

  lemma MovedOk(s: Sys, p: nat, i: nat)
    requires Inv(s) && p < |s.procs| && s.procs[p].pc == Reparent(i) && i < |s.procs| && s.procs[i].parent == Some(p)
    ensures Inv(Moved(s, p, i))
  {
    hide Locks, WaitLocks, States, Forks, Waits, Wakes, Held, LockMove, WaitMove, SameHolds, StateOk, GaveAway;
    var s' := Moved(s, p, i);
    OnStack(s, p);
    NotInit(s, p);
    SelfParent(s, i);
    MovedHolds(s, p, i);
    LocksKept(s, s', p);
    WaitLocksKept(s, s', p);
    MovedStates(s, p, i);
    MovedForks(s, p, i);
    MovedTree(s, p, i);
    MovedWaits(s, p, i);
  }

  lemma MovedHolds(s: Sys, p: nat, i: nat)
    requires Inv(s) && p < |s.procs| && s.procs[p].pc == Reparent(i) && i < |s.procs| && i != p
    ensures SameHolds(s, Moved(s, p, i), p) && LockMove(s, Moved(s, p, i), p) && WaitMove(s, Moved(s, p, i), p)
  {
    hide WaitLocks, Forks, Tree, Waits, Wakes, States, StateOk;
    OnStack(s, p);
  }

  lemma MovedStates(s: Sys, p: nat, i: nat)
    requires States(s) && p < |s.procs| && s.procs[p].pc == Reparent(i) && i < |s.procs| && i != p
    ensures States(Moved(s, p, i))
  {
    hide StateOk;
    var s' := Moved(s, p, i);
    forall q | 0 <= q < |s'.procs| ensures StateOk(s'.procs[q], q, |s'.procs|) {
      assert StateOk(s.procs[q], q, |s.procs|);
      MovedState(s.procs[q], s'.procs[q], q, |s.procs|);
    }
  }

  lemma MovedState(r: Proc, r': Proc, q: nat, n: nat)
    requires StateOk(r, q, n)
    requires r' == r.(parent := r'.parent) || (r.pc.Reparent? && r'.pc.ReparentWake? && r' == r.(pc := r'.pc))
    ensures StateOk(r', q, n)
  {
  }

  lemma MovedForks(s: Sys, p: nat, i: nat)
    requires Forks(s) && p < |s.procs| && s.procs[p].pc == Reparent(i) && i < |s.procs| && i != p
    requires s.procs[i].parent == Some(p)
    ensures Forks(Moved(s, p, i))
  {
    hide Forks, Filled, Separate, Adopted, Filling, Adopting;
    var s' := Moved(s, p, i);
    NotFilling(s.procs[p].pc);
    NotFilling(s'.procs[p].pc);
    forall q | 0 <= q < |s.procs|
      ensures Filling(s'.procs[q].pc) == Filling(s.procs[q].pc) && Adopting(s'.procs[q].pc) == Adopting(s.procs[q].pc)
    {
    }
    SameForks(s, s', p, i);
  }

  lemma SameForks(s: Sys, s': Sys, p: nat, i: nat)
    requires Forks(s) && |s'.procs| == |s.procs| && p < |s.procs| && i < |s.procs| && Adopting(s.procs[p].pc) == None
    requires forall q | 0 <= q < |s.procs| ::
               Filling(s'.procs[q].pc) == Filling(s.procs[q].pc) && Adopting(s'.procs[q].pc) == Adopting(s.procs[q].pc)
    requires forall q | 0 <= q < |s.procs| :: s'.procs[q].state == s.procs[q].state
    requires forall q | 0 <= q < |s.procs| && q != i :: s'.procs[q].parent == s.procs[q].parent
    requires s.procs[i].parent == Some(p)
    ensures Forks(s')
  {
    hide Filling, Adopting;
    assert Filled(s') && Separate(s');
    forall q | 0 <= q < |s'.procs| && Adopting(s'.procs[q].pc).Some? && Adopting(s'.procs[q].pc).value < |s'.procs|
      ensures s'.procs[Adopting(s'.procs[q].pc).value].parent == Some(q)
    {
      assert Adopting(s.procs[q].pc).Some?;
    }
  }

  lemma NotFilling(pc: Pc)
    ensures pc.ForkMade? || pc.ForkParent? || pc.ForkWake? || Paused(pc)
              || (Filling(pc) == None && Adopting(pc) == None)
  {
  }

  lemma MovedTree(s: Sys, p: nat, i: nat)
    requires Tree(s) && p < |s.procs| && s.procs[p].pc == Reparent(i) && i < |s.procs| && s.procs[i].parent == Some(p)
    requires p != INIT
    requires i != INIT
    ensures Tree(Moved(s, p, i))
  {
    hide Live;
  }

  lemma MovedWaits(s: Sys, p: nat, i: nat)
    requires Tree(s) && Waits(s) && Wakes(s) && WaitLocks(s) && p < |s.procs| && s.procs[p].pc == Reparent(i)
    requires i < |s.procs| && i != p
    requires s.procs[i].parent == Some(p) && p != INIT && s.wait == Some(p)
    ensures Waits(Moved(s, p, i)) && Wakes(Moved(s, p, i))
  {
  }
}
