/** What the steps of the process table do, apart from keeping its invariant: who changes which slot,
    how process identifiers and answers come about, and what a call does that nobody disturbs. */
module ProcessLives {
  import opened Options
  import opened Processes
  import opened ProcessRuns

  const BLANK: Proc := Proc(Unused, None, NoChan, Open, Away)

  // ----- the life of a slot

  /** Neither the state, the parent, the identifier nor the exit status of slot c changes. */
  predicate Same(s: Sys, s': Sys, c: nat)
    requires c < |s.procs| == |s'.procs|
  {
    && s'.procs[c].state == s.procs[c].state && s'.procs[c].parent == s.procs[c].parent
    && Pid(s', c) == Pid(s, c) && Status(s', c) == Status(s, c)
  }

  /** Thread p of kfork changes slot c, which it fills. */
  predicate ByFork(s: Sys, p: nat, ch: Choice, s': Sys, c: nat)
    requires p < |s.procs| == |s'.procs| && c < |s.procs|
  {
    var r, r' := s.procs[c], s'.procs[c];
    match s.procs[p].pc
    case ForkFind(i) =>
      && i == c && r.state.Unused? && r' == r.(state := Used, lock := By(p)) && Pid(s', c) == s.data.nextpid
      && s'.data.nextpid == s.data.nextpid + 1 && Status(s', c) == Status(s, c)
    case ForkMade(i) =>
      && i == c && ch == Fail && r.state.Used? && r' == BLANK && Pid(s', c) == 0 == Status(s', c)
      && !KilledAt(s', c) && Ret(s', p) == Failed
    case ForkParent(i) =>
      && i == c && s.wait == None && r' == r.(parent := Some(p)) && Pid(s', c) == Pid(s, c)
      && Status(s', c) == Status(s, c)
    case ForkWake(i) =>
      && i == c && r.state.Used? && r.lock == Open && r' == r.(state := Runnable, pc := Start)
      && Pid(s', c) == Pid(s, c) && Status(s', c) == Status(s, c)
    case _ => false
  }

  /** Thread p of kexit changes itself, gives its child c to init, or wakes c. */
  predicate ByExit(s: Sys, p: nat, s': Sys, c: nat)
    requires p < |s.procs| == |s'.procs| && c < |s.procs|
  {
    var r, r' := s.procs[c], s'.procs[c];
    && Pid(s', c) == Pid(s, c)
    && match s.procs[p].pc
       case ExitZombie =>
         && p == c && r.state.Running? && r' == r.(state := Zombie, pc := ExitRelease)
         && Status(s', c) == Arg(s, c)
       case Reparent(i) =>
         && i == c && r.parent == Some(p) && r' == r.(parent := Some(INIT))
         && Status(s', c) == Status(s, c)
       case ReparentWake(_, k) => k == c && Woke(r, r', OnProc(INIT)) && Status(s', c) == Status(s, c)
       case ExitWake(k) =>
         && k == c && s.procs[p].parent.Some? && Woke(r, r', OnProc(s.procs[p].parent.value))
         && Status(s', c) == Status(s, c)
       case _ => false
  }

  /** wakeup(chan) finds the record asleep there. */
  predicate Woke(r: Proc, r': Proc, chan: Chan) {
    r.state.Sleeping? && r.chan == chan && r.lock == Open && r' == r.(state := Runnable)
  }

  /** Thread p of kwait frees its child c. */
  predicate ByWait(s: Sys, p: nat, ch: Choice, s': Sys, c: nat)
    requires p < |s.procs| == |s'.procs| && c < |s.procs|
  {
    && s.procs[p].pc == WaitHeld(c) && ch != Fail && s.procs[c].state.Zombie? && s'.procs[c] == BLANK
    && Pid(s', c) == 0 == Status(s', c) && !KilledAt(s', c) && Ret(s', p) == Child(Pid(s, c), Status(s, c))
  }

  /** Thread p gives up the processor, in yield or in sleep. */
  predicate BySleep(s: Sys, p: nat, s': Sys, c: nat)
    requires p < |s.procs| == |s'.procs| && c < |s.procs|
  {
    var r, r' := s.procs[c], s'.procs[c];
    && p == c && r.state.Running? && r'.parent == r.parent && Pid(s', c) == Pid(s, c) && Status(s', c) == Status(s, c)
    && match r.pc
       case SleepSet => r'.state.Sleeping? && r'.chan == OnProc(p)
       case ParkHeld(k, _) => if k == None then r'.state.Runnable? else r'.state.Sleeping? && r'.chan == Other(k.value)
       case _ => false
  }

  /** Thread p of kkill finds the identifier in slot c and wakes the process. */
  predicate ByKill(s: Sys, p: nat, s': Sys, c: nat)
    requires p < |s.procs| == |s'.procs| && c < |s.procs|
  {
    && s.procs[p].pc.Kill? && s.procs[p].pc.i == c && s.procs[p].pc.pid == Pid(s, c) && KilledAt(s', c)
    && Woke(s.procs[c], s'.procs[c], s.procs[c].chan) && Pid(s', c) == Pid(s, c) && Status(s', c) == Status(s, c)
  }

  /** All that can happen to slot c in one step. */
  predicate Lived(s: Sys, a: Action, s': Sys, c: nat)
    requires c < |s.procs| == |s'.procs|
  {
    || Same(s, s', c)
    || (a.p < |s.procs| &&
        match a
        case Thread(p, ch) =>
          || ByFork(s, p, ch, s', c) || ByExit(s, p, s', c) || ByWait(s, p, ch, s', c)
          || BySleep(s, p, s', c) || ByKill(s, p, s', c)
        case Resume(p) =>
          && p == c && s.procs[c].state.Runnable? && s'.procs[c].state.Running?
          && s'.procs[c].parent == s.procs[c].parent
          && Pid(s', c) == Pid(s, c) && Status(s', c) == Status(s, c)
        case WakeOther(p, k) =>
          && p == c && Woke(s.procs[c], s'.procs[c], Other(k)) && Pid(s', c) == Pid(s, c)
          && Status(s', c) == Status(s, c)
        case _ => false)
  }

  lemma ForkLives(s: Sys, p: nat, ch: Choice, c: nat)
    requires Inv(s) && p < |s.procs| && c < |s.procs| && ForkStep(s, p, ch).Some?
    ensures var s' := ForkStep(s, p, ch).value;
            |s'.procs| == |s.procs| && (Same(s, s', c) || ByFork(s, p, ch, s', c))
  {
    hide Inv;
    MadePlace(s, p);
  }

  lemma MadePlace(s: Sys, p: nat)
    requires Inv(s) && p < |s.procs|
    ensures (s.procs[p].pc.ForkMade? || s.procs[p].pc.ForkParent? || s.procs[p].pc.ForkWake?) ==>
              var i := s.procs[p].pc.i; i < |s.procs| && i != p && s.procs[i].state.Used?
    ensures s.procs[p].pc.WaitHeld? ==> s.procs[p].pc.i < |s.procs| && s.procs[p].pc.i != p
    ensures s.procs[p].pc.ExitZombie? || s.procs[p].pc.SleepSet? || s.procs[p].pc.ParkHeld? ==>
              s.procs[p].state.Running?
    ensures s.procs[p].pc.ForkFind? || s.procs[p].pc.Kill? ==> s.procs[p].state.Running?
  {
    hide Inv, Filling;
    RunningAt(s, p);
    var pc := s.procs[p].pc;
    if pc.ForkMade? || pc.ForkParent? || pc.ForkWake? {
      FillingIs(pc);
      FilledSlot(s, p, pc.i);
    }
  }

  lemma FillingIs(pc: Pc)
    requires pc.ForkMade? || pc.ForkParent? || pc.ForkWake?
    ensures Filling(pc) == Some(pc.i)
  {
  }

  lemma ExitLives(s: Sys, p: nat, c: nat)
    requires Inv(s) && p < |s.procs| && c < |s.procs| && ExitStep(s, p).Some?
    ensures var s' := ExitStep(s, p).value; |s'.procs| == |s.procs| && (Same(s, s', c) || ByExit(s, p, s', c))
  {
    hide Inv;
    MadePlace(s, p);
  }

  lemma ReparentLives(s: Sys, p: nat, c: nat)
    requires Inv(s) && p < |s.procs| && c < |s.procs| && ReparentStep(s, p).Some?
    ensures var s' := ReparentStep(s, p).value; |s'.procs| == |s.procs| && (Same(s, s', c) || ByExit(s, p, s', c))
  {
    hide Inv;
    if s.procs[p].parent.Some? { SelfParent(s, p); }
  }

  lemma WakeLives(s: Sys, p: nat, c: nat)
    requires Inv(s) && p < |s.procs| && c < |s.procs| && WakeStep(s, p).Some?
    ensures var s' := WakeStep(s, p).value; |s'.procs| == |s.procs| && (Same(s, s', c) || ByExit(s, p, s', c))
  {
    hide Inv;
  }

  lemma WaitLives(s: Sys, p: nat, ch: Choice, c: nat)
    requires Inv(s) && p < |s.procs| && c < |s.procs| && WaitStep(s, p, ch).Some?
    ensures var s' := WaitStep(s, p, ch).value; |s'.procs| == |s.procs| && (Same(s, s', c) || ByWait(s, p, ch, s', c))
  {
    hide Inv, ByWait, Reaped;
    if s.procs[p].pc.WaitHeld? {
      MadePlace(s, p);
      var i := s.procs[p].pc.i;
      if s.procs[i].state.Zombie? && ch != Fail { ReapedLives(s, p, i, ch, c); }
    }
  }

  lemma ReapedLives(s: Sys, p: nat, i: nat, ch: Choice, c: nat)
    requires p < |s.procs| && c < |s.procs| && i < |s.procs| && i != p && ch != Fail
    requires s.procs[p].pc == WaitHeld(i) && s.procs[i].state.Zombie?
    ensures var s' := Reaped(s, p, i); |s'.procs| == |s.procs| && (Same(s, s', c) || ByWait(s, p, ch, s', c))
  {
  }

  lemma SleepLives(s: Sys, p: nat, c: nat)
    requires Inv(s) && p < |s.procs| && c < |s.procs|
    ensures var o := SleepStep(s, p);
            o.Some? ==> |o.value.procs| == |s.procs| && (Same(s, o.value, c) || BySleep(s, p, o.value, c))
    ensures var o := ParkStep(s, p);
            o.Some? ==> |o.value.procs| == |s.procs| && (Same(s, o.value, c) || BySleep(s, p, o.value, c))
  {
    hide Inv;
    MadePlace(s, p);
  }

  lemma KillLives(s: Sys, p: nat, c: nat)
    requires Inv(s) && p < |s.procs| && c < |s.procs| && KillStep(s, p).Some?
    ensures var s' := KillStep(s, p).value; |s'.procs| == |s.procs| && (Same(s, s', c) || ByKill(s, p, s', c))
  {
    hide Inv;
    MadePlace(s, p);
  }

  lemma ThreadLives(s: Sys, p: nat, ch: Choice, c: nat)
    requires Inv(s) && p < |s.procs| && c < |s.procs| && ThreadStep(s, p, ch).Some?
    ensures var s' := ThreadStep(s, p, ch).value; |s'.procs| == |s.procs| && Lived(s, Thread(p, ch), s', c)
  {
    hide Inv, ForkStep, ExitStep, ReparentStep, WakeStep, WaitStep, SleepStep, KillStep, ParkStep;
    hide Same, ByFork, ByExit, ByWait, BySleep, ByKill;
    if ch == Yield || s.procs[p].pc.Run? {
      OutsideLives(s, p, ch, c);
      return;
    }
    match s.procs[p].pc
    case ForkFind(_) => ForkLives(s, p, ch, c);
    case ForkMade(_) => ForkLives(s, p, ch, c);
    case ForkParent(_) => ForkLives(s, p, ch, c);
    case ForkWake(_) => ForkLives(s, p, ch, c);
    case ExitLock => ExitLives(s, p, c);
    case Reparent(_) => ReparentLives(s, p, c);
    case ReparentWake(_, _) => WakeLives(s, p, c);
    case ExitWake(_) => WakeLives(s, p, c);
    case ExitSelf => ExitLives(s, p, c);
    case ExitZombie => ExitLives(s, p, c);
    case ExitRelease => ExitLives(s, p, c);
    case ExitSched => ExitLives(s, p, c);
    case WaitLock => WaitLives(s, p, ch, c);
    case WaitScan(_, _) => WaitLives(s, p, ch, c);
    case WaitHeld(_) => WaitLives(s, p, ch, c);
    case WaitLeave => WaitLives(s, p, ch, c);
    case WaitSleep => WaitLives(s, p, ch, c);
    case Kill(_, _) => KillLives(s, p, c);
    case _ => SleepLives(s, p, c);
  }

  /** A call that begins, or an interrupt, changes no slot. */
  lemma OutsideLives(s: Sys, p: nat, ch: Choice, c: nat)
    requires p < |s.procs| && c < |s.procs|
    ensures StartStep(s, p, ch).Some? ==>
              var s' := StartStep(s, p, ch).value; |s'.procs| == |s.procs| && Same(s, s', c)
    ensures YieldStep(s, p).Some? ==> var s' := YieldStep(s, p).value; |s'.procs| == |s.procs| && Same(s, s', c)
  {
  }

  /** THE LIFE OF A SLOT. In any run, every change of the state, the parent, the identifier or the exit
      status of a slot is one of the steps named in Lived, made by the thread named there. */
  lemma Lives(s: Sys, acts: seq<Action>, a: Action, c: nat)
    requires Booted(s) && c < |s.procs|
    ensures var t := Trace(s, acts); |t.procs| == |s.procs| == |Act(t, a).procs| && Lived(t, a, Act(t, a), c)
  {
    hide Inv, Act, Lived, Trace;
    TraceOk(s, acts);
    TraceSize(s, acts);
    ActLives(Trace(s, acts), a, c);
  }

  lemma ActLives(s: Sys, a: Action, c: nat)
    requires Inv(s) && c < |s.procs|
    ensures var s' := Act(s, a); |s'.procs| == |s.procs| && Lived(s, a, s', c)
  {
    hide Inv, ThreadStep, ByFork, ByExit, ByWait, BySleep, ByKill;
    if a.p < |s.procs| && a.Thread? && ThreadStep(s, a.p, a.ch).Some? { ThreadLives(s, a.p, a.ch, c); }
  }

  lemma ActSize(s: Sys, a: Action)
    requires Inv(s)
    ensures |Act(s, a).procs| == |s.procs|
  {
    hide Inv, Act, Lived;
    SomeSlot(s);
    ActLives(s, a, 0);
  }

  lemma SomeSlot(s: Sys)
    requires Inv(s)
    ensures |s.procs| > 0
  {
    hide Locks, WaitLocks, States, Forks, Waits, Wakes;
  }

  lemma {:induction false} TraceSize(s: Sys, acts: seq<Action>)
    requires Booted(s)
    ensures |Trace(s, acts).procs| == |s.procs|
  {
    hide Inv, Act, Lived;
    if acts != [] {
      TraceOk(s, acts[..|acts| - 1]);
      TraceSize(s, acts[..|acts| - 1]);
      ActSize(Trace(s, acts[..|acts| - 1]), acts[|acts| - 1]);
    }
  }

  // ----- zombies

  /** kwait looks only at its children, also once it has the lock of one. */
  ghost predicate Kin(s: Sys) {
    forall p | 0 <= p < |s.procs| && s.procs[p].pc.WaitHeld? && s.procs[p].pc.i < |s.procs| ::
      s.procs[s.procs[p].pc.i].parent == Some(p)
  }

  /** Slots other than p keep their place in the code, unless their process begins or is freed; and
      p comes to hold the lock of a child only by its scan. */
  predicate Places(s: Sys, p: nat, s': Sys) {
    && p < |s.procs| == |s'.procs|
    && (forall q | 0 <= q < |s.procs| && q != p ::
          s'.procs[q].pc == s.procs[q].pc || s'.procs[q].pc.Start? || s'.procs[q].pc.Away?)
    && (s'.procs[p].pc.WaitHeld? ==>
          && s.procs[p].pc.WaitScan? && s'.procs[p].pc.i < |s.procs|
          && s.procs[s'.procs[p].pc.i].parent == Some(p) == s'.procs[s'.procs[p].pc.i].parent)
  }

  lemma ForkPlaces(s: Sys, p: nat, ch: Choice)
    requires p < |s.procs|
    ensures ForkStep(s, p, ch).Some? ==> Places(s, p, ForkStep(s, p, ch).value)
  {
  }

  lemma ExitPlaces(s: Sys, p: nat)
    requires p < |s.procs|
    ensures ExitStep(s, p).Some? ==> Places(s, p, ExitStep(s, p).value)
    ensures ReparentStep(s, p).Some? ==> Places(s, p, ReparentStep(s, p).value)
    ensures WakeStep(s, p).Some? ==> Places(s, p, WakeStep(s, p).value)
  {
  }

  lemma WaitPlaces(s: Sys, p: nat, ch: Choice)
    requires p < |s.procs|
    ensures WaitStep(s, p, ch).Some? ==> Places(s, p, WaitStep(s, p, ch).value)
  {
    hide Reaped;
    if s.procs[p].pc.WaitHeld? && s.procs[p].pc.i < |s.procs| { ReapedPlaces(s, p, s.procs[p].pc.i); }
  }

  lemma ReapedPlaces(s: Sys, p: nat, i: nat)
    requires p < |s.procs| && i < |s.procs|
    ensures Places(s, p, Reaped(s, p, i))
  {
  }

  lemma SleepPlaces(s: Sys, p: nat)
    requires p < |s.procs|
    ensures SleepStep(s, p).Some? ==> Places(s, p, SleepStep(s, p).value)
    ensures ParkStep(s, p).Some? ==> Places(s, p, ParkStep(s, p).value)
  {
  }

  lemma OtherPlaces(s: Sys, p: nat, ch: Choice)
    requires p < |s.procs|
    ensures KillStep(s, p).Some? ==> Places(s, p, KillStep(s, p).value)
    ensures StartStep(s, p, ch).Some? ==> Places(s, p, StartStep(s, p, ch).value)
    ensures YieldStep(s, p).Some? ==> Places(s, p, YieldStep(s, p).value)
    ensures ResumeStep(s, p).Some? ==> Places(s, p, ResumeStep(s, p).value)
  {
  }

  lemma ThreadPlaces(s: Sys, p: nat, ch: Choice)
    requires p < |s.procs|
    ensures ThreadStep(s, p, ch).Some? ==> Places(s, p, ThreadStep(s, p, ch).value)
  {
    hide ForkStep, ExitStep, ReparentStep, WakeStep, WaitStep, SleepStep, KillStep, ParkStep, StartStep;
    hide YieldStep, Places;
    ForkPlaces(s, p, ch);
    ExitPlaces(s, p);
    WaitPlaces(s, p, ch);
    SleepPlaces(s, p);
    OtherPlaces(s, p, ch);
  }

  /** A thread gets to WaitHeld only by its own scan. */
  lemma HeldFrom(s: Sys, a: Action, q: nat)
    requires q < |s.procs| && |Act(s, a).procs| == |s.procs| && Act(s, a).procs[q].pc.WaitHeld?
    ensures var i := Act(s, a).procs[q].pc.i;
            || (s.procs[q].pc == WaitHeld(i) && (a.Thread? ==> a.p != q || Act(s, a) == s))
            || (a.Thread? && a.p == q && s.procs[q].pc.WaitScan? && i < |s.procs| && s.procs[i].parent == Some(q)
                && Act(s, a).procs[i].parent == Some(q))
  {
    hide ThreadStep;
    if a.p < |s.procs| && a.Thread? { ThreadPlaces(s, a.p, a.ch); }
  }

  /** Two threads do not hold the same lock, nor wait_lock together. */
  lemma HeldAlone(s: Sys, p: nat, q: nat)
    requires Inv(s) && p < |s.procs| && q < |s.procs| && s.procs[q].pc.WaitHeld? && s.procs[q].pc.i < |s.procs|
    ensures s.procs[p].pc == WaitHeld(s.procs[q].pc.i) || s.procs[p].pc == ForkMade(s.procs[q].pc.i) ==> p == q
    ensures s.wait == Some(q) && (s.procs[p].pc.Reparent? ==> p == q)
  {
    hide States, Forks, Tree, Waits, Wakes;
    assert s.procs[s.procs[q].pc.i].lock == By(q);
  }

  lemma KinStep(s: Sys, a: Action)
    requires Inv(s) && Kin(s)
    ensures Kin(Act(s, a))
  {
    hide Inv, Act, Lived;
    ActSize(s, a);
    var s' := Act(s, a);
    forall q | 0 <= q < |s'.procs| && s'.procs[q].pc.WaitHeld? && s'.procs[q].pc.i < |s'.procs|
      ensures s'.procs[s'.procs[q].pc.i].parent == Some(q)
    {
      ActSize(s, a);
      HeldFrom(s, a, q);
      var i := s'.procs[q].pc.i;
      if s.procs[q].pc == WaitHeld(i) && s' != s {
        ActLives(s, a, i);
        KinSlot(s, a, s', q, i);
      }
    }
  }

  lemma KinSlot(s: Sys, a: Action, s': Sys, q: nat, i: nat)
    requires Inv(s) && q < |s.procs| == |s'.procs| && i < |s.procs| && s.procs[q].pc == WaitHeld(i)
    requires s.procs[i].parent == Some(q)
    requires Lived(s, a, s', i) && (a.Thread? ==> a.p != q)
    ensures s'.procs[i].parent == Some(q)
  {
    hide Inv;
    if a.Thread? && a.p < |s.procs| { HeldAlone(s, a.p, q); }
  }

  lemma {:induction false} TraceKin(s: Sys, acts: seq<Action>)
    requires Booted(s)
    ensures Kin(Trace(s, acts))
  {
    hide Inv, Act;
    if acts != [] {
      TraceOk(s, acts[..|acts| - 1]);
      TraceKin(s, acts[..|acts| - 1]);
      KinStep(Trace(s, acts[..|acts| - 1]), acts[|acts| - 1]);
    }
  }

  /** A ZOMBIE stays one, with its identifier and status, until its parent's kwait frees the slot and
      is going to return both. */
  lemma ZombieLeaves(s: Sys, acts: seq<Action>, a: Action, c: nat)
    requires Booted(s) && c < |s.procs| && c < |Trace(s, acts).procs| && Trace(s, acts).procs[c].state.Zombie?
    ensures var t, t' := Trace(s, acts), Act(Trace(s, acts), a);
            && c < |t'.procs|
            && if t'.procs[c].state.Zombie? then Pid(t', c) == Pid(t, c) && Status(t', c) == Status(t, c)
               else
                 && a.Thread? && a.p < |t.procs| && a.ch != Fail
                 && t.procs[c].parent == Some(a.p) && t.procs[a.p].pc == WaitHeld(c)
                 && t'.procs[c] == BLANK && Pid(t', c) == 0 && Ret(t', a.p) == Child(Pid(t, c), Status(t, c))
  {
    hide Inv, Act, Trace;
    Lives(s, acts, a, c);
    TraceKin(s, acts);
  }

  /** A kwait that has found a ZOMBIE child and copied its status out frees exactly that child in its next
      step, keeps its identifier and status for the answer, and returns in the step after. */
  lemma WaitFrees(s: Sys, p: nat, i: nat, ch: Choice)
    requires Inv(s) && p < |s.procs| && s.procs[p].pc == WaitHeld(i) && i < |s.procs| && s.procs[i].state.Zombie?
    requires ch != Fail && ch != Yield
    ensures var s' := Act(s, Thread(p, ch));
            && i != p && s'.wait == s.wait
            && s'.procs == s.procs[i := Proc(Unused, None, NoChan, Open, Away)][p := s.procs[p].(pc := WaitLeave)]
            && Pid(s', i) == 0 && !KilledAt(s', i) && Ret(s', p) == Child(Pid(s, i), Status(s, i))
            && (forall j | j != i :: Pid(s', j) == Pid(s, j) && KilledAt(s', j) == KilledAt(s, j))
            && Act(s', Thread(p, ch)) == s'.(wait := None, procs := s'.procs[p := s.procs[p].(pc := Run)])
  {
    hide Inv, Act;
    MadePlace(s, p);
    HeldStep(s, p, i, ch);
    LeaveStep(Act(s, Thread(p, ch)), p, ch);
  }

  lemma HeldStep(s: Sys, p: nat, i: nat, ch: Choice)
    requires p < |s.procs| && s.procs[p].pc == WaitHeld(i) && i < |s.procs| && s.procs[i].state.Zombie? && i != p
    requires ch != Fail && ch != Yield
    ensures Act(s, Thread(p, ch)) == Reaped(s, p, i)
  {
    hide Reaped;
  }

  lemma LeaveStep(s: Sys, p: nat, ch: Choice)
    requires p < |s.procs| && s.procs[p].pc == WaitLeave && ch != Yield
    ensures Act(s, Thread(p, ch)) == Go(s.(wait := None), p, Run)
  {
  }

  // ----- identifiers

  /** A slot in use has an identifier of its own below nextpid, a free one has 0. */
  ghost predicate PidsOk(s: Sys) {
    && s.data.nextpid > 0
    && (forall i | 0 <= i < |s.procs| ::
          if s.procs[i].state.Unused? then Pid(s, i) == 0 else 0 < Pid(s, i) < s.data.nextpid)
    && (forall i, j | 0 <= i < j < |s.procs| && !s.procs[i].state.Unused? :: Pid(s, i) != Pid(s, j))
  }

  /** Thread p takes the next number for the slot that it fills. */
  predicate Born(s: Sys, p: nat, s': Sys)
    requires p < |s.procs| == |s'.procs|
  {
    && s.procs[p].pc.ForkFind? && s.procs[p].pc.i < |s.procs|
    && var i := s.procs[p].pc.i;
       s.procs[i].state.Unused? && s'.procs[i].state.Used? && Pid(s', i) == s.data.nextpid
       && s'.data.nextpid == s.data.nextpid + 1
  }

  /** What p does to kill flags, to nextpid, and to its own answer. */
  ghost predicate Says(s: Sys, p: nat, ch: Choice, s': Sys) {
    && p < |s.procs| == |s'.procs|
    && (forall q: nat | q != p :: Ret(s', q) == Ret(s, q))
    && (Ret(s', p).Child? && Ret(s', p) != Ret(s, p) ==>
          s.procs[p].pc.WaitHeld? && s.procs[p].pc.i < |s.procs| && ByWait(s, p, ch, s', s.procs[p].pc.i))
    && (s'.data.nextpid == s.data.nextpid || Born(s, p, s'))
    && (forall c: nat | c < |s.procs| && KilledAt(s', c) != KilledAt(s, c) ::
          if KilledAt(s', c) then s.procs[p].pc == Kill(c, Pid(s, c)) else s'.procs[c] == BLANK)
  }

  lemma ForkSays(s: Sys, p: nat, ch: Choice)
    requires Inv(s) && p < |s.procs|
    ensures ForkStep(s, p, ch).Some? ==> Says(s, p, ch, ForkStep(s, p, ch).value)
  {
    hide Inv, ByWait;
    MadePlace(s, p);
  }

  lemma ExitSays(s: Sys, p: nat, ch: Choice)
    requires p < |s.procs|
    ensures ExitStep(s, p).Some? ==> Says(s, p, ch, ExitStep(s, p).value)
    ensures ReparentStep(s, p).Some? ==> Says(s, p, ch, ReparentStep(s, p).value)
    ensures WakeStep(s, p).Some? ==> Says(s, p, ch, WakeStep(s, p).value)
  {
    hide ByWait;
  }

  lemma WaitSays(s: Sys, p: nat, ch: Choice)
    requires Inv(s) && p < |s.procs|
    ensures WaitStep(s, p, ch).Some? ==> Says(s, p, ch, WaitStep(s, p, ch).value)
  {
    hide Inv, Reaped, ByWait;
    MadePlace(s, p);
    if s.procs[p].pc.WaitHeld? { ReapedSays(s, p, s.procs[p].pc.i, ch); }
  }

  lemma ReapedSays(s: Sys, p: nat, i: nat, ch: Choice)
    requires p < |s.procs| && i < |s.procs| && i != p && s.procs[p].pc == WaitHeld(i)
    ensures s.procs[i].state.Zombie? && ch != Fail ==> Says(s, p, ch, Reaped(s, p, i))
  {
  }

  lemma OtherSays(s: Sys, p: nat, ch: Choice)
    requires p < |s.procs|
    ensures SleepStep(s, p).Some? ==> Says(s, p, ch, SleepStep(s, p).value)
    ensures ParkStep(s, p).Some? ==> Says(s, p, ch, ParkStep(s, p).value)
    ensures StartStep(s, p, ch).Some? ==> Says(s, p, ch, StartStep(s, p, ch).value)
    ensures YieldStep(s, p).Some? ==> Says(s, p, ch, YieldStep(s, p).value)
  {
    hide ByWait;
  }

  lemma KillSays(s: Sys, p: nat, ch: Choice)
    requires p < |s.procs|
    ensures KillStep(s, p).Some? ==> Says(s, p, ch, KillStep(s, p).value)
  {
    hide ByWait;
  }

  lemma ThreadSays(s: Sys, p: nat, ch: Choice)
    requires Inv(s) && p < |s.procs|
    ensures ThreadStep(s, p, ch).Some? ==> Says(s, p, ch, ThreadStep(s, p, ch).value)
  {
    hide Inv, ForkStep, ExitStep, ReparentStep, WakeStep, WaitStep, SleepStep, KillStep, ParkStep, StartStep;
    hide YieldStep, Says;
    ForkSays(s, p, ch);
    ExitSays(s, p, ch);
    WaitSays(s, p, ch);
    OtherSays(s, p, ch);
    KillSays(s, p, ch);
  }

  lemma WakeData(s: Sys, p: nat, k: nat, chan: Chan)
    requires k < |s.procs|
    ensures WakeSlot(s, p, k, chan).Some? ==> WakeSlot(s, p, k, chan).value.data == s.data
  {
  }

  /** Schedulers and interrupts change no data but a kill flag. */
  lemma ActData(s: Sys, a: Action)
    requires !a.Thread?
    ensures Act(s, a).data == s.data || (a.SetKilled? && Act(s, a) == Flagged(s, a.p))
  {
    hide WakeSlot;
    if a.p < |s.procs| && a.WakeOther? { WakeData(s, |s.procs|, a.p, Other(a.c)); }
  }

  lemma NextPid(s: Sys, a: Action)
    requires Inv(s)
    ensures |Act(s, a).procs| == |s.procs|
    ensures Act(s, a).data.nextpid == s.data.nextpid || (a.Thread? && a.p < |s.procs| && Born(s, a.p, Act(s, a)))
  {
    hide Inv, ThreadStep, ResumeStep, SwitchedStep, WakeSlot, ByWait;
    ActSize(s, a);
    if a.Thread? && a.p < |s.procs| { ThreadSays(s, a.p, a.ch); }
    if !a.Thread? { ActData(s, a); }
  }

  lemma PidsStep(s: Sys, a: Action)
    requires Inv(s) && PidsOk(s)
    ensures PidsOk(Act(s, a))
  {
    hide Inv, Act, Lived, Born;
    NextPid(s, a);
    NextGrows(s, a);
    var s' := Act(s, a);
    forall i: nat | i < |s.procs|
      ensures if s'.procs[i].state.Unused? then Pid(s', i) == 0
              else 0 < Pid(s', i) < s'.data.nextpid && (Pid(s', i) == Pid(s, i) || Pid(s', i) == s.data.nextpid)
      ensures s.procs[i].state.Unused? && !s'.procs[i].state.Unused? ==>
                a.Thread? && a.p < |s.procs| && s.procs[a.p].pc == ForkFind(i)
      ensures Pid(s', i) == s.data.nextpid ==> a.Thread? && a.p < |s.procs| && s.procs[a.p].pc == ForkFind(i)
    {
      ActLives(s, a, i);
      PidSlot(s, a, s', i);
    }
  }

  lemma PidSlot(s: Sys, a: Action, s': Sys, i: nat)
    requires i < |s.procs| == |s'.procs| && Lived(s, a, s', i) && PidsOk(s)
    requires s'.data.nextpid == s.data.nextpid || (a.Thread? && a.p < |s.procs| && Born(s, a.p, s'))
    ensures if s'.procs[i].state.Unused? then Pid(s', i) == 0
            else 0 < Pid(s', i) < s'.data.nextpid && (Pid(s', i) == Pid(s, i) || Pid(s', i) == s.data.nextpid)
    ensures s.procs[i].state.Unused? && !s'.procs[i].state.Unused? ==>
              a.Thread? && a.p < |s.procs| && s.procs[a.p].pc == ForkFind(i)
    ensures Pid(s', i) == s.data.nextpid ==> a.Thread? && a.p < |s.procs| && s.procs[a.p].pc == ForkFind(i)
  {
  }

  /** In every run no two processes have the same identifier. */
  lemma {:induction false} PidsApart(s: Sys, acts: seq<Action>)
    requires Booted(s)
    ensures PidsOk(Trace(s, acts))
  {
    hide Inv, Act;
    if acts != [] {
      TraceOk(s, acts[..|acts| - 1]);
      PidsApart(s, acts[..|acts| - 1]);
      PidsStep(Trace(s, acts[..|acts| - 1]), acts[|acts| - 1]);
    }
  }

  /** The identifier of no process. */
  ghost predicate Gone(s: Sys, pid: nat) {
    0 < pid < s.data.nextpid && forall i | 0 <= i < |s.procs| :: Pid(s, i) != pid
  }

  /** An identifier that is gone never comes back. */
  lemma GoneStays(s: Sys, a: Action, pid: nat)
    requires Inv(s) && PidsOk(s) && Gone(s, pid)
    ensures Gone(Act(s, a), pid)
  {
    hide Inv, Act, Lived, Born;
    NextPid(s, a);
    var s' := Act(s, a);
    NextGrows(s, a);
    forall i: nat | i < |s.procs| ensures Pid(s', i) != pid {
      ActLives(s, a, i);
      PidSlot(s, a, s', i);
    }
  }

  lemma NextGrows(s: Sys, a: Action)
    requires Inv(s)
    ensures Act(s, a).data.nextpid >= s.data.nextpid
  {
    hide Inv, Act;
    NextPid(s, a);
  }

  lemma {:induction false} GoneForever(s: Sys, acts: seq<Action>, more: seq<Action>, pid: nat)
    requires Booted(s) && Gone(Trace(s, acts), pid)
    ensures Gone(Trace(s, acts + more), pid)
    decreases |more|
  {
    hide Inv, Act, PidsOk, Gone;
    if more == [] {
      assert acts + more == acts;
    } else {
      var n := |more| - 1;
      GoneForever(s, acts, more[..n], pid);
      assert (acts + more)[..|acts + more| - 1] == acts + more[..n];
      TraceOk(s, acts + more[..n]);
      PidsApart(s, acts + more[..n]);
      GoneStays(Trace(s, acts + more[..n]), more[n], pid);
    }
  }

  // ----- what kwait answers

  /** Slot c, the child of p with this identifier and status, is a ZOMBIE that kwait of p frees in the
      step a. */
  predicate Reaps(s: Sys, a: Action, p: nat, c: nat, pid: nat, status: int) {
    && p < |s.procs| && c < |s.procs| && c < |Act(s, a).procs| && a.Thread? && a.p == p
    && s.procs[c].state.Zombie? && s.procs[c].parent == Some(p) && Pid(s, c) == pid && Status(s, c) == status
    && Act(s, a).procs[c] == BLANK && Pid(Act(s, a), c) == 0
  }

  /** If wait returns an identifier and a status, there was a moment at which the caller had a ZOMBIE
      child with both, and freed it. */
  lemma {:induction false} AnswerTrue(s: Sys, acts: seq<Action>, p: nat) returns (k: nat, c: nat)
    requires Booted(s) && Ret(Trace(s, acts), p).Child?
    ensures k < |acts|
    ensures Reaps(Trace(s, acts[..k]), acts[k], p, c, Ret(Trace(s, acts), p).pid, Ret(Trace(s, acts), p).status)
  {
    hide Inv, Act;
    if acts != [] {
      var n := |acts| - 1;
      var t, a := Trace(s, acts[..n]), acts[n];
      TraceOk(s, acts[..n]);
      TraceKin(s, acts[..n]);
      if Ret(Act(t, a), p) == Ret(t, p) {
        k, c := AnswerTrue(s, acts[..n], p);
        assert acts[..n][..k] == acts[..k];
      } else {
        AnswerStep(t, a, p);
        k, c := n, t.procs[p].pc.i;
      }
    }
  }

  lemma AnswerStep(s: Sys, a: Action, p: nat)
    requires Inv(s) && Kin(s) && Ret(Act(s, a), p).Child? && Ret(Act(s, a), p) != Ret(s, p)
    ensures p < |s.procs| && s.procs[p].pc.WaitHeld?
    ensures Reaps(s, a, p, s.procs[p].pc.i, Ret(Act(s, a), p).pid, Ret(Act(s, a), p).status)
  {
    hide Inv, ThreadStep;
    if a.Thread? && a.p < |s.procs| { ThreadSays(s, a.p, a.ch); }
    if !a.Thread? { ActData(s, a); }
  }

  // ----- what kfork answers

  /** A fork past allocproc is going to return the identifier of the slot that it fills. */
  ghost predicate ForkSaid(s: Sys) {
    forall p | 0 <= p < |s.procs| && Filling(s.procs[p].pc).Some? && !s.procs[p].pc.ForkMade? ::
      Ret(s, p) == Forked(Pid(s, Filling(s.procs[p].pc).value))
  }

  /** How thread p comes to such a place: it was at one, or allocproc has just returned. */
  ghost predicate FillSays(s: Sys, p: nat, s': Sys) {
    && p < |s.procs| == |s'.procs|
    && (Filling(s'.procs[p].pc).Some? && !s'.procs[p].pc.ForkMade? ==>
          && Filling(s.procs[p].pc) == Filling(s'.procs[p].pc)
          && if s.procs[p].pc.ForkMade? then Ret(s', p) == Forked(Pid(s, Filling(s'.procs[p].pc).value))
             else Ret(s', p) == Ret(s, p))
  }

  lemma ForkFills(s: Sys, p: nat, ch: Choice)
    requires Inv(s) && p < |s.procs|
    ensures ForkStep(s, p, ch).Some? ==> FillSays(s, p, ForkStep(s, p, ch).value)
  {
    hide Inv;
    MadePlace(s, p);
  }

  lemma ExitFills(s: Sys, p: nat)
    requires p < |s.procs|
    ensures ExitStep(s, p).Some? ==> FillSays(s, p, ExitStep(s, p).value)
    ensures ReparentStep(s, p).Some? ==> FillSays(s, p, ReparentStep(s, p).value)
  {
  }

  lemma WakeFills(s: Sys, p: nat)
    requires p < |s.procs|
    ensures WakeStep(s, p).Some? ==> FillSays(s, p, WakeStep(s, p).value)
  {
    hide WakeSlot;
    if s.procs[p].pc.ReparentWake? && s.procs[p].pc.k < |s.procs| { WakeSize(s, p, s.procs[p].pc.k, OnProc(INIT)); }
    if s.procs[p].pc.ExitWake? && s.procs[p].pc.k < |s.procs| && s.procs[p].parent.Some? {
      WakeSize(s, p, s.procs[p].pc.k, OnProc(s.procs[p].parent.value));
    }
  }

  lemma WakeSize(s: Sys, p: nat, k: nat, chan: Chan)
    requires k < |s.procs|
    ensures var o := WakeSlot(s, p, k, chan); o.Some? ==> |o.value.procs| == |s.procs|
  {
  }

  lemma WaitFills(s: Sys, p: nat, ch: Choice)
    requires p < |s.procs|
    ensures WaitStep(s, p, ch).Some? ==> FillSays(s, p, WaitStep(s, p, ch).value)
  {
  }

  lemma SleepFills(s: Sys, p: nat)
    requires p < |s.procs|
    ensures SleepStep(s, p).Some? ==> FillSays(s, p, SleepStep(s, p).value)
    ensures ParkStep(s, p).Some? ==> FillSays(s, p, ParkStep(s, p).value)
  {
  }

  lemma OtherFills(s: Sys, p: nat, ch: Choice)
    requires p < |s.procs|
    ensures KillStep(s, p).Some? ==> FillSays(s, p, KillStep(s, p).value)
    ensures StartStep(s, p, ch).Some? ==> FillSays(s, p, StartStep(s, p, ch).value)
    ensures YieldStep(s, p).Some? ==> FillSays(s, p, YieldStep(s, p).value)
  {
  }

  lemma ResumeFills(s: Sys, p: nat)
    requires p < |s.procs|
    ensures ResumeStep(s, p).Some? ==> FillSays(s, p, ResumeStep(s, p).value)
  {
  }

  lemma ThreadFills(s: Sys, p: nat, ch: Choice)
    requires Inv(s) && p < |s.procs|
    ensures ThreadStep(s, p, ch).Some? ==> FillSays(s, p, ThreadStep(s, p, ch).value)
  {
    hide Inv, ForkStep, ExitStep, ReparentStep, WakeStep, WaitStep, SleepStep, KillStep, ParkStep, StartStep;
    hide YieldStep, FillSays;
    ForkFills(s, p, ch);
    ExitFills(s, p);
    WakeFills(s, p);
    WaitFills(s, p, ch);
    SleepFills(s, p);
    OtherFills(s, p, ch);
  }

  /** The places of all threads after a step, as far as forks go. */
  lemma ActFills(s: Sys, a: Action, q: nat)
    requires Inv(s) && a.p < |s.procs| && q < |s.procs| && Act(s, a) != s
    ensures |Act(s, a).procs| == |s.procs|
    ensures q == a.p ==> FillSays(s, q, Act(s, a))
    ensures q != a.p ==> var pc := Act(s, a).procs[q].pc; pc == s.procs[q].pc || Filling(pc) == None
  {
    hide Inv, ThreadStep, Filling;
    ActSize(s, a);
    if a.Thread? {
      ThreadFills(s, a.p, a.ch);
      ThreadPlaces(s, a.p, a.ch);
      NoFilling(Act(s, a).procs[q].pc);
    } else {
      ResumeFills(s, a.p);
    }
  }

  lemma NoFilling(pc: Pc)
    ensures pc.Start? || pc.Away? ==> Filling(pc) == None
  {
  }

  lemma SaidStep(s: Sys, a: Action)
    requires Inv(s) && ForkSaid(s)
    ensures ForkSaid(Act(s, a))
  {
    hide Inv, Act, Filling, FillSays;
    var s' := Act(s, a);
    if a.p >= |s.procs| {
      OutOfTable(s, a);
    } else if s' != s {
      ActSize(s, a);
      forall p | 0 <= p < |s'.procs| && Filling(s'.procs[p].pc).Some? && !s'.procs[p].pc.ForkMade?
        ensures Ret(s', p) == Forked(Pid(s', Filling(s'.procs[p].pc).value))
      {
        SaidSlot(s, a, s', p, Filling(s'.procs[p].pc).value);
      }
    }
  }

  lemma OutOfTable(s: Sys, a: Action)
    requires a.p >= |s.procs|
    ensures Act(s, a) == s
  {
  }

  lemma SaidSlot(s: Sys, a: Action, s': Sys, p: nat, i: nat)
    requires Inv(s) && ForkSaid(s) && s' == Act(s, a) != s && p < |s.procs| == |s'.procs| && a.p < |s.procs|
    requires Filling(s'.procs[p].pc) == Some(i) && !s'.procs[p].pc.ForkMade?
    ensures Ret(s', p) == Forked(Pid(s', i))
  {
    hide Inv, Act, Lived, Filling;
    ActFills(s, a, p);
    FillRange(s, p, i);
    FilledSlot(s, p, i);
    ActLives(s, a, i);
    FilledPid(s, a, s', p, i);
    if p != a.p { RetKept(s, a, p); }
  }

  lemma FillRange(s: Sys, p: nat, i: nat)
    requires Inv(s) && p < |s.procs| && Filling(s.procs[p].pc) == Some(i)
    ensures i < |s.procs|
  {
    hide Locks, WaitLocks, States, Separate, Adopted, Tree, Waits, Wakes, Filling;
  }

  /** Nobody changes the identifier of the slot that p goes on filling. */
  lemma FilledPid(s: Sys, a: Action, s': Sys, p: nat, i: nat)
    requires p < |s.procs| == |s'.procs| && i < |s.procs| && Lived(s, a, s', i) && s.procs[i].state.Used?
    requires Filling(s.procs[p].pc) == Some(i)
    requires forall q | 0 <= q < |s.procs| && q != p :: Filling(s.procs[q].pc) != Some(i)
    requires a.p < |s.procs| && (a.p == p ==> FillSays(s, p, s')) && Filling(s'.procs[p].pc) == Some(i)
    requires !s'.procs[p].pc.ForkMade?
    ensures Pid(s', i) == Pid(s, i)
  {
    if a.Thread? && s.procs[a.p].pc == ForkMade(i) { FillingIs(s.procs[a.p].pc); }
  }

  lemma RetKept(s: Sys, a: Action, p: nat)
    requires Inv(s) && a.p < |s.procs| && p != a.p
    ensures Ret(Act(s, a), p) == Ret(s, p)
  {
    hide Inv, ThreadStep, ByWait;
    if a.Thread? { ThreadSays(s, a.p, a.ch); } else { ActData(s, a); }
  }

  lemma {:induction false} TraceSaid(s: Sys, acts: seq<Action>)
    requires Booted(s)
    ensures ForkSaid(Trace(s, acts))
  {
    hide Inv, Act, Filling;
    if acts == [] {
      BootedSaid(s);
    } else {
      TraceOk(s, acts[..|acts| - 1]);
      TraceSaid(s, acts[..|acts| - 1]);
      SaidStep(Trace(s, acts[..|acts| - 1]), acts[|acts| - 1]);
    }
  }

  lemma BootedSaid(s: Sys)
    requires Booted(s)
    ensures ForkSaid(s)
  {
  }

  /** fork returns the identifier of the child that it makes RUNNABLE, and is its parent. */
  lemma ForkTrue(s: Sys, acts: seq<Action>, p: nat, i: nat, ch: Choice)
    requires Booted(s) && p < |s.procs| && i < |s.procs| && |Trace(s, acts).procs| == |s.procs| && ch != Yield
    requires Trace(s, acts).procs[p].pc == ForkWake(i) && Trace(s, acts).procs[i].lock == Open
    ensures var t, t' := Trace(s, acts), Act(Trace(s, acts), Thread(p, ch));
            && |t'.procs| == |t.procs| && t'.procs[p].pc.Run? && t'.procs[i].state.Runnable? && t'.procs[i].pc.Start?
            && t'.procs[i].parent == Some(p) && Ret(t', p) == Forked(Pid(t', i)) && Pid(t', i) > 0
  {
    hide Inv, Trace, Filling, PidsOk;
    TraceOk(s, acts);
    TraceSaid(s, acts);
    PidsApart(s, acts);
    FillingIs(Trace(s, acts).procs[p].pc);
    AdoptingIs(Trace(s, acts).procs[p].pc);
    FilledSlot(Trace(s, acts), p, i);
    PidPositive(Trace(s, acts), i);
  }

  lemma AdoptingIs(pc: Pc)
    requires pc.ForkWake?
    ensures Adopting(pc) == Some(pc.i)
  {
  }

  lemma PidPositive(s: Sys, i: nat)
    requires PidsOk(s) && i < |s.procs| && !s.procs[i].state.Unused?
    ensures Pid(s, i) > 0
  {
  }
}
