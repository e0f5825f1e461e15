/** The calls of proc.c when nobody gets in the way: the slots and answers that fork, exit, wait and
    kill leave behind, from the first step to the last. */
module ProcessCalls {
  import opened Options
  import opened Processes
  import opened ProcessRuns
  import opened ProcessLives

  /** n steps of thread p in a row. */
  function Alone(s: Sys, p: nat, n: nat): Sys {
    if n == 0 then s else Act(Alone(s, p, n - 1), Thread(p, Done))
  }

  /** Steps of p alone lead from s to t. */
  ghost predicate Leads(s: Sys, p: nat, t: Sys) {
    exists n :: Alone(s, p, n) == t
  }

  lemma {:induction false} AloneMore(s: Sys, p: nat, m: nat, n: nat)
    ensures Alone(Alone(s, p, m), p, n) == Alone(s, p, m + n)
    decreases n
  {
    hide Act;
    if n > 0 { AloneMore(s, p, m, n - 1); }
  }

  lemma LeadsSelf(s: Sys, p: nat)
    ensures Leads(s, p, s)
  {
    assert Alone(s, p, 0) == s;
  }

  lemma LeadsOn(s: Sys, p: nat, t: Sys, u: Sys)
    requires Leads(s, p, t) && Leads(t, p, u)
    ensures Leads(s, p, u)
  {
    var m :| Alone(s, p, m) == t;
    var n :| Alone(t, p, n) == u;
    AloneMore(s, p, m, n);
  }

  lemma OneStep(s: Sys, p: nat, t: Sys)
    requires p < |s.procs| && ThreadStep(s, p, Done) == Some(t)
    ensures Leads(s, p, t)
  {
    hide ThreadStep;
    assert Alone(s, p, 0) == s;
    assert Alone(s, p, 1) == t;
  }

  /** One step, and then from t on. */
  lemma StepOn(s: Sys, p: nat, t: Sys, u: Sys)
    requires p < |s.procs| && ThreadStep(s, p, Done) == Some(t) && Leads(t, p, u)
    ensures Leads(s, p, u)
  {
    hide ThreadStep, Leads;
    OneStep(s, p, t);
    LeadsOn(s, p, t, u);
  }

  // ----- which function a step is

  lemma WaitIs(s: Sys, p: nat)
    requires p < |s.procs|
    requires var pc := s.procs[p].pc; pc.WaitLock? || pc.WaitScan? || pc.WaitHeld? || pc.WaitLeave? || pc.WaitSleep?
    ensures ThreadStep(s, p, Done) == WaitStep(s, p, Done)
  {
    hide WaitStep;
  }

  lemma SleepIs(s: Sys, p: nat)
    requires p < |s.procs| && (s.procs[p].pc.SleepBoth? || s.procs[p].pc.SleepSet? || s.procs[p].pc.SleepSched?)
    ensures ThreadStep(s, p, Done) == SleepStep(s, p)
  {
    hide SleepStep;
  }

  lemma ForkIs(s: Sys, p: nat)
    requires p < |s.procs|
    requires var pc := s.procs[p].pc; pc.ForkFind? || pc.ForkMade? || pc.ForkParent? || pc.ForkWake?
    ensures ThreadStep(s, p, Done) == ForkStep(s, p, Done)
  {
    hide ForkStep;
  }

  lemma ExitIs(s: Sys, p: nat)
    requires p < |s.procs|
    ensures var pc := s.procs[p].pc;
            pc.ExitLock? || pc.ExitSelf? || pc.ExitZombie? || pc.ExitRelease? || pc.ExitSched? ==>
              ThreadStep(s, p, Done) == ExitStep(s, p)
    ensures s.procs[p].pc.Reparent? ==> ThreadStep(s, p, Done) == ReparentStep(s, p)
    ensures s.procs[p].pc.ReparentWake? || s.procs[p].pc.ExitWake? ==> ThreadStep(s, p, Done) == WakeStep(s, p)
  {
    hide ExitStep, ReparentStep, WakeStep;
  }

  lemma KillIs(s: Sys, p: nat)
    requires p < |s.procs| && s.procs[p].pc.Kill?
    ensures ThreadStep(s, p, Done) == KillStep(s, p)
  {
    hide KillStep;
  }

  lemma ParkIs(s: Sys, p: nat)
    requires p < |s.procs| && (Paused(s.procs[p].pc) || s.procs[p].pc.Started?)
    ensures ThreadStep(s, p, Done) == ParkStep(s, p)
  {
    hide ParkStep;
  }

  lemma ThreadActs(s: Sys, p: nat, t: Sys)
    requires p < |s.procs| && ThreadStep(s, p, Done) == Some(t)
    ensures Act(s, Thread(p, Done)) == t
  {
    hide ThreadStep;
  }

  /** Sequences that agree everywhere. */
  lemma SameProcs(a: seq<Proc>, b: seq<Proc>)
    requires |a| == |b| && forall i | 0 <= i < |a| :: a[i] == b[i]
    ensures a == b
  {
  }

  lemma Twice(ps: seq<Proc>, p: nat)
    requires p < |ps|
    ensures forall a, b {:trigger ps[p := a][p := b]} :: ps[p := a][p := b] == ps[p := b]
  {
  }

  // ----- wait

  /** c is the first ZOMBIE child of p from slot j on, and no lock on the way is taken. */
  predicate FirstZombie(s: Sys, p: nat, j: nat, c: nat) {
    && p < |s.procs| && j <= c < |s.procs| && c != p && s.procs[c].parent == Some(p) && s.procs[c].state.Zombie?
    && (forall i | j <= i <= c && s.procs[i].parent == Some(p) :: s.procs[i].lock == Open && i != p)
    && (forall i | j <= i < c && s.procs[i].parent == Some(p) :: !s.procs[i].state.Zombie?)
  }

  /** Slot c is free, p is back with the identifier and status of c, and nothing else has changed. */
  function WaitedFor(s: Sys, p: nat, c: nat): Sys
    requires p < |s.procs| && c < |s.procs|
  {
    var d := s.data;
    Sys(s.procs[c := Proc(Unused, None, NoChan, Open, Away)][p := s.procs[p].(pc := Run)], None,
        Data(d.pid[c := 0], d.killed[c := false], d.status[c := 0], d.arg, d.ret[p := Child(Pid(s, c), Status(s, c))],
             d.nextpid))
  }

  lemma {:induction false} ScanFinds(s: Sys, p: nat, j: nat, kids: bool, c: nat)
    requires FirstZombie(s, p, j, c) && s.procs[p].pc == WaitScan(j, kids)
    ensures Leads(s, p, WaitedFor(s, p, c))
    decreases c - j
  {
    hide Leads, ThreadStep;
    if j == c {
      ScanReaps(s, p, c, kids);
    } else {
      var more := kids || s.procs[j].parent == Some(p);
      var t := Go(s, p, WaitScan(j + 1, more));
      ScanPasses(s, p, j, kids);
      ScanFinds(t, p, j + 1, more, c);
      assert WaitedFor(t, p, c) == WaitedFor(s, p, c);
      LeadsOn(s, p, t, WaitedFor(s, p, c));
    }
  }

  /** A slot that holds no ZOMBIE child is passed by. */
  lemma ScanPasses(s: Sys, p: nat, j: nat, kids: bool)
    requires p < |s.procs| && j < |s.procs| && s.procs[p].pc == WaitScan(j, kids)
    requires s.procs[j].parent == Some(p) ==> j != p && s.procs[j].lock == Open && !s.procs[j].state.Zombie?
    ensures Leads(s, p, Go(s, p, WaitScan(j + 1, kids || s.procs[j].parent == Some(p))))
  {
    hide Leads, ThreadStep;
    WaitIs(s, p);
    var u := Go(s, p, WaitScan(j + 1, kids || s.procs[j].parent == Some(p)));
    if s.procs[j].parent != Some(p) {
      OneStep(s, p, u);
    } else {
      var t := Go(Take(s, j, p), p, WaitHeld(j));
      WaitIs(t, p);
      SameProcs(Go(Release(t, j), p, WaitScan(j + 1, true)).procs, u.procs);
      OneStep(t, p, u);
      StepOn(s, p, t, u);
    }
  }

  lemma ScanReaps(s: Sys, p: nat, c: nat, kids: bool)
    requires FirstZombie(s, p, c, c) && s.procs[p].pc == WaitScan(c, kids)
    ensures Leads(s, p, WaitedFor(s, p, c))
  {
    hide Leads, ThreadStep, WaitedFor;
    WaitIs(s, p);
    var t := Go(Take(s, c, p), p, WaitHeld(c));
    HeldReaps(s, t, p, c);
    StepOn(s, p, t, WaitedFor(s, p, c));
  }

  lemma HeldReaps(s: Sys, t: Sys, p: nat, c: nat)
    requires p < |s.procs| && c < |s.procs| && c != p && s.procs[c].state.Zombie?
    requires t == Go(Take(s, c, p), p, WaitHeld(c))
    ensures Leads(t, p, WaitedFor(s, p, c))
  {
    hide Leads, ThreadStep;
    WaitIs(t, p);
    var u, v := Reaped(t, p, c), WaitedFor(s, p, c);
    WaitIs(u, p);
    SameProcs(Go(u.(wait := None), p, Run).procs, v.procs);
    OneStep(u, p, v);
    StepOn(t, p, u, v);
  }

  /** Without a ZOMBIE child the scan goes through the whole table and remembers whether there was any
      child. */
  lemma {:induction false} ScanEnds(s: Sys, p: nat, j: nat, kids: bool)
    requires p < |s.procs| && j <= |s.procs| && s.procs[p].pc == WaitScan(j, kids)
    requires forall i | j <= i < |s.procs| && s.procs[i].parent == Some(p) ::
               i != p && s.procs[i].lock == Open && !s.procs[i].state.Zombie?
    ensures var any := kids || exists i | j <= i < |s.procs| :: s.procs[i].parent == Some(p);
            Leads(s, p, Go(s, p, WaitScan(|s.procs|, any)))
    decreases |s.procs| - j
  {
    hide Leads, ThreadStep;
    var n := |s.procs|;
    if j == n {
      SameProcs(Go(s, p, WaitScan(n, kids)).procs, s.procs);
      LeadsSelf(s, p);
    } else {
      var more := kids || s.procs[j].parent == Some(p);
      var t := Go(s, p, WaitScan(j + 1, more));
      ScanPasses(s, p, j, kids);
      ScanEnds(t, p, j + 1, more);
      var any := kids || exists i | j <= i < n :: s.procs[i].parent == Some(p);
      var any' := more || exists i | j + 1 <= i < n :: t.procs[i].parent == Some(p);
      assert forall i | 0 <= i < n :: t.procs[i].parent == s.procs[i].parent;
      assert any == any';
      assert Go(t, p, WaitScan(n, any)) == Go(s, p, WaitScan(n, any));
      LeadsOn(s, p, t, Go(s, p, WaitScan(n, any)));
    }
  }

  /** wait, undisturbed, with a ZOMBIE child: it frees the first one and returns its identifier and
      status. */
  lemma WaitReaps(s: Sys, p: nat, c: nat)
    requires p < |s.procs| && s.procs[p].pc.WaitLock? && s.wait == None && FirstZombie(s, p, 0, c)
    ensures Leads(s, p, WaitedFor(s, p, c))
  {
    hide Leads, ThreadStep;
    var t := Go(s.(wait := Some(p)), p, WaitScan(0, false));
    WaitIs(s, p);
    ScanFinds(t, p, 0, false, c);
    assert WaitedFor(t, p, c) == WaitedFor(s, p, c);
    StepOn(s, p, t, WaitedFor(s, p, c));
  }

  /** ... and without one: it fails if there is no child or the caller is killed, and sleeps until a
      child exits otherwise. */
  lemma WaitFails(s: Sys, p: nat)
    requires p < |s.procs| && s.procs[p].pc.WaitLock? && s.wait == None && s.procs[p].lock == Open
    requires forall i | 0 <= i < |s.procs| && s.procs[i].parent == Some(p) ::
               i != p && s.procs[i].lock == Open && !s.procs[i].state.Zombie?
    ensures var r, kids := s.procs[p], exists i | 0 <= i < |s.procs| :: s.procs[i].parent == Some(p);
            Leads(s, p,
                  if !kids || KilledAt(s, p)
                  then Sys(s.procs[p := r.(pc := Run)], None, s.data.(ret := s.data.ret[p := Failed]))
                  else Sys(s.procs[p := Proc(Sleeping, r.parent, OnProc(p), BySched, Asleep)], None, s.data))
  {
    hide Leads, ThreadStep;
    var t, n := Go(s.(wait := Some(p)), p, WaitScan(0, false)), |s.procs|;
    WaitIs(s, p);
    OneStep(s, p, t);
    ScanEnds(t, p, 0, false);
    assert forall i | 0 <= i < n :: t.procs[i].parent == s.procs[i].parent;
    var kids := exists i | 0 <= i < n :: s.procs[i].parent == Some(p);
    var u := Go(t, p, WaitScan(n, kids));
    LeadsOn(s, p, t, u);
    WaitIs(u, p);
    if !kids || KilledAt(s, p) {
      WaitGivesUp(s, u, p);
    } else {
      WaitSleeps(s, u, p);
    }
  }

  lemma WaitGivesUp(s: Sys, u: Sys, p: nat)
    requires p < |s.procs| && Leads(s, p, u) && |u.procs| == |s.procs| && u.procs[p].pc.WaitScan?
    requires u == Sys(s.procs[p := s.procs[p].(pc := u.procs[p].pc)], Some(p), s.data) && s.procs[p].lock == Open
    requires u.procs[p].pc.i == |s.procs| && (!u.procs[p].pc.kids || KilledAt(s, p))
    ensures Leads(s, p, Sys(s.procs[p := s.procs[p].(pc := Run)], None, s.data.(ret := s.data.ret[p := Failed])))
  {
    hide Leads, ThreadStep;
    WaitIs(u, p);
    var v := Say(Go(u, p, WaitLeave), p, Failed);
    WaitIs(v, p);
    var w := Sys(s.procs[p := s.procs[p].(pc := Run)], None, s.data.(ret := s.data.ret[p := Failed]));
    SameProcs(Go(v.(wait := None), p, Run).procs, w.procs);
    OneStep(v, p, w);
    StepOn(u, p, v, w);
    LeadsOn(s, p, u, w);
  }

  lemma WaitSleeps(s: Sys, u: Sys, p: nat)
    requires p < |s.procs| && Leads(s, p, u) && |u.procs| == |s.procs|
    requires u == Sys(s.procs[p := s.procs[p].(pc := WaitScan(|s.procs|, true))], Some(p), s.data)
    requires s.procs[p].lock == Open && !KilledAt(s, p)
    ensures Leads(s, p, Sys(s.procs[p := Proc(Sleeping, s.procs[p].parent, OnProc(p), BySched, Asleep)], None, s.data))
  {
    hide Leads, ThreadStep;
    var r := s.procs[p];
    var v0 := Sys(s.procs[p := r.(pc := WaitSleep)], Some(p), s.data);
    var v1 := Sys(s.procs[p := r.(lock := By(p), pc := SleepBoth)], Some(p), s.data);
    var v2 := Sys(s.procs[p := r.(lock := By(p), pc := SleepSet)], None, s.data);
    var v3 := Sys(s.procs[p := Proc(Sleeping, r.parent, OnProc(p), By(p), SleepSched)], None, s.data);
    var v4 := Sys(s.procs[p := Proc(Sleeping, r.parent, OnProc(p), BySched, Asleep)], None, s.data);
    WaitIs(u, p); WaitIs(v0, p); SleepIs(v1, p); SleepIs(v2, p); SleepIs(v3, p);
    Twice(s.procs, p);
    OneStep(v3, p, v4);
    StepOn(v2, p, v3, v4);
    StepOn(v1, p, v2, v4);
    StepOn(v0, p, v1, v4);
    StepOn(u, p, v0, v4);
    LeadsOn(s, p, u, v4);
  }

  // ----- fork

  /** Slot c is the new RUNNABLE child of p, with the next identifier, which p returns; nothing else has
      changed. */
  function ForkedTo(s: Sys, p: nat, c: nat): Sys
    requires p < |s.procs| && c < |s.procs|
  {
    var d := s.data;
    Sys(s.procs[c := Proc(Runnable, Some(p), s.procs[c].chan, Open, Start)][p := s.procs[p].(pc := Run)], None,
        Data(d.pid[c := d.nextpid], d.killed, d.status, d.arg, d.ret[p := Forked(d.nextpid)], d.nextpid + 1))
  }

  lemma {:induction false} FindPasses(s: Sys, p: nat, j: nat, c: nat)
    requires p < |s.procs| && j <= c <= |s.procs| && s.procs[p].pc == ForkFind(j)
    requires forall i | j <= i < c :: s.procs[i].lock == Open && !s.procs[i].state.Unused?
    ensures Leads(s, p, Go(s, p, ForkFind(c)))
    decreases c - j
  {
    hide Leads, ThreadStep;
    Twice(s.procs, p);
    if j == c {
      SameProcs(Go(s, p, ForkFind(c)).procs, s.procs);
      LeadsSelf(s, p);
    } else {
      var t := Go(s, p, ForkFind(j + 1));
      ForkIs(s, p);
      FindPasses(t, p, j + 1, c);
      StepOn(s, p, t, Go(s, p, ForkFind(c)));
    }
  }

  /** fork, undisturbed, when an allocation succeeds: it takes the first UNUSED slot. */
  lemma ForkMakes(s: Sys, p: nat, c: nat)
    requires p < |s.procs| && s.procs[p].pc == ForkFind(0) && s.wait == None && c < |s.procs| && c != p
    requires s.procs[c].state.Unused? && s.procs[c].lock == Open && s.procs[c].pc.Away?
    requires forall i | 0 <= i < c :: s.procs[i].lock == Open && !s.procs[i].state.Unused?
    ensures Leads(s, p, ForkedTo(s, p, c))
  {
    hide Leads, ThreadStep, ForkedTo;
    var t := Go(s, p, ForkFind(c));
    FindPasses(s, p, 0, c);
    SlotFilled(s, t, p, c);
    LeadsOn(s, p, t, ForkedTo(s, p, c));
  }

  lemma SlotFilled(s: Sys, t: Sys, p: nat, c: nat)
    requires p < |s.procs| && c < |s.procs| && c != p && s.wait == None && t == Go(s, p, ForkFind(c))
    requires s.procs[c].state.Unused? && s.procs[c].lock == Open && s.procs[c].pc.Away?
    ensures Leads(t, p, ForkedTo(s, p, c))
  {
    hide Leads, ThreadStep;
    var d, d', r, q := s.data, ForkedTo(s, p, c).data, s.procs[p], s.procs[c];
    var e := d.(pid := d.pid[c := d.nextpid], nextpid := d.nextpid + 1);
    var t1 := Sys(s.procs[c := q.(state := Used, lock := By(p))][p := r.(pc := ForkMade(c))], None, e);
    var t2 := Sys(s.procs[c := q.(state := Used)][p := r.(pc := ForkParent(c))], None, d');
    ForkIs(t, p); ForkIs(t1, p);
    SameProcs(Made(t, p, c).procs, t1.procs);
    SameProcs(Go(Release(t1, c), p, ForkParent(c)).procs, t2.procs);
    ChildGoes(s, t2, p, c);
    StepOn(t1, p, t2, ForkedTo(s, p, c));
    StepOn(t, p, t1, ForkedTo(s, p, c));
  }

  lemma ChildGoes(s: Sys, t: Sys, p: nat, c: nat)
    requires p < |s.procs| && c < |s.procs| && c != p
    requires s.procs[c].state.Unused? && s.procs[c].lock == Open && s.procs[c].pc.Away?
    requires t == Sys(s.procs[c := s.procs[c].(state := Used)][p := s.procs[p].(pc := ForkParent(c))], None,
                      ForkedTo(s, p, c).data)
    ensures Leads(t, p, ForkedTo(s, p, c))
  {
    hide Leads, ThreadStep;
    var r, q := s.procs[p], s.procs[c];
    var u := Sys(s.procs[c := q.(state := Used, parent := Some(p))][p := r.(pc := ForkWake(c))], None, t.data);
    ForkIs(t, p); ForkIs(u, p);
    SameProcs(Go(Set(t, c, t.procs[c].(parent := Some(p))), p, ForkWake(c)).procs, u.procs);
    SameProcs(Go(Set(u, c, u.procs[c].(state := Runnable, pc := Start)), p, Run).procs, ForkedTo(s, p, c).procs);
    OneStep(u, p, ForkedTo(s, p, c));
    StepOn(t, p, u, ForkedTo(s, p, c));
  }

  /** ... and without an UNUSED slot it fails and changes nothing. */
  lemma ForkFails(s: Sys, p: nat)
    requires p < |s.procs| && s.procs[p].pc == ForkFind(0)
    requires forall i | 0 <= i < |s.procs| :: s.procs[i].lock == Open && !s.procs[i].state.Unused?
    ensures Leads(s, p, Sys(s.procs[p := s.procs[p].(pc := Run)], s.wait, s.data.(ret := s.data.ret[p := Failed])))
  {
    hide Leads, ThreadStep;
    var t := Go(s, p, ForkFind(|s.procs|));
    FindPasses(s, p, 0, |s.procs|);
    ForkIs(t, p);
    Twice(s.procs, p);
    var u := Sys(s.procs[p := s.procs[p].(pc := Run)], s.wait, s.data.(ret := s.data.ret[p := Failed]));
    OneStep(t, p, u);
    LeadsOn(s, p, t, u);
  }

  // ----- kill

  lemma {:induction false} KillPasses(s: Sys, p: nat, j: nat, c: nat, pid: nat)
    requires p < |s.procs| && j <= c <= |s.procs| && s.procs[p].pc == Kill(j, pid)
    requires forall i | j <= i < c :: s.procs[i].lock == Open && Pid(s, i) != pid
    ensures Leads(s, p, Go(s, p, Kill(c, pid)))
    decreases c - j
  {
    hide Leads, ThreadStep;
    Twice(s.procs, p);
    if j == c {
      SameProcs(Go(s, p, Kill(c, pid)).procs, s.procs);
      LeadsSelf(s, p);
    } else {
      var t := Go(s, p, Kill(j + 1, pid));
      KillIs(s, p);
      KillPasses(t, p, j + 1, c, pid);
      StepOn(s, p, t, Go(s, p, Kill(c, pid)));
    }
  }

  /** kill, undisturbed: exactly the first slot with the identifier gets its flag, and if it sleeps it
      becomes RUNNABLE. */
  lemma KillHits(s: Sys, p: nat, c: nat, pid: nat)
    requires p < |s.procs| && s.procs[p].pc == Kill(0, pid) && c < |s.procs| && Pid(s, c) == pid
    requires s.procs[p].state.Running?
    requires forall i | 0 <= i <= c :: s.procs[i].lock == Open
    requires forall i | 0 <= i < c :: Pid(s, i) != pid
    ensures var r, d := s.procs[c], s.data;
            Leads(s, p, Sys(s.procs[c := r.(state := if r.state.Sleeping? then Runnable else r.state)]
                                   [p := s.procs[p].(pc := Run)], s.wait,
                            Data(d.pid, d.killed[c := true], d.status, d.arg, d.ret[p := Signalled], d.nextpid)))
  {
    hide Leads, ThreadStep;
    var t := Go(s, p, Kill(c, pid));
    KillPasses(s, p, 0, c, pid);
    KillIs(t, p);
    var r, d := s.procs[c], s.data;
    var r' := r.(state := if r.state.Sleeping? then Runnable else r.state);
    var u := Sys(s.procs[c := r'][p := s.procs[p].(pc := Run)], s.wait,
                 Data(d.pid, d.killed[c := true], d.status, d.arg, d.ret[p := Signalled], d.nextpid));
    SameProcs(Go(Killed(t, c), p, Run).procs, u.procs);
    OneStep(t, p, u);
    LeadsOn(s, p, t, u);
  }

  /** ... and an identifier that nobody has is refused. */
  lemma KillMisses(s: Sys, p: nat, pid: nat)
    requires p < |s.procs| && s.procs[p].pc == Kill(0, pid)
    requires forall i | 0 <= i < |s.procs| :: s.procs[i].lock == Open && Pid(s, i) != pid
    ensures Leads(s, p, Sys(s.procs[p := s.procs[p].(pc := Run)], s.wait, s.data.(ret := s.data.ret[p := Failed])))
  {
    hide Leads, ThreadStep;
    var t := Go(s, p, Kill(|s.procs|, pid));
    KillPasses(s, p, 0, |s.procs|, pid);
    KillIs(t, p);
    Twice(s.procs, p);
    var u := Sys(s.procs[p := s.procs[p].(pc := Run)], s.wait, s.data.(ret := s.data.ret[p := Failed]));
    OneStep(t, p, u);
    LeadsOn(s, p, t, u);
  }

  // ----- exit

  /** Slot q when wakeup(chan) of p has gone through the table from slot k on. */
  function Roused(r: Proc, q: nat, p: nat, chan: Chan, k: nat): Proc {
    if q != p && q >= k && r.state.Sleeping? && r.chan == chan then r.(state := Runnable) else r
  }

  function AllRoused(ps: seq<Proc>, p: nat, chan: Chan, k: nat): (r: seq<Proc>)
    ensures |r| == |ps| && forall q | 0 <= q < |ps| :: r[q] == Roused(ps[q], q, p, chan, k)
  {
    seq(|ps|, q requires 0 <= q < |ps| => Roused(ps[q], q, p, chan, k))
  }

  /** All locks but that of p are free. */
  predicate Unhindered(ps: seq<Proc>, p: nat) {
    forall q | 0 <= q < |ps| && q != p :: ps[q].lock == Open
  }

  /** One slot of wakeup, and the rest of them. */
  lemma RouseOne(s: Sys, p: nat, k: nat, chan: Chan)
    requires p < |s.procs| && k < |s.procs| && Unhindered(s.procs, p)
    ensures var o := WakeSlot(s, p, k, chan);
            && o.Some? && o.value.wait == s.wait && o.value.data == s.data && |o.value.procs| == |s.procs|
            && o.value.procs[p] == s.procs[p] && Unhindered(o.value.procs, p)
            && AllRoused(o.value.procs, p, chan, k + 1) == AllRoused(s.procs, p, chan, k)
  {
    var t := WakeSlot(s, p, k, chan).value;
    SameProcs(AllRoused(t.procs, p, chan, k + 1), AllRoused(s.procs, p, chan, k));
  }

  lemma NoneRoused(ps: seq<Proc>, p: nat, chan: Chan)
    ensures AllRoused(ps, p, chan, |ps|) == ps
  {
    SameProcs(AllRoused(ps, p, chan, |ps|), ps);
  }

  /** The wakeup loop that follows the loss of child i. */
  lemma {:induction false} InitRoused(s: Sys, p: nat, i: nat, k: nat)
    requires p < |s.procs| && k <= |s.procs| && s.procs[p].pc == ReparentWake(i, k) && Unhindered(s.procs, p)
    ensures Leads(s, p, Go(s.(procs := AllRoused(s.procs, p, OnProc(INIT), k)), p, Reparent(i + 1)))
    decreases |s.procs| - k
  {
    hide Leads, ThreadStep, AllRoused, WakeSlot;
    ExitIs(s, p);
    var chan := OnProc(INIT);
    var u := Go(s.(procs := AllRoused(s.procs, p, chan, k)), p, Reparent(i + 1));
    if k == |s.procs| {
      NoneRoused(s.procs, p, chan);
      OneStep(s, p, u);
    } else {
      RouseOne(s, p, k, chan);
      var w := WakeSlot(s, p, k, chan).value;
      var t := Go(w, p, ReparentWake(i, k + 1));
      PlaceFree(w.procs, t.procs, p, chan, k + 1);
      InitRoused(t, p, i, k + 1);
      StepOn(s, p, t, u);
    }
  }

  /** The place of p in the code does not matter to wakeup. */
  lemma PlaceFree(ps: seq<Proc>, qs: seq<Proc>, p: nat, chan: Chan, k: nat)
    requires p < |ps| == |qs| && qs == ps[p := qs[p]] && Unhindered(ps, p)
    ensures Unhindered(qs, p) && AllRoused(qs, p, chan, k) == AllRoused(ps, p, chan, k)[p := qs[p]]
    ensures forall r {:trigger AllRoused(qs, p, chan, k)[p := r]} ::
              AllRoused(qs, p, chan, k)[p := r] == AllRoused(ps, p, chan, k)[p := r]
  {
    SameProcs(AllRoused(qs, p, chan, k), AllRoused(ps, p, chan, k)[p := qs[p]]);
  }

  lemma {:induction false} ParentRoused(s: Sys, p: nat, k: nat)
    requires p < |s.procs| && k <= |s.procs| && s.procs[p].pc == ExitWake(k) && Unhindered(s.procs, p)
    requires s.procs[p].parent.Some?
    ensures Leads(s, p, Go(s.(procs := AllRoused(s.procs, p, OnProc(s.procs[p].parent.value), k)), p, ExitSelf))
    decreases |s.procs| - k
  {
    hide Leads, ThreadStep, AllRoused, WakeSlot;
    ExitIs(s, p);
    var chan := OnProc(s.procs[p].parent.value);
    var u := Go(s.(procs := AllRoused(s.procs, p, chan, k)), p, ExitSelf);
    if k == |s.procs| {
      NoneRoused(s.procs, p, chan);
      OneStep(s, p, u);
    } else {
      RouseOne(s, p, k, chan);
      var w := WakeSlot(s, p, k, chan).value;
      var t := Go(w, p, ExitWake(k + 1));
      PlaceFree(w.procs, t.procs, p, chan, k + 1);
      ParentRoused(t, p, k + 1);
      StepOn(s, p, t, u);
    }
  }

  /** p has a child from slot i on. */
  predicate HasChild(ps: seq<Proc>, p: nat, i: nat) {
    exists q | i <= q < |ps| :: ps[q].parent == Some(p)
  }

  /** Slot q when reparent(p) has gone through the table from slot i on. */
  function Given(r: Proc, q: nat, p: nat, i: nat, any: bool): Proc {
    var t := if any then Roused(r, q, p, OnProc(INIT), 0) else r;
    if q >= i && r.parent == Some(p) then t.(parent := Some(INIT)) else t
  }

  function AllGiven(ps: seq<Proc>, p: nat, i: nat): (r: seq<Proc>)
    ensures |r| == |ps| && forall q | 0 <= q < |ps| :: r[q] == Given(ps[q], q, p, i, HasChild(ps, p, i))
  {
    seq(|ps|, q requires 0 <= q < |ps| => Given(ps[q], q, p, i, HasChild(ps, p, i)))
  }

  lemma NoneGiven(ps: seq<Proc>, p: nat)
    ensures AllGiven(ps, p, |ps|) == ps
  {
    SameProcs(AllGiven(ps, p, |ps|), ps);
  }

  /** A slot that is no child of p is passed by. */
  lemma GivenPast(ps: seq<Proc>, p: nat, i: nat, r: Proc, x: Proc)
    requires p < |ps| && i < |ps| && ps[i].parent != Some(p) && r.parent == ps[p].parent
    ensures AllGiven(ps[p := r], p, i + 1)[p := x] == AllGiven(ps, p, i)[p := x]
  {
    var qs := ps[p := r];
    assert forall q | 0 <= q < |ps| :: qs[q].parent == ps[q].parent;
    assert HasChild(qs, p, i + 1) == HasChild(ps, p, i);
    SameProcs(AllGiven(qs, p, i + 1)[p := x], AllGiven(ps, p, i)[p := x]);
  }

  /** A child is given to init, and init is woken. */
  lemma GivenOne(ps: seq<Proc>, p: nat, i: nat, r: Proc, r': Proc, x: Proc)
    requires p < |ps| && i < |ps| && i != p && p != INIT && ps[i].parent == Some(p)
    requires r.parent == r'.parent == ps[p].parent && r.parent != Some(p)
    ensures var qs := AllRoused(ps[i := ps[i].(parent := Some(INIT))][p := r], p, OnProc(INIT), 0)[p := r'];
            AllGiven(qs, p, i + 1)[p := x] == AllGiven(ps, p, i)[p := x]
  {
    var qs := AllRoused(ps[i := ps[i].(parent := Some(INIT))][p := r], p, OnProc(INIT), 0)[p := r'];
    assert HasChild(ps, p, i);
    forall q | 0 <= q < |ps| && q != p ensures AllGiven(qs, p, i + 1)[q] == AllGiven(ps, p, i)[q] {
      GivenSlot(ps[q], qs[q], q, p, i, HasChild(qs, p, i + 1));
    }
    SameProcs(AllGiven(qs, p, i + 1)[p := x], AllGiven(ps, p, i)[p := x]);
  }

  lemma GivenSlot(r: Proc, r': Proc, q: nat, p: nat, i: nat, any: bool)
    requires q != p && p != INIT && (q == i ==> r.parent == Some(p))
    requires r' == Roused(if q == i then r.(parent := Some(INIT)) else r, q, p, OnProc(INIT), 0)
    ensures Given(r', q, p, i + 1, any) == Given(r, q, p, i, true)
  {
  }

  /** The loop of reparent, from slot i on. */
  lemma {:induction false} ChildrenGiven(s: Sys, p: nat, i: nat)
    requires p < |s.procs| && i <= |s.procs| && s.procs[p].pc == Reparent(i) && Unhindered(s.procs, p) && p != INIT
    requires s.procs[p].parent != Some(p)
    ensures Leads(s, p, Sys(AllGiven(s.procs, p, i)[p := s.procs[p].(pc := ExitWake(0))], s.wait, s.data))
    decreases |s.procs| - i
  {
    hide Leads, ThreadStep, AllGiven, AllRoused;
    ExitIs(s, p);
    var x := s.procs[p].(pc := ExitWake(0));
    var u := Sys(AllGiven(s.procs, p, i)[p := x], s.wait, s.data);
    if i == |s.procs| {
      NoneGiven(s.procs, p);
      OneStep(s, p, u);
    } else if s.procs[i].parent != Some(p) {
      var r := s.procs[p].(pc := Reparent(i + 1));
      var t := Sys(s.procs[p := r], s.wait, s.data);
      GivenPast(s.procs, p, i, r, x);
      ChildrenGiven(t, p, i + 1);
      StepOn(s, p, t, u);
    } else {
      ChildGiven(s, p, i);
    }
  }

  lemma ChildGiven(s: Sys, p: nat, i: nat)
    requires p < |s.procs| && i < |s.procs| && s.procs[p].pc == Reparent(i) && Unhindered(s.procs, p) && p != INIT
    requires s.procs[p].parent != Some(p) && s.procs[i].parent == Some(p)
    ensures Leads(s, p, Sys(AllGiven(s.procs, p, i)[p := s.procs[p].(pc := ExitWake(0))], s.wait, s.data))
    decreases |s.procs| - i, 0
  {
    hide Leads, ThreadStep, AllGiven, AllRoused;
    ExitIs(s, p);
    var x, r, r' := s.procs[p].(pc := ExitWake(0)), s.procs[p].(pc := ReparentWake(i, 0)),
        s.procs[p].(pc := Reparent(i + 1));
    var u := Sys(AllGiven(s.procs, p, i)[p := x], s.wait, s.data);
    var t := Sys(s.procs[i := s.procs[i].(parent := Some(INIT))][p := r], s.wait, s.data);
    var v := Sys(AllRoused(t.procs, p, OnProc(INIT), 0)[p := r'], s.wait, s.data);
    OneStep(s, p, t);
    InitRoused(t, p, i, 0);
    LeadsOn(s, p, t, v);
    GivenOne(s.procs, p, i, r, r', x);
    ChildrenGiven(v, p, i + 1);
    LeadsOn(s, p, v, u);
  }

  /** Slot q when p has exited. */
  function Bereaved(s: Sys, p: nat, q: nat): Proc
    requires p < |s.procs| && q < |s.procs| && s.procs[p].parent.Some?
  {
    var r := s.procs[q];
    if q == p then Proc(Zombie, r.parent, r.chan, BySched, Dead)
    else
      var woken := r.chan == OnProc(s.procs[p].parent.value) || (r.chan == OnProc(INIT) && HasChild(s.procs, p, 0));
      r.(parent := if r.parent == Some(p) then Some(INIT) else r.parent,
         state := if r.state.Sleeping? && woken then Runnable else r.state)
  }

  function Exited(s: Sys, p: nat): (t: Sys)
    requires p < |s.procs| && s.procs[p].parent.Some?
  {
    Sys(seq(|s.procs|, q requires 0 <= q < |s.procs| => Bereaved(s, p, q)), None,
        s.data.(status := s.data.status[p := Arg(s, p)]))
  }

  /** exit, undisturbed: p becomes a ZOMBIE with its status and is off its stack; its children belong to
      init; init if it got one, and the parent of p, no longer sleep in wait; nothing else has changed. */
  lemma ExitLeaves(s: Sys, p: nat)
    requires p < |s.procs| && s.procs[p].pc.ExitLock? && s.wait == None && p != INIT
    requires s.procs[p].lock == Open && Unhindered(s.procs, p)
    requires s.procs[p].parent.Some? && s.procs[p].parent != Some(p)
    ensures Leads(s, p, Exited(s, p))
  {
    hide Leads, ThreadStep, AllGiven, AllRoused, HasChild;
    ExitIs(s, p);
    var r := s.procs[p];
    var t := Sys(s.procs[p := r.(pc := Reparent(0))], Some(p), s.data);
    OneStep(s, p, t);
    ChildrenGiven(t, p, 0);
    var g := AllGiven(t.procs, p, 0)[p := r.(pc := ExitWake(0))];
    var u := Sys(g, Some(p), s.data);
    LeadsOn(s, p, t, u);
    GivenOpen(t.procs, p, r.(pc := ExitWake(0)));
    ParentRoused(u, p, 0);
    var v := Sys(AllRoused(g, p, OnProc(r.parent.value), 0)[p := r.(pc := ExitSelf)], Some(p), s.data);
    LeadsOn(s, p, u, v);
    BereavedAll(s, p, g, v);
    ExitEnds(s, p, v);
    LeadsOn(s, p, v, Exited(s, p));
  }

  lemma GivenOpen(ps: seq<Proc>, p: nat, x: Proc)
    requires Unhindered(ps, p) && p < |ps|
    ensures Unhindered(AllGiven(ps, p, 0)[p := x], p)
  {
  }

  lemma BereavedAll(s: Sys, p: nat, g: seq<Proc>, v: Sys)
    requires p < |s.procs| && p != INIT && s.procs[p].parent.Some? && s.procs[p].parent != Some(p)
    requires var r := s.procs[p];
             && g == AllGiven(s.procs[p := r.(pc := Reparent(0))], p, 0)[p := r.(pc := ExitWake(0))]
             && v.procs == AllRoused(g, p, OnProc(r.parent.value), 0)[p := r.(pc := ExitSelf)]
    ensures |v.procs| == |s.procs| && forall q | 0 <= q < |s.procs| && q != p :: v.procs[q] == Bereaved(s, p, q)
  {
    hide HasChild;
    SameChildren(s.procs, p, s.procs[p].(pc := Reparent(0)));
  }

  lemma SameChildren(ps: seq<Proc>, p: nat, r: Proc)
    requires p < |ps| && r.parent == ps[p].parent
    ensures HasChild(ps[p := r], p, 0) == HasChild(ps, p, 0)
  {
    assert forall q | 0 <= q < |ps| :: ps[p := r][q].parent == ps[q].parent;
  }

  lemma ExitEnds(s: Sys, p: nat, v: Sys)
    requires p < |s.procs| == |v.procs| && s.procs[p].parent.Some? && s.procs[p].lock == Open
    requires v.procs[p] == s.procs[p].(pc := ExitSelf) && v.wait == Some(p) && v.data == s.data
    requires forall q | 0 <= q < |s.procs| && q != p :: v.procs[q] == Bereaved(s, p, q)
    ensures Leads(v, p, Exited(s, p))
  {
    hide Leads, ThreadStep;
    var r, w := s.procs[p], Exited(s, p);
    var v1 := Sys(v.procs[p := r.(lock := By(p), pc := ExitZombie)], Some(p), s.data);
    var v2 := Sys(v.procs[p := r.(lock := By(p), state := Zombie, pc := ExitRelease)], Some(p), w.data);
    var v3 := Sys(v.procs[p := r.(lock := By(p), state := Zombie, pc := ExitSched)], None, w.data);
    Twice(v.procs, p);
    ExitIs(v, p); ExitIs(v1, p); ExitIs(v2, p); ExitIs(v3, p);
    SameProcs(v.procs[p := r.(lock := BySched, state := Zombie, pc := Dead)], w.procs);
    OneStep(v3, p, w);
    StepOn(v2, p, v3, w);
    StepOn(v1, p, v2, w);
    StepOn(v, p, v1, w);
  }

  // ----- the way in, and off the processor and back

  /** What each call starts with; init does not exit. */
  lemma CallStarts(s: Sys, p: nat, status: int, pid: nat)
    requires p < |s.procs| && s.procs[p].pc.Run?
    ensures Act(s, Thread(p, Fork)) == s.(procs := s.procs[p := s.procs[p].(pc := ForkFind(0))])
    ensures Act(s, Thread(p, Wait)) == s.(procs := s.procs[p := s.procs[p].(pc := WaitLock)])
    ensures Act(s, Thread(p, KillPid(pid))) == s.(procs := s.procs[p := s.procs[p].(pc := Kill(0, pid))])
    ensures var t := Act(s, Thread(p, Exit(status)));
            if p == INIT then t == s
            else t == Sys(s.procs[p := s.procs[p].(pc := ExitLock)], s.wait, s.data.(arg := s.data.arg[p := status]))
  {
  }

  lemma OneAct(s: Sys, acts: seq<Action>, a: Action, t: Sys, u: Sys)
    requires Trace(s, acts) == t && Act(t, a) == u
    ensures Trace(s, acts + [a]) == u
  {
    hide Act;
    assert (acts + [a])[..|acts + [a]| - 1] == acts;
  }

  /** The steps in which p leaves the processor and gets it back, with those of others in between. */
  function OffAndOn(p: nat, first: Choice, between: seq<Action>): seq<Action> {
    [Thread(p, first), Thread(p, Done), Thread(p, Done), Thread(p, Done), Switched(p)] + between
    + [Resume(p), Thread(p, Done)]
  }

  /** A thread that yields at a place without a lock, and is resumed, is where it was. */
  lemma YieldReturns(s: Sys, p: nat)
    requires p < |s.procs| && PointOf(s.procs[p].pc).Some? && s.procs[p].lock == Open && s.procs[p].state.Running?
    ensures Trace(s, OffAndOn(p, Yield, [])) == s.(procs := s.procs[p := s.procs[p].(chan := NoChan)])
  {
    hide Trace, Act;
    var r, at := s.procs[p], PointOf(s.procs[p].pc).value;
    Parks(s, p, Yield, None, at);
    var t := s.(procs := s.procs[p := r.(state := Runnable, pc := Parked(at))]);
    var l := [Thread(p, Yield), Thread(p, Done), Thread(p, Done), Thread(p, Done), Switched(p)];
    Returns(s, p, l, t, at);
    assert OffAndOn(p, Yield, []) == l + [Resume(p)] + [Thread(p, Done)];
  }

  /** A thread that sleeps on a channel comes back once that channel is woken, and not before. */
  lemma SleepReturns(s: Sys, p: nat, c: nat, d: nat)
    requires p < |s.procs| && s.procs[p].pc.Run? && s.procs[p].lock == Open && s.procs[p].state.Running?
    ensures Trace(s, OffAndOn(p, SleepOn(c), [WakeOther(p, c)]))
              == s.(procs := s.procs[p := s.procs[p].(chan := NoChan)])
    ensures d != c ==>
              Trace(s, OffAndOn(p, SleepOn(c), [WakeOther(p, d)])) ==
              s.(procs := s.procs[p := Proc(Sleeping, s.procs[p].parent, Other(c), Open, Parked(AtRun))])
  {
    hide Trace, Act;
    var r := s.procs[p];
    Parks(s, p, SleepOn(c), Some(c), AtRun);
    var t := s.(procs := s.procs[p := Proc(Sleeping, r.parent, Other(c), Open, Parked(AtRun))]);
    var u := s.(procs := s.procs[p := Proc(Runnable, r.parent, Other(c), Open, Parked(AtRun))]);
    var l := [Thread(p, SleepOn(c)), Thread(p, Done), Thread(p, Done), Thread(p, Done), Switched(p)];
    Twice(s.procs, p);
    WakeActs(t, p, c);
    OneAct(s, l, WakeOther(p, c), t, u);
    Returns(s, p, l + [WakeOther(p, c)], u, AtRun);
    assert OffAndOn(p, SleepOn(c), [WakeOther(p, c)]) == l + [WakeOther(p, c)] + [Resume(p)] + [Thread(p, Done)];
    if d != c {
      WakeActs(t, p, d);
      ResumeActs(t, p);
      NothingParked(t, p);
      OneAct(s, l, WakeOther(p, d), t, t);
      OneAct(s, l + [WakeOther(p, d)], Resume(p), t, t);
      OneAct(s, l + [WakeOther(p, d)] + [Resume(p)], Thread(p, Done), t, t);
      assert OffAndOn(p, SleepOn(c), [WakeOther(p, d)]) == l + [WakeOther(p, d)] + [Resume(p)] + [Thread(p, Done)];
    }
  }

  /** From the first step of yield or sleep to the scheduler's release of the lock. */
  lemma Parks(s: Sys, p: nat, ch: Choice, c: Option<nat>, at: Point)
    requires p < |s.procs| && s.procs[p].lock == Open && s.procs[p].state.Running?
    requires (ch == Yield && PointOf(s.procs[p].pc) == Some(at) && c == None)
               || (c.Some? && ch == SleepOn(c.value) && at == AtRun && s.procs[p].pc.Run?)
    ensures var r := s.procs[p];
            Trace(s, [Thread(p, ch), Thread(p, Done), Thread(p, Done), Thread(p, Done), Switched(p)]) ==
            With(s, p, if c == None then r.(state := Runnable, pc := Parked(at))
                       else Proc(Sleeping, r.parent, Other(c.value), Open, Parked(at)))
  {
    hide Trace, Act, ThreadStep;
    var r := s.procs[p];
    var q := if c == None then r.(state := Runnable, lock := By(p), pc := ParkSched(at))
             else Proc(Sleeping, r.parent, Other(c.value), By(p), ParkSched(at));
    var r0, r1 := r.(pc := Park(c, at)), r.(lock := By(p), pc := ParkHeld(c, at));
    var q' := q.(lock := BySched, pc := Parked(at));
    ParkOne(s, p, r0, r1);
    ParkOne(s, p, r1, q);
    ParkOne(s, p, q, q');
    SwitchOne(s, p, q');
    hide With, ParkRecord;
    NoActs(s);
    var d, l := Thread(p, Done), [] + [Thread(p, ch)];
    StartsParking(s, p, ch, c, at);
    OneAct(s, [], Thread(p, ch), s, With(s, p, r0));
    OneAct(s, l, d, With(s, p, r0), With(s, p, r1));
    OneAct(s, l + [d], d, With(s, p, r1), With(s, p, q));
    OneAct(s, l + [d] + [d], d, With(s, p, q), With(s, p, q'));
    OneAct(s, l + [d] + [d] + [d], Switched(p), With(s, p, q'), With(s, p, q'.(lock := Open)));
    assert l + [d] + [d] + [d] + [Switched(p)] == [Thread(p, ch), d, d, d, Switched(p)];
  }

  function With(s: Sys, p: nat, r: Proc): Sys
    requires p < |s.procs|
  {
    s.(procs := s.procs[p := r])
  }

  lemma ParkOne(s: Sys, p: nat, r: Proc, r': Proc)
    requires p < |s.procs| && (Paused(r.pc) || r.pc.Started?) && ParkRecord(r, p) == Some(r')
    ensures Act(With(s, p, r), Thread(p, Done)) == With(s, p, r')
  {
    hide ParkRecord, ThreadStep, Act;
    Twice(s.procs, p);
    ParkActs(With(s, p, r), p, With(s, p, r'));
  }

  lemma SwitchOne(s: Sys, p: nat, r: Proc)
    requires p < |s.procs| && r.lock.BySched?
    ensures Act(With(s, p, r), Switched(p)) == With(s, p, r.(lock := Open))
  {
    hide Act;
    SwitchedActs(With(s, p, r), p);
    Twice(s.procs, p);
  }

  lemma ParkActs(s: Sys, p: nat, t: Sys)
    requires p < |s.procs| && (Paused(s.procs[p].pc) || s.procs[p].pc.Started?) && ParkStep(s, p) == Some(t)
    ensures Act(s, Thread(p, Done)) == t
  {
    hide ParkStep, ThreadStep;
    ParkIs(s, p);
    ThreadActs(s, p, t);
  }

  lemma SwitchedActs(s: Sys, p: nat)
    requires p < |s.procs| && s.procs[p].lock.BySched?
    ensures Act(s, Switched(p)) == s.(procs := s.procs[p := s.procs[p].(lock := Open)])
  {
  }

  lemma ResumeActs(s: Sys, p: nat)
    requires p < |s.procs| && s.procs[p].lock == Open && s.procs[p].pc.Parked?
    ensures var r := s.procs[p];
            Act(s, Resume(p)) ==
            if !r.state.Runnable? then s
            else s.(procs := s.procs[p := r.(state := Running, lock := By(p), pc := ParkWoken(r.pc.at))])
  {
  }

  lemma WakeActs(s: Sys, p: nat, c: nat)
    requires p < |s.procs| && s.procs[p].lock == Open && s.procs[p].state.Sleeping?
    ensures var r := s.procs[p];
            Act(s, WakeOther(p, c)) ==
            if r.chan != Other(c) then s else s.(procs := s.procs[p := r.(state := Runnable)])
  {
  }

  lemma NothingParked(s: Sys, p: nat)
    requires p < |s.procs| && s.procs[p].pc.Parked?
    ensures Act(s, Thread(p, Done)) == s
  {
  }

  lemma NoActs(s: Sys)
    ensures Trace(s, []) == s
  {
  }

  lemma StartsParking(s: Sys, p: nat, ch: Choice, c: Option<nat>, at: Point)
    requires p < |s.procs|
    requires (ch == Yield && PointOf(s.procs[p].pc) == Some(at) && c == None)
               || (c.Some? && ch == SleepOn(c.value) && at == AtRun && s.procs[p].pc.Run?)
    ensures Act(s, Thread(p, ch)) == With(s, p, s.procs[p].(pc := Park(c, at)))
  {
  }

  /** From a parked RUNNABLE process to its old place. */
  lemma Returns(s: Sys, p: nat, acts: seq<Action>, t: Sys, at: Point)
    requires p < |s.procs| && Trace(s, acts) == t && s.procs[p].pc == Back(at) && s.procs[p].state.Running?
    requires |t.procs| == |s.procs| && s.procs[p].lock == Open
    requires t == s.(procs := s.procs[p := s.procs[p].(state := Runnable, chan := t.procs[p].chan, pc := Parked(at))])
    ensures Trace(s, acts + [Resume(p)] + [Thread(p, Done)]) == s.(procs := s.procs[p := s.procs[p].(chan := NoChan)])
  {
    hide Trace, Act;
    var r := s.procs[p];
    var u := s.(procs := s.procs[p := r.(chan := t.procs[p].chan, lock := By(p), pc := ParkWoken(at))]);
    var v := s.(procs := s.procs[p := r.(chan := NoChan)]);
    Twice(s.procs, p);
    ResumeActs(t, p);
    OneAct(s, acts, Resume(p), t, u);
    ParkActs(u, p, v);
    OneAct(s, acts + [Resume(p)], Thread(p, Done), u, v);
  }
}
