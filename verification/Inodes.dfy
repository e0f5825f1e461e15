/** The table of in-memory inodes: references, locks, and the freeing of an inode in iput, whose
    steps other processes interleave with. */
module Inodes {
  import opened Options

  const NINODE: nat := 50

  datatype Key = Key(dev: nat, inum: nat)

  /** An inode on disk, and its copy in the table; type 0 means free. */
  datatype Dinode = Dinode(kind: nat, nlink: nat, size: nat, addrs: seq<nat>)

  /** How far a process t is in freeing the inode of an entry inside iput. */
  datatype Phase =
    | Calm
    | Trunc(t: nat)     // lock taken, about to call itrunc
    | Clear(t: nat)     // about to set the type to 0 on disk
    | Forget(t: nat)    // about to clear valid
    | Unlock(t: nat)    // about to release the lock
    | Drop(t: nat)      // about to drop the reference

  datatype Entry = Entry(key: Key, refs: nat, valid: bool, lock: Option<nat>, d: Dinode, phase: Phase)

  type Disk = map<Key, Dinode>
  type Holders = multiset<nat>

  predicate Allocated(disk: Disk, k: Key) {
    k in disk && disk[k].kind != 0
  }

  /** The thread that frees has passed the point where the inode is free on disk. */
  predicate Past(p: Phase) {
    p.Forget? || p.Unlock? || p.Drop?
  }

  /** The holders that count on the inode. */
  function Live(e: Entry, hs: Holders): Holders {
    if Past(e.phase) then hs - multiset{e.phase.t} else hs
  }

  /** marked are the inodes that ialloc has marked but not looked up yet. */
  ghost predicate EntryOk(e: Entry, hs: Holders, disk: Disk, marked: set<Key>) {
    && e.refs == |hs|
    && (e.lock.Some? ==> e.lock.value in hs)
    && (!e.phase.Calm? ==> e.phase.t in hs)
    && (e.phase.Trunc? || e.phase.Clear? || e.phase.Forget? || e.phase.Unlock? ==> e.lock == Some(e.phase.t))
    && (e.phase.Trunc? || e.phase.Clear? ==> hs == multiset{e.phase.t} && e.valid && e.d.nlink == 0)
    && (e.phase.Forget? ==> e.valid && e.d.kind == 0) && (e.phase.Unlock? ==> !e.valid)
    && (e.phase.Drop? ==> e.lock != Some(e.phase.t))
    && (Live(e, hs) != multiset{} ==> Allocated(disk, e.key) && e.key !in marked)
    && (e.refs > 0 && e.valid && !e.phase.Forget? ==> Allocated(disk, e.key) && e.d == disk[e.key] && e.key !in marked)
  }

  /** At most one entry in use for each inode. */
  ghost predicate Unique(table: seq<Entry>) {
    forall i, j | 0 <= i < |table| && 0 <= j < |table| && table[i].refs > 0 && table[j].refs > 0
        && table[i].key == table[j].key :: i == j
  }

  ghost predicate TableOk(table: seq<Entry>, holders: seq<Holders>, disk: Disk, marked: set<Key>) {
    && |holders| == |table| && Unique(table) && (forall k | k in marked :: Allocated(disk, k))
    && forall i | 0 <= i < |table| :: EntryOk(table[i], holders[i], disk, marked)
  }

  /** One entry changes, the disk does not. */
  lemma OneEntry(table: seq<Entry>, holders: seq<Holders>, disk: Disk, marked: set<Key>, i: nat, e: Entry, hs: Holders)
    requires TableOk(table, holders, disk, marked) && i < |table| && EntryOk(e, hs, disk, marked)
    requires e.refs > 0 ==> forall j | 0 <= j < |table| && j != i && table[j].refs > 0 :: table[j].key != e.key
    ensures TableOk(table[i := e], holders[i := hs], disk, marked)
  {
    hide EntryOk;
  }

  /** An entry in use keeps its key: the others still differ. */
  lemma SameKey(table: seq<Entry>, holders: seq<Holders>, disk: Disk, marked: set<Key>, i: nat)
    requires TableOk(table, holders, disk, marked) && i < |table| && table[i].refs > 0
    ensures forall j | 0 <= j < |table| && j != i && table[j].refs > 0 :: table[j].key != table[i].key
    ensures EntryOk(table[i], holders[i], disk, marked)
  {
    hide EntryOk;
  }

  /** The disk changes at one key. */
  lemma DiskChanged(table: seq<Entry>, holders: seq<Holders>, disk: Disk, marked: set<Key>, k: Key, d: Dinode,
                    marked': set<Key>)
    requires TableOk(table, holders, disk, marked)
    requires (forall j | j != k :: j in marked' <==> j in marked) && (k in marked' ==> d.kind != 0)
    requires forall i | 0 <= i < |table| && table[i].refs > 0 && table[i].key == k ::
               EntryOk(table[i], holders[i], disk[k := d], marked')
    ensures TableOk(table, holders, disk[k := d], marked')
  {
    forall i | 0 <= i < |table| ensures EntryOk(table[i], holders[i], disk[k := d], marked') {
      assert EntryOk(table[i], holders[i], disk, marked);
      if table[i].refs == 0 { NoHolders(table[i], holders[i]); }
    }
  }

  lemma NoHolders(e: Entry, hs: Holders)
    requires |hs| == 0
    ensures hs == multiset{} && Live(e, hs) == multiset{}
  {
  }

  lemma LessFresh(table: seq<Entry>, holders: seq<Holders>, disk: Disk, marked: set<Key>, k: Key)
    requires TableOk(table, holders, disk, marked)
    ensures TableOk(table, holders, disk, marked - {k})
  {
    forall i | 0 <= i < |table|
      ensures EntryOk(table[i], holders[i], disk, marked - {k})
    {
      assert EntryOk(table[i], holders[i], disk, marked);
    }
  }

  /** t has a reference, and is not inside iput with this entry. */
  predicate MayUse(e: Entry, hs: Holders, t: nat) {
    t in Live(e, hs) && (e.phase.Calm? || e.phase.t != t)
  }

  const BLANK := Dinode(0, 0, 0, [])

  class Itable {
    var table: seq<Entry>
    var disk: Disk
    var holders: seq<Holders>        // which threads have references
    var marked: set<Key>             // by ialloc, and not looked up yet

    ghost predicate Valid()
      reads this
    {
      TableOk(table, holders, disk, marked)
    }

    constructor (disk: Disk)
      ensures Valid() && this.disk == disk && |table| == NINODE && forall i | 0 <= i < NINODE :: table[i].refs == 0
    {
      this.disk := disk;
      table := seq(NINODE, _ => Entry(Key(0, 0), 0, false, None, BLANK, Calm));
      holders := seq(NINODE, _ => multiset{});
      marked := {};
    }

    ghost function Now(): Shot
      reads this
    {
      Shot(table, holders, disk, marked)
    }

    /** iget: the entry of inode k, with one more reference; None is the panic for want of an entry. */
    method Iget(t: nat, k: Key) returns (r: Option<nat>)
      requires Valid() && (Reachable(disk, marked, k) || (Allocated(disk, k) && NotInUse(table, k)))
      modifies `table, `holders, `marked
      ensures Valid() && |table| == |old(table)|
      ensures r == None ==> unchanged(this) && forall i | 0 <= i < |table| :: table[i].refs > 0 && table[i].key != k
      ensures r.Some? ==>
                && r.value < |table| && |holders| == |table| == |old(holders)|
                && holders == old(holders)[r.value := old(holders)[r.value] + multiset{t}]
                && Got(old(table), table, r.value, k) && marked == old(marked) - {k}
    {
      hide EntryOk, Unique, Live;
      LessFresh(table, holders, disk, marked, k);
      var empty: Option<nat> := None;
      var i := 0;
      while i < |table|
        invariant 0 <= i <= |table| && unchanged(this)
        invariant forall j | 0 <= j < i :: table[j].refs == 0 || table[j].key != k
        invariant if empty == None then forall j | 0 <= j < i :: table[j].refs > 0
                  else empty.value < i && table[empty.value].refs == 0
      {
        var e := table[i];
        if e.refs > 0 && e.key == k {
          SameKey(table, holders, disk, marked, i);
          Referenced(e, holders[i], disk, marked, t);
          OneEntry(table, holders, disk, marked - {k}, i, e.(refs := e.refs + 1), holders[i] + multiset{t});
          table := table[i := e.(refs := e.refs + 1)];
          holders := holders[i := holders[i] + multiset{t}];
          marked := marked - {k};
          return Some(i);
        }
        if empty == None && e.refs == 0 { empty := Some(i); }
        i := i + 1;
      }
      if empty == None {
        return None;
      }
      var m := empty.value;
      var e := table[m].(key := k, refs := 1, valid := false);
      Recycled(table[m], holders[m], disk, marked, k, t);
      OneEntry(table, holders, disk, marked - {k}, m, e, holders[m] + multiset{t});
      table := table[m := e];
      holders := holders[m := holders[m] + multiset{t}];
      marked := marked - {k};
      return Some(m);
    }

    /** idup */
    method Idup(t: nat, i: nat)
      requires Valid() && i < |table| == |holders| && MayUse(table[i], holders[i], t)
      modifies `table, `holders
      ensures Valid() && table == old(table)[i := old(table)[i].(refs := old(table)[i].refs + 1)]
      ensures holders == old(holders)[i := old(holders)[i] + multiset{t}]
    {
      hide EntryOk, Unique;
      InUse(table, holders, disk, marked, i, t);
      SameKey(table, holders, disk, marked, i);
      Duplicated(table[i], holders[i], disk, marked, t);
      OneEntry(table, holders, disk, marked, i, table[i].(refs := table[i].refs + 1), holders[i] + multiset{t});
      table := table[i := table[i].(refs := table[i].refs + 1)];
      holders := holders[i := holders[i] + multiset{t}];
    }

    /** ilock takes the sleep lock, which must be free. */
    method Ilock(t: nat, i: nat)
      requires Valid() && i < |table| == |holders| && MayUse(table[i], holders[i], t) && table[i].lock == None
      modifies `table
      ensures Valid() && table == old(table)[i := old(table)[i].(lock := Some(t))]
    {
      hide EntryOk, Unique;
      InUse(table, holders, disk, marked, i, t);
      SameKey(table, holders, disk, marked, i);
      Locked(table[i], holders[i], disk, marked, t);
      OneEntry(table, holders, disk, marked, i, table[i].(lock := Some(t)), holders[i]);
      assert holders[i := holders[i]] == holders;
      table := table[i := table[i].(lock := Some(t))];
    }

    /** ... and reads the inode if it is not valid. What it reads is what is on disk, and never a
        free inode: that panic cannot happen. */
    method Iload(t: nat, i: nat)
      requires Valid() && i < |table| == |holders| && MayUse(table[i], holders[i], t) && table[i].lock == Some(t)
      modifies `table
      ensures Valid() && i < |table| && table[i].key in disk
      ensures table == old(table)[i := old(table)[i].(valid := true, d := disk[table[i].key])] && table[i].d.kind != 0
    {
      hide EntryOk, Unique;
      InUse(table, holders, disk, marked, i, t);
      SameKey(table, holders, disk, marked, i);
      Loaded(table[i], holders[i], disk, marked, t);
      if !table[i].valid {
        var e := table[i].(valid := true, d := disk[table[i].key]);
        OneEntry(table, holders, disk, marked, i, e, holders[i]);
        assert holders[i := holders[i]] == holders;
        table := table[i := e];
      }
    }

    /** A change to a locked inode, followed by iupdate. */
    method Modify(t: nat, i: nat, d: Dinode)
      requires Valid() && i < |table| == |holders| && MayUse(table[i], holders[i], t) && table[i].lock == Some(t)
      requires table[i].valid && d.kind != 0
      modifies `table, `disk
      ensures Valid() && table == old(table)[i := old(table)[i].(d := d)] && disk == old(disk)[old(table)[i].key := d]
    {
      hide EntryOk, Unique;
      InUse(table, holders, disk, marked, i, t);
      SameKey(table, holders, disk, marked, i);
      Modified(table[i], holders[i], disk, marked, t, d);
      EntryAndDisk(table, holders, disk, marked, i, table[i].(d := d), d);
      disk := disk[table[i].key := d];
      table := table[i := table[i].(d := d)];
    }

    method Iunlock(t: nat, i: nat)
      requires Valid() && i < |table| == |holders| && MayUse(table[i], holders[i], t) && table[i].lock == Some(t)
      modifies `table
      ensures Valid() && table == old(table)[i := old(table)[i].(lock := None)]
    {
      hide EntryOk, Unique;
      InUse(table, holders, disk, marked, i, t);
      SameKey(table, holders, disk, marked, i);
      Unlocked(table[i], holders[i], disk, marked, t);
      OneEntry(table, holders, disk, marked, i, table[i].(lock := None), holders[i]);
      assert holders[i := holders[i]] == holders;
      table := table[i := table[i].(lock := None)];
    }

    /** The first critical section of iput. With one reference, no links and a valid inode the lock is
        free, and t goes on to free the inode; otherwise the reference is dropped. */
    method IputStart(t: nat, i: nat) returns (freeing: bool)
      requires Valid() && i < |table| == |holders| && MayUse(table[i], holders[i], t) && table[i].lock != Some(t)
      modifies `table, `holders
      ensures Valid() && |holders| == |old(holders)|
      ensures var e := old(table)[i];
              && freeing == (e.refs == 1 && e.valid && e.d.nlink == 0)
              && (freeing ==>
                   && e.lock == None && table == old(table)[i := e.(lock := Some(t), phase := Trunc(t))]
                   && holders == old(holders))
              && (!freeing ==>
                   && e.refs > 0 && table == old(table)[i := e.(refs := e.refs - 1)]
                   && holders == old(holders)[i := old(holders)[i] - multiset{t}])
    {
      hide EntryOk, Unique;
      InUse(table, holders, disk, marked, i, t);
      SameKey(table, holders, disk, marked, i);
      var e := table[i];
      Putting(e, holders[i], disk, marked, t);
      freeing := e.refs == 1 && e.valid && e.d.nlink == 0;
      if freeing {
        OneEntry(table, holders, disk, marked, i, e.(lock := Some(t), phase := Trunc(t)), holders[i]);
        assert holders[i := holders[i]] == holders;
        table := table[i := e.(lock := Some(t), phase := Trunc(t))];
      } else {
        OneEntry(table, holders, disk, marked, i, e.(refs := e.refs - 1), holders[i] - multiset{t});
        table := table[i := e.(refs := e.refs - 1)];
        holders := holders[i := holders[i] - multiset{t}];
      }
    }

    /** itrunc inside iput. */
    method IputTrunc(i: nat)
      requires Valid() && i < |table| && table[i].phase.Trunc?
      modifies `table, `disk
      ensures Valid() && i < |old(table)| && old(table)[i].phase.Trunc? && old(table)[i].d.kind != 0
      ensures var e := old(table)[i]; var d := e.d.(size := 0, addrs := []);
              table == old(table)[i := e.(d := d, phase := Clear(e.phase.t))] && disk == old(disk)[e.key := d]
    {
      hide EntryOk, Unique;
      Used(table, holders, disk, marked, i);
      SameKey(table, holders, disk, marked, i);
      var e := table[i];
      var d := e.d.(size := 0, addrs := []);
      Truncated(e, holders[i], disk, marked);
      EntryAndDisk(table, holders, disk, marked, i, e.(d := d, phase := Clear(e.phase.t)), d);
      disk := disk[e.key := d];
      table := table[i := e.(d := d, phase := Clear(e.phase.t))];
    }

    /** The inode becomes free on disk: by its only holder, and without links. */
    method IputClear(i: nat)
      requires Valid() && i < |table| && table[i].phase.Clear?
      modifies `table, `disk
      ensures Valid() && i < |old(table)| && old(table)[i].phase.Clear? && i < |holders|
      ensures holders[i] == multiset{old(table)[i].phase.t} && old(table)[i].key in old(disk)
      ensures old(disk)[old(table)[i].key].nlink == 0
      ensures var e := old(table)[i]; var d := e.d.(kind := 0);
              table == old(table)[i := e.(d := d, phase := Forget(e.phase.t))] && disk == old(disk)[e.key := d]
    {
      hide EntryOk, Unique;
      Used(table, holders, disk, marked, i);
      SameKey(table, holders, disk, marked, i);
      var e := table[i];
      var d := e.d.(kind := 0);
      Cleared(e, holders[i], disk, marked);
      EntryAndDisk(table, holders, disk, marked, i, e.(d := d, phase := Forget(e.phase.t)), d);
      disk := disk[e.key := d];
      table := table[i := e.(d := d, phase := Forget(e.phase.t))];
    }

    method IputForget(i: nat)
      requires Valid() && i < |table| && table[i].phase.Forget?
      modifies `table
      ensures Valid() && i < |old(table)| && old(table)[i].phase.Forget?
      ensures table == old(table)[i := old(table)[i].(valid := false, phase := Unlock(old(table)[i].phase.t))]
    {
      hide EntryOk, Unique;
      Used(table, holders, disk, marked, i);
      SameKey(table, holders, disk, marked, i);
      var e := table[i].(valid := false, phase := Unlock(table[i].phase.t));
      Forgotten(table[i], holders[i], disk, marked);
      OneEntry(table, holders, disk, marked, i, e, holders[i]);
      assert holders[i := holders[i]] == holders;
      table := table[i := e];
    }

    method IputUnlock(i: nat)
      requires Valid() && i < |table| && table[i].phase.Unlock?
      modifies `table
      ensures Valid() && i < |old(table)| && old(table)[i].phase.Unlock?
      ensures table == old(table)[i := old(table)[i].(lock := None, phase := Drop(old(table)[i].phase.t))]
    {
      hide EntryOk, Unique;
      Used(table, holders, disk, marked, i);
      SameKey(table, holders, disk, marked, i);
      var e := table[i].(lock := None, phase := Drop(table[i].phase.t));
      Forgotten(table[i], holders[i], disk, marked);
      OneEntry(table, holders, disk, marked, i, e, holders[i]);
      assert holders[i := holders[i]] == holders;
      table := table[i := e];
    }

    /** The last critical section of iput. */
    method IputDrop(i: nat)
      requires Valid() && i < |table| && table[i].phase.Drop?
      modifies `table, `holders
      ensures Valid() && i < |old(table)| == |old(holders)| && old(table)[i].phase.Drop? && old(table)[i].refs > 0
      ensures table == old(table)[i := old(table)[i].(refs := old(table)[i].refs - 1, phase := Calm)]
      ensures holders == old(holders)[i := old(holders)[i] - multiset{old(table)[i].phase.t}]
    {
      hide EntryOk, Unique;
      Used(table, holders, disk, marked, i);
      SameKey(table, holders, disk, marked, i);
      var e := table[i];
      Dropped(e, holders[i], disk, marked);
      OneEntry(table, holders, disk, marked, i, e.(refs := e.refs - 1, phase := Calm),
          holders[i] - multiset{e.phase.t});
      holders := holders[i := holders[i] - multiset{e.phase.t}];
      table := table[i := e.(refs := e.refs - 1, phase := Calm)];
    }

    /** ialloc up to iget: mark the first free inode of the device. Its table entry, if one is still
        in use, is being given up and holds nothing that could be taken for the new inode. */
    method Ialloc(dev: nat, ninodes: nat, kind: nat) returns (r: Option<Key>)
      requires Valid() && kind != 0 && forall n: nat | 1 <= n < ninodes :: Key(dev, n) in disk
      modifies `disk, `marked
      ensures Valid()
      ensures r == None ==> disk == old(disk) && marked == old(marked) && forall n: nat | 1 <= n < ninodes ::
                Allocated(disk, Key(dev, n))
      ensures r.Some? ==>
                && r.value.dev == dev && 1 <= r.value.inum < ninodes && !Allocated(old(disk), r.value)
                && (forall n: nat | 1 <= n < r.value.inum :: Allocated(old(disk), Key(dev, n)))
                && disk == old(disk)[r.value := Dinode(kind, 0, 0, [])] && marked == old(marked) + {r.value}
    {
      hide EntryOk, Unique;
      var inum := 1;
      while inum < ninodes
        invariant 1 <= inum && disk == old(disk) && marked == old(marked)
        invariant forall n: nat | 1 <= n < inum && n < ninodes :: Allocated(disk, Key(dev, n))
      {
        var k := Key(dev, inum);
        if disk[k].kind == 0 {
          var d := Dinode(kind, 0, 0, []);
          MarkOk(table, holders, disk, marked, k, d);
          disk := disk[k := d];
          marked := marked + {k};
          return Some(k);
        }
        inum := inum + 1;
      }
      return None;
    }

    /** The next step of the iput that is under way at entry i. */
    method Proceed(i: nat)
      requires Valid() && i < |table| && !table[i].phase.Calm?
      modifies this
      ensures Valid() && LastOut(old(table), old(holders), old(disk), disk) && WentOn(old(Now()), i, Now())
    {
      hide EntryOk, Unique;
      match table[i].phase
      case Trunc(_) => IputTrunc(i);
      case Clear(t) =>
        IputClear(i);
        OneIsLast(old(table), old(holders), old(disk), old(marked), i, t);
      case Forget(_) => IputForget(i);
      case Unlock(_) => IputUnlock(i);
      case Drop(_) => IputDrop(i);
    }

    /** A step that is not possible now is left out. */
    method Step(a: Act)
      requires Valid()
      modifies this
      ensures Valid() && LastOut(old(table), old(holders), old(disk), disk) && Did(old(Now()), a, Now())
    {
      hide EntryOk, Unique, OneHolder, DidGet, DidPut, WentOn, DidAlloc;
      match a
      case Get(t, k) => TryGet(t, k);
      case Dup(t, i) => if i < |table| && MayUse(table[i], holders[i], t) { Idup(t, i); }
      case Lock(t, i) => if i < |table| && MayUse(table[i], holders[i], t) && table[i].lock == None { Ilock(t, i); }
      case Load(t, i) => TryLoad(t, i);
      case Change(t, i, d) => TryChange(t, i, d);
      case Leave(t, i) =>
        if i < |table| && MayUse(table[i], holders[i], t) && table[i].lock == Some(t) {
          Iunlock(t, i);
        }
      case Put(t, i) => TryPut(t, i);
      case Go(i) => if i < |table| && !table[i].phase.Calm? { Proceed(i); }
      case Alloc(dev, ninodes, kind) => TryAlloc(dev, ninodes, kind);
    }

    method TryGet(t: nat, k: Key)
      requires Valid()
      modifies this
      ensures Valid() && disk == old(disk) && Did(old(Now()), Get(t, k), Now())
    {
      hide EntryOk, Unique;
      if Reachable(disk, marked, k) {
        var r := Iget(t, k);
      }
    }

    method TryLoad(t: nat, i: nat)
      requires Valid()
      modifies this
      ensures Valid() && disk == old(disk) && Did(old(Now()), Load(t, i), Now())
    {
      hide EntryOk, Unique;
      if i < |table| && MayUse(table[i], holders[i], t) && table[i].lock == Some(t) {
        Iload(t, i);
      }
    }

    method TryChange(t: nat, i: nat, d: Dinode)
      requires Valid()
      modifies this
      ensures Valid() && LastOut(old(table), old(holders), old(disk), disk) && Did(old(Now()), Change(t, i, d), Now())
    {
      hide EntryOk, Unique, OneHolder;
      if i < |table| && MayUse(table[i], holders[i], t) && table[i].lock == Some(t) && table[i].valid && d.kind != 0 {
        Modify(t, i, d);
      }
    }

    method TryPut(t: nat, i: nat)
      requires Valid()
      modifies this
      ensures Valid() && disk == old(disk) && Did(old(Now()), Put(t, i), Now())
    {
      hide EntryOk, Unique;
      if i < |table| && MayUse(table[i], holders[i], t) && table[i].lock != Some(t) {
        var freeing := IputStart(t, i);
      }
    }

    method TryAlloc(dev: nat, ninodes: nat, kind: nat)
      requires Valid()
      modifies this
      ensures Valid() && LastOut(old(table), old(holders), old(disk), disk)
      ensures Did(old(Now()), Alloc(dev, ninodes, kind), Now())
    {
      hide EntryOk, Unique, OneHolder;
      if kind != 0 && forall n: nat | 1 <= n < ninodes :: Key(dev, n) in disk {
        var r := Ialloc(dev, ninodes, kind);
      }
    }

    /** Any interleaving of the threads' steps, those inside iput included, keeps the table sound, and
        every step does what its thread asked for. */
    method Run(acts: seq<Act>) returns (ghost shots: seq<Shot>)
      requires Valid()
      modifies this
      ensures Valid() && Sound(table, holders, disk)
      ensures |shots| == |acts| + 1 && shots[0] == old(Now()) && shots[|acts|] == Now()
      ensures forall k | 0 <= k < |acts| ::
                && Did(shots[k], acts[k], shots[k + 1])
                && LastOut(shots[k].table, shots[k].holders, shots[k].disk, shots[k + 1].disk)
    {
      hide Did, LastOut;
      shots := [Now()];
      for k := 0 to |acts|
        invariant Valid() && |shots| == k + 1 && shots[0] == old(Now()) && shots[k] == Now()
        invariant forall i | 0 <= i < k ::
                    && Did(shots[i], acts[i], shots[i + 1])
                    && LastOut(shots[i].table, shots[i].holders, shots[i].disk, shots[i + 1].disk)
      {
        Step(acts[k]);
        shots := shots + [Now()];
      }
    }

    /** The rest of iput, when nobody comes in between. */
    method IputFree(i: nat)
      requires Valid() && i < |table| && table[i].phase.Trunc? && table[i].refs == 1
      modifies this
      ensures Valid() && |table| == |old(table)| && table[i].refs == 0
      ensures forall j | 0 <= j < |table| && j != i :: table[j] == old(table)[j]
      ensures disk == old(disk)[old(table)[i].key := old(table)[i].d.(kind := 0, size := 0, addrs := [])]
    {
      hide TableOk, EntryOk, Unique;
      IputTrunc(i);
      IputClear(i);
      IputForget(i);
      IputUnlock(i);
      IputDrop(i);
    }

    /** The body of ireclaim for an orphan: look it up, lock and unlock it, and put it back. */
    method Reclaim(t: nat, k: Key)
      requires Valid() && Idle(table) && |table| > 0 && Orphan(disk, k)
      modifies this
      ensures Valid() && Idle(table) && |table| == |old(table)| && disk == old(disk)[k := Freed(old(disk), k)]
    {
      hide TableOk, EntryOk, Unique;
      IdleUse(table, k);
      var r := Iget(t, k);
      assert r.Some? by { FirstIdle(old(table)); }
      var i := r.value;
      IdleHolders(old(table), old(holders), disk, old(marked));
      ghost var e := table[i];
      assert holders[i] == multiset{t};
      Ilock(t, i);
      Iload(t, i);
      Iunlock(t, i);
      var freeing := IputStart(t, i);
      IputFree(i);
    }

    /** ireclaim, at boot: no allocated inode without links is left, and nothing else changes. */
    method Ireclaim(dev: nat, ninodes: nat, t: nat)
      requires Valid() && Idle(table) && |table| > 0 && forall n: nat | 1 <= n < ninodes :: Key(dev, n) in disk
      modifies this
      ensures Valid() && Idle(table) && disk.Keys == old(disk.Keys)
      ensures forall n: nat | 1 <= n < ninodes :: !Orphan(disk, Key(dev, n))
      ensures forall k | k in disk :: disk[k] ==
                if k.dev == dev && 1 <= k.inum < ninodes && Orphan(old(disk), k) then Freed(old(disk), k)
                else old(disk)[k]
    {
      hide TableOk;
      var inum := 1;
      while inum < ninodes
        invariant 1 <= inum && Valid() && Idle(table) && |table| > 0 && disk.Keys == old(disk.Keys)
        invariant forall k | k in disk :: disk[k] ==
                    if k.dev == dev && 1 <= k.inum < inum && k.inum < ninodes
                        && Orphan(old(disk), k) then Freed(old(disk), k)
                    else old(disk)[k]
      {
        var k := Key(dev, inum);
        assert k in old(disk).Keys;
        if disk[k].kind != 0 && disk[k].nlink == 0 {
          Reclaim(t, k);
        }
        inum := inum + 1;
      }
    }
  }

  // ----- runs

  /** A step of a thread t, or the next step of the iput that is under way at entry i. */
  datatype Act =
    | Get(t: nat, k: Key)
    | Dup(t: nat, i: nat)
    | Lock(t: nat, i: nat)
    | Load(t: nat, i: nat)
    | Change(t: nat, i: nat, d: Dinode)
    | Leave(t: nat, i: nat)
    | Put(t: nat, i: nat)
    | Go(i: nat)
    | Alloc(dev: nat, ninodes: nat, kind: nat)

  /** The table, the references and the disk at one moment. */
  datatype Shot = Shot(table: seq<Entry>, holders: seq<Holders>, disk: Disk, marked: set<Key>)

  predicate Uses(s: Shot, t: nat, i: nat) {
    i < |s.table| == |s.holders| && MayUse(s.table[i], s.holders[i], t)
  }

  predicate Owns(s: Shot, t: nat, i: nat) {
    Uses(s, t, i) && s.table[i].lock == Some(t)
  }

  function Entered(s: Shot, i: nat, e: Entry): Shot
    requires i < |s.table|
  {
    s.(table := s.table[i := e])
  }

  /** What a step does; one that is not possible changes nothing. */
  ghost predicate Did(s: Shot, a: Act, s': Shot) {
    match a
    case Get(t, k) => if Reachable(s.disk, s.marked, k) then DidGet(s, t, k, s') else s' == s
    case Dup(t, i) =>
      if !Uses(s, t, i) then s' == s
      else
        s' == Entered(s, i, s.table[i].(refs := s.table[i].refs + 1))
              .(holders := s.holders[i := s.holders[i] + multiset{t}])
    case Lock(t, i) =>
      s' == if Uses(s, t, i) && s.table[i].lock == None then Entered(s, i, s.table[i].(lock := Some(t))) else s
    case Load(t, i) =>
      if !Owns(s, t, i) then s' == s
      else
        && s.table[i].key in s.disk && s.disk[s.table[i].key].kind != 0
        && s' == Entered(s, i, s.table[i].(valid := true, d := s.disk[s.table[i].key]))
    case Change(t, i, d) =>
      s' == if Owns(s, t, i) && s.table[i].valid && d.kind != 0
            then Entered(s, i, s.table[i].(d := d)).(disk := s.disk[s.table[i].key := d]) else s
    case Leave(t, i) => s' == if Owns(s, t, i) then Entered(s, i, s.table[i].(lock := None)) else s
    case Put(t, i) => if Uses(s, t, i) && s.table[i].lock != Some(t) then DidPut(s, t, i, s') else s' == s
    case Go(i) => if i < |s.table| && !s.table[i].phase.Calm? then WentOn(s, i, s') else s' == s
    case Alloc(dev, ninodes, kind) =>
      if kind != 0 && forall n: nat | 1 <= n < ninodes :: Key(dev, n) in s.disk then DidAlloc(s, dev, ninodes, kind, s')
      else s' == s
  }

  /** iget. */
  ghost predicate DidGet(s: Shot, t: nat, k: Key, s': Shot) {
    || (s' == s && forall i | 0 <= i < |s.table| :: s.table[i].refs > 0 && s.table[i].key != k)
    || (&& s'.disk == s.disk && s'.marked == s.marked - {k}
        && exists i | 0 <= i < |s.table| == |s.holders| ::
             Got(s.table, s'.table, i, k) && s'.holders == s.holders[i := s.holders[i] + multiset{t}])
  }

  /** The start of iput: the reference goes, or the freeing of the inode begins. */
  ghost predicate DidPut(s: Shot, t: nat, i: nat, s': Shot)
    requires i < |s.table| == |s.holders|
  {
    var e := s.table[i];
    if e.refs == 1 && e.valid && e.d.nlink == 0 then
      e.lock == None && s' == Entered(s, i, e.(lock := Some(t), phase := Trunc(t)))
    else
      e.refs > 0 && s' == Entered(s, i, e.(refs := e.refs - 1)).(holders := s.holders[i := s.holders[i] - multiset{t}])
  }

  /** The next step of an iput that frees: truncate, clear the type on disk, forget the contents, unlock,
      drop the reference. */
  ghost predicate WentOn(s: Shot, i: nat, s': Shot)
    requires i < |s.table| && !s.table[i].phase.Calm?
  {
    var e := s.table[i];
    var t := e.phase.t;
    match e.phase
    case Trunc(_) =>
      var d := e.d.(size := 0, addrs := []);
      s' == Entered(s, i, e.(d := d, phase := Clear(t))).(disk := s.disk[e.key := d])
    case Clear(_) =>
      var d := e.d.(kind := 0);
      s' == Entered(s, i, e.(d := d, phase := Forget(t))).(disk := s.disk[e.key := d])
    case Forget(_) => s' == Entered(s, i, e.(valid := false, phase := Unlock(t)))
    case Unlock(_) => s' == Entered(s, i, e.(lock := None, phase := Drop(t)))
    case Drop(_) =>
      && e.refs > 0 && i < |s.holders|
      && s' == Entered(s, i, e.(refs := e.refs - 1, phase := Calm))
               .(holders := s.holders[i := s.holders[i] - multiset{t}])
  }

  /** ialloc: the first free inode is marked, if there is one. */
  ghost predicate DidAlloc(s: Shot, dev: nat, ninodes: nat, kind: nat, s': Shot) {
    if forall n: nat | 1 <= n < ninodes :: Allocated(s.disk, Key(dev, n)) then s' == s
    else
      exists n: nat | 1 <= n < ninodes && !Allocated(s.disk, Key(dev, n)) ::
        && (forall m: nat | 1 <= m < n :: Allocated(s.disk, Key(dev, m)))
        && s' == s.(disk := s.disk[Key(dev, n) := Dinode(kind, 0, 0, [])], marked := s.marked + {Key(dev, n)})
  }

  /** An inode that has become free on disk had one holder and no links. */
  ghost predicate LastOut(table: seq<Entry>, holders: seq<Holders>, disk: Disk, disk': Disk) {
    forall k | Allocated(disk, k) && !Allocated(disk', k) :: disk[k].nlink == 0 && OneHolder(table, holders, k)
  }

  ghost predicate OneHolder(table: seq<Entry>, holders: seq<Holders>, k: Key) {
    exists i | 0 <= i < |table| && i < |holders| :: table[i].key == k && |holders[i]| == table[i].refs == 1
  }

  /** What every run keeps: one entry for each inode in use, whose count is that of its holders and
      whose contents, once read, are those on disk, where the inode is allocated. */
  ghost predicate Sound(table: seq<Entry>, holders: seq<Holders>, disk: Disk) {
    && |holders| == |table| && Unique(table)
    && forall i | 0 <= i < |table| ::
         && table[i].refs == |holders[i]|
         && (table[i].refs > 0 && table[i].valid && table[i].phase.Calm? ==>
               Allocated(disk, table[i].key) && table[i].d == disk[table[i].key])
  }

  lemma OneIsLast(table: seq<Entry>, holders: seq<Holders>, disk: Disk, marked: set<Key>, i: nat, t: nat)
    requires TableOk(table, holders, disk, marked) && i < |table| && holders[i] == multiset{t}
    ensures OneHolder(table, holders, table[i].key)
  {
    hide Unique;
    assert |multiset{t}| == 1;
    assert EntryOk(table[i], holders[i], disk, marked);
  }

  /** What iget does to the table: entry i now stands for k, and is used once more than before. */
  ghost predicate Got(table: seq<Entry>, table': seq<Entry>, i: nat, k: Key) {
    && i < |table| == |table'|
    && (forall j | 0 <= j < |table| && j != i :: table'[j] == table[j])
    && (if table[i].refs > 0 then table[i].key == k && table'[i] == table[i].(refs := table[i].refs + 1)
        else table'[i] == table[i].(key := k, refs := 1, valid := false))
  }

  /** An inode that a caller may look up: a link leads to it, or ialloc has just marked it. */
  predicate Reachable(disk: Disk, marked: set<Key>, k: Key) {
    Allocated(disk, k) && (disk[k].nlink > 0 || k in marked)
  }

  ghost predicate NotInUse(table: seq<Entry>, k: Key) {
    forall i | 0 <= i < |table| && table[i].refs > 0 :: table[i].key != k
  }

  lemma Referenced(e: Entry, hs: Holders, disk: Disk, marked: set<Key>, t: nat)
    requires EntryOk(e, hs, disk, marked) && Reachable(disk, marked, e.key) && e.refs > 0
    ensures EntryOk(e.(refs := e.refs + 1), hs + multiset{t}, disk, marked - {e.key})
  {
  }

  lemma Recycled(e: Entry, hs: Holders, disk: Disk, marked: set<Key>, k: Key, t: nat)
    requires EntryOk(e, hs, disk, marked) && e.refs == 0 && Allocated(disk, k)
    ensures EntryOk(e.(key := k, refs := 1, valid := false), hs + multiset{t}, disk, marked - {k})
    ensures hs == multiset{} && e.lock == None && e.phase == Calm
  {
  }

  lemma InUse(table: seq<Entry>, holders: seq<Holders>, disk: Disk, marked: set<Key>, i: nat, t: nat)
    requires TableOk(table, holders, disk, marked) && i < |table| && MayUse(table[i], holders[i], t)
    ensures table[i].refs > 0
  {
    hide Unique;
    assert EntryOk(table[i], holders[i], disk, marked);
    assert t in holders[i];
  }

  lemma Used(table: seq<Entry>, holders: seq<Holders>, disk: Disk, marked: set<Key>, i: nat)
    requires TableOk(table, holders, disk, marked) && i < |table| && !table[i].phase.Calm?
    ensures table[i].refs > 0 && |holders| == |table|
  {
    hide Unique;
    assert EntryOk(table[i], holders[i], disk, marked);
    assert table[i].phase.t in holders[i];
  }

  /** An entry and its inode on disk change together. */
  lemma EntryAndDisk(table: seq<Entry>, holders: seq<Holders>, disk: Disk, marked: set<Key>, i: nat, e: Entry,
                     d: Dinode)
    requires TableOk(table, holders, disk, marked) && i < |table| && table[i].refs > 0 && e.key == table[i].key
    requires e.refs == table[i].refs
    requires EntryOk(e, holders[i], disk[e.key := d], marked) && e.key !in marked
    ensures TableOk(table[i := e], holders, disk[e.key := d], marked)
  {
    hide EntryOk;
    var table', disk' := table[i := e], disk[e.key := d];
    SameKey(table, holders, disk, marked, i);
    forall j | 0 <= j < |table'| ensures EntryOk(table'[j], holders[j], disk', marked) {
      if j != i { OtherEntry(table[j], holders[j], disk, marked, e.key, d); }
    }
  }

  lemma OtherEntry(e: Entry, hs: Holders, disk: Disk, marked: set<Key>, k: Key, d: Dinode)
    requires EntryOk(e, hs, disk, marked) && (e.refs == 0 || e.key != k)
    ensures EntryOk(e, hs, disk[k := d], marked)
  {
    if e.refs == 0 { NoHolders(e, hs); }
  }

  // ----- one entry at a time

  lemma Duplicated(e: Entry, hs: Holders, disk: Disk, marked: set<Key>, t: nat)
    requires EntryOk(e, hs, disk, marked) && MayUse(e, hs, t)
    ensures EntryOk(e.(refs := e.refs + 1), hs + multiset{t}, disk, marked)
  {
  }

  lemma Locked(e: Entry, hs: Holders, disk: Disk, marked: set<Key>, t: nat)
    requires EntryOk(e, hs, disk, marked) && MayUse(e, hs, t) && e.lock == None
    ensures EntryOk(e.(lock := Some(t)), hs, disk, marked)
  {
    assert t in hs;
  }

  lemma Loaded(e: Entry, hs: Holders, disk: Disk, marked: set<Key>, t: nat)
    requires EntryOk(e, hs, disk, marked) && MayUse(e, hs, t) && e.lock == Some(t)
    ensures e.key in disk && disk[e.key].kind != 0
    ensures !e.valid ==> EntryOk(e.(valid := true, d := disk[e.key]), hs, disk, marked)
    ensures e.valid ==> e.d == disk[e.key]
  {
  }

  lemma Modified(e: Entry, hs: Holders, disk: Disk, marked: set<Key>, t: nat, d: Dinode)
    requires EntryOk(e, hs, disk, marked) && MayUse(e, hs, t) && e.lock == Some(t) && e.valid && d.kind != 0
    ensures e.key !in marked && EntryOk(e.(d := d), hs, disk[e.key := d], marked)
  {
  }

  lemma Unlocked(e: Entry, hs: Holders, disk: Disk, marked: set<Key>, t: nat)
    requires EntryOk(e, hs, disk, marked) && MayUse(e, hs, t) && e.lock == Some(t)
    ensures EntryOk(e.(lock := None), hs, disk, marked)
  {
  }

  lemma Putting(e: Entry, hs: Holders, disk: Disk, marked: set<Key>, t: nat)
    requires EntryOk(e, hs, disk, marked) && MayUse(e, hs, t) && e.lock != Some(t) && e.refs > 0
    ensures if e.refs == 1 && e.valid && e.d.nlink == 0 then e.lock == None
              && EntryOk(e.(lock := Some(t), phase := Trunc(t)), hs, disk, marked)
            else EntryOk(e.(refs := e.refs - 1), hs - multiset{t}, disk, marked)
  {
    assert t in hs;
    assert |hs - multiset{t}| == |hs| - 1;
  }

  lemma Truncated(e: Entry, hs: Holders, disk: Disk, marked: set<Key>)
    requires EntryOk(e, hs, disk, marked) && e.phase.Trunc? && e.refs > 0
    ensures e.d.kind != 0
    ensures var d := e.d.(size := 0, addrs := []);
            e.key !in marked && EntryOk(e.(d := d, phase := Clear(e.phase.t)), hs, disk[e.key := d], marked)
  {
  }

  lemma Cleared(e: Entry, hs: Holders, disk: Disk, marked: set<Key>)
    requires EntryOk(e, hs, disk, marked) && e.phase.Clear? && e.refs > 0
    ensures hs == multiset{e.phase.t} && e.key in disk && disk[e.key].nlink == 0
    ensures var d := e.d.(kind := 0);
            e.key !in marked && EntryOk(e.(d := d, phase := Forget(e.phase.t)), hs, disk[e.key := d], marked)
  {
  }

  lemma Forgotten(e: Entry, hs: Holders, disk: Disk, marked: set<Key>)
    requires EntryOk(e, hs, disk, marked)
    ensures e.phase.Forget? ==> EntryOk(e.(valid := false, phase := Unlock(e.phase.t)), hs, disk, marked)
    ensures e.phase.Unlock? ==> EntryOk(e.(lock := None, phase := Drop(e.phase.t)), hs, disk, marked)
  {
  }

  lemma Dropped(e: Entry, hs: Holders, disk: Disk, marked: set<Key>)
    requires EntryOk(e, hs, disk, marked) && e.phase.Drop? && e.refs > 0
    ensures EntryOk(e.(refs := e.refs - 1, phase := Calm), hs - multiset{e.phase.t}, disk, marked)
  {
    assert |hs - multiset{e.phase.t}| == |hs| - 1;
  }

  lemma MarkOk(table: seq<Entry>, holders: seq<Holders>, disk: Disk, marked: set<Key>, k: Key, d: Dinode)
    requires TableOk(table, holders, disk, marked) && !Allocated(disk, k) && d.kind != 0
    ensures TableOk(table, holders, disk[k := d], marked + {k})
    ensures forall i | 0 <= i < |table| && table[i].refs > 0 && table[i].key == k :: Past(table[i].phase)
              && Live(table[i], holders[i]) == multiset{}
  {
    forall i | 0 <= i < |table| && table[i].refs > 0 && table[i].key == k
      ensures EntryOk(table[i], holders[i], disk[k := d], marked + {k}) && Past(table[i].phase)
      ensures Live(table[i], holders[i]) == multiset{}
    {
      assert EntryOk(table[i], holders[i], disk, marked);
    }
    DiskChanged(table, holders, disk, marked, k, d, marked + {k});
  }

  // ----- ireclaim

  predicate Orphan(disk: Disk, k: Key) {
    Allocated(disk, k) && disk[k].nlink == 0
  }

  /** The inode after it has been freed. */
  function Freed(disk: Disk, k: Key): Dinode {
    if k in disk then disk[k].(kind := 0, size := 0, addrs := []) else BLANK
  }

  /** No entry is in use. */
  ghost predicate Idle(table: seq<Entry>) {
    forall i | 0 <= i < |table| :: table[i].refs == 0
  }

  lemma IdleUse(table: seq<Entry>, k: Key)
    requires Idle(table)
    ensures NotInUse(table, k)
  {
  }

  lemma FirstIdle(table: seq<Entry>)
    requires Idle(table) && |table| > 0
    ensures !(forall i | 0 <= i < |table| :: table[i].refs > 0)
  {
    assert table[0].refs == 0;
  }

  lemma IdleHolders(table: seq<Entry>, holders: seq<Holders>, disk: Disk, marked: set<Key>)
    requires TableOk(table, holders, disk, marked) && Idle(table)
    ensures |holders| == |table|
    ensures forall i | 0 <= i < |table| :: holders[i] == multiset{} && table[i].lock == None && table[i].phase == Calm
  {
    hide Unique;
    forall i | 0 <= i < |table| ensures holders[i] == multiset{} && table[i].lock == None && table[i].phase == Calm {
      assert EntryOk(table[i], holders[i], disk, marked);
      NoHolders(table[i], holders[i]);
    }
  }
}
