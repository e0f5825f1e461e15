/** virtio_disk.c between takings of vdisk_lock, with the device as a second actor. */
module VirtioDisk {
  import opened Options
  import opened Virtio

  type Content = seq<nat>

  /** The ring slot of a 16-bit index, and the next index. */
  function Pos(idx: nat): nat {
    idx % NUM
  }

  function Bump(idx: nat): nat {
    (idx + 1) % WRAP
  }

  ghost predicate DriverOk(v: Driver, chains: map<nat, Chain>, owner: map<nat, nat>) {
    Sizes(v) && Partition(v, chains, owner) && Buffers(chains)
  }

  /** A ring between a writer and a reader, with their 16-bit indices: the entries from number first
      on are q. */
  datatype Channel = Channel(ring: seq<nat>, first: nat, q: seq<nat>, readIdx: nat, writeIdx: nat)

  function Pushed(c: Channel, h: nat): Channel
    requires Pos(c.writeIdx) < |c.ring|
  {
    c.(ring := c.ring[Pos(c.writeIdx) := h], q := c.q + [h], writeIdx := Bump(c.writeIdx))
  }

  function Popped(c: Channel): Channel
    requires c.q != []
  {
    c.(first := c.first + 1, q := c.q[1..], readIdx := Bump(c.readIdx))
  }

  /** The entries are the chains of a stage. */
  ghost predicate RingOk(chains: map<nat, Chain>, stage: Stage, c: Channel) {
    && Ring(c.ring, c.first, c.q) && Queue(chains, c.q, stage)
    && c.readIdx == c.first % WRAP && c.writeIdx == (c.first + |c.q|) % WRAP
  }

  /** Both rings of the disk. */
  ghost predicate RingsOk(chains: map<nat, Chain>, avail: Channel, used: Channel) {
    RingOk(chains, Posted, avail) && RingOk(chains, Used, used)
  }

  /** What is known of the data of a request: a write sends what the buffer held when it was
      submitted, and a read that has completed left in the buffer what the sector held then. */
  ghost predicate DataOk(chains: map<nat, Chain>, bufData: map<nat, Content>, data: map<nat, Content>) {
    forall h | h in chains && (chains[h].write || chains[h].stage.Used? || chains[h].stage.Seen?) ::
      h in data && data[h] == Held(bufData, chains[h].b)
  }

  /** b->disk is set until the completion of b's request has been seen. */
  ghost predicate FlagsOk(chains: map<nat, Chain>, flags: map<nat, bool>) {
    forall h | h in chains :: chains[h].b in flags && flags[chains[h].b] == !chains[h].stage.Seen?
  }

  /** Between reading and writing indices a ring is empty exactly when they agree. */
  lemma RingEmpty(chains: map<nat, Chain>, stage: Stage, c: Channel)
    requires RingOk(chains, stage, c)
    ensures c.readIdx == c.writeIdx <==> c.q == []
  {
    hide Queue;
    SameIndex(c.first, |c.q|);
  }

  lemma SameIndex(first: nat, n: nat)
    requires n <= NUM
    ensures first % WRAP == (first + n) % WRAP <==> n == 0
  {
  }

  lemma RingOkPush(chains: map<nat, Chain>, stage: Stage, c: Channel, chains': map<nat, Chain>, h: nat)
    requires RingOk(chains, stage, c) && |c.q| < NUM && Queue(chains', c.q + [h], stage)
    ensures Pos(c.writeIdx) < |c.ring| && RingOk(chains', stage, Pushed(c, h))
  {
    hide Queue;
    Wrapped(c.first + |c.q|);
    RingPush(c.ring, c.first, c.q, h);
  }

  lemma RingOkPop(chains: map<nat, Chain>, stage: Stage, c: Channel, chains': map<nat, Chain>)
    requires RingOk(chains, stage, c) && c.q != [] && Queue(chains', c.q[1..], stage)
    ensures Pos(c.readIdx) < |c.ring| && c.ring[Pos(c.readIdx)] == c.q[0] && RingOk(chains', stage, Popped(c))
  {
    hide Queue;
    Wrapped(c.first);
    RingPop(c.ring, c.first, c.q);
  }

  lemma RingOkKept(chains: map<nat, Chain>, stage: Stage, c: Channel, chains': map<nat, Chain>)
    requires RingOk(chains, stage, c) && Queue(chains', c.q, stage)
    ensures RingOk(chains', stage, c)
  {
    hide Queue, Ring;
  }

  class Disk {
    var disk: Driver                 // the driver's struct disk, without the rings
    var availRing: seq<nat>
    var availIdx: nat
    var usedRing: seq<nat>
    var usedIdx: nat                 // how far the driver has looked
    var bufDisk: map<nat, bool>      // b->disk
    var bufData: map<nat, Content>   // b->data

    // the device
    var devIdx: nat                  // how far it has looked in the avail ring
    var usedDevIdx: nat              // used->idx
    var platter: map<nat, Content>   // by sector

    var chains: map<nat, Chain>      // the requests in flight, by the head of their chain
    ghost var data: map<nat, Content>
    ghost var owner: map<nat, nat>
    ghost var fetched: nat
    ghost var availQ: seq<nat>
    ghost var seen: nat
    ghost var usedQ: seq<nat>

    ghost predicate Valid()
      reads this
    {
      && DriverOk(disk, chains, owner)
      && RingsOk(chains, Channel(availRing, fetched, availQ, devIdx, availIdx),
           Channel(usedRing, seen, usedQ, usedIdx, usedDevIdx))
      && FlagsOk(chains, bufDisk) && DataOk(chains, bufData, data)
    }

    ghost function Now(): Shot
      reads this
    {
      Shot(disk.free, chains, availQ, usedQ, bufData, platter, data)
    }

    /** After virtio_disk_init. */
    constructor ()
      ensures Valid() && chains == map[] && Sizes(disk) && forall i | 0 <= i < NUM :: disk.free[i]
    {
      disk := Driver(seq(NUM, _ => true), seq(NUM, _ => EMPTY), seq(NUM, _ => Info(None, 0)),
          seq(NUM, _ => Req(false, 0)));
      availRing, usedRing := seq(NUM, _ => 0), seq(NUM, _ => 0);
      availIdx, usedIdx, devIdx, usedDevIdx := 0, 0, 0, 0;
      bufDisk, bufData, platter := map[], map[], map[];
      chains, owner, data, fetched, availQ, seen, usedQ := map[], map[], map[], 0, [], 0, [];
    }

    /** alloc_desc: the first free descriptor. */
    method AllocDesc() returns (r: Option<nat>)
      requires |disk.free| == NUM
      modifies `disk
      ensures r == None ==> disk == old(disk) && forall i | 0 <= i < NUM :: !disk.free[i]
      ensures r.Some? ==>
                r.value < NUM && old(disk).free[r.value] && (forall i | 0 <= i < r.value :: !old(disk).free[i])
      ensures r.Some? ==> disk == old(disk).(free := old(disk).free[r.value := false])
    {
      var i := 0;
      while i < NUM
        invariant 0 <= i <= NUM && disk == old(disk) && forall j | 0 <= j < i :: !disk.free[j]
      {
        if disk.free[i] {
          disk := disk.(free := disk.free[i := false]);
          return Some(i);
        }
        i := i + 1;
      }
      return None;
    }

    /** free_desc; freeing a free descriptor is a panic. */
    method FreeDesc(i: nat)
      requires |disk.free| == NUM && |disk.desc| == NUM && i < NUM && !disk.free[i]
      modifies `disk
      ensures disk == old(disk).(free := old(disk).free[i := true], desc := old(disk).desc[i := EMPTY])
    {
      disk := disk.(desc := disk.desc[i := EMPTY]);
      disk := disk.(free := disk.free[i := true]);
    }

    /** alloc3_desc: three descriptors, or none at all if there are not three. */
    method Alloc3() returns (r: Option<(nat, nat, nat)>)
      requires |disk.free| == NUM && |disk.desc| == NUM
      requires forall i | 0 <= i < NUM && disk.free[i] :: disk.desc[i] == EMPTY
      modifies `disk
      ensures r == None <==> !ThreeFree(old(disk).free)
      ensures r == None ==> disk == old(disk)
      ensures r.Some? ==>
                var (a, b, c) := r.value;
                && a < NUM && b < NUM && c < NUM && a != b && a != c && b != c
                && old(disk).free[a] && old(disk).free[b] && old(disk).free[c]
                && disk == old(disk).(free := old(disk).free[a := false][b := false][c := false])
    {
      var a := AllocDesc();
      if a == None {
        return None;
      }
      var b := AllocDesc();
      if b == None {
        FreeDesc(a.value);
        assert disk.free == old(disk).free && disk.desc == old(disk).desc;
        return None;
      }
      var c := AllocDesc();
      if c == None {
        FreeDesc(a.value);
        FreeDesc(b.value);
        assert disk.free == old(disk).free && disk.desc == old(disk).desc;
        return None;
      }
      return Some((a.value, b.value, c.value));
    }

    /** Format the three descriptors, taken from the free ones of before. */
    method Format(h: nat, i1: nat, i2: nat, b: nat, blockno: nat, write: bool, ghost before: Driver)
      requires Sizes(before) && h < NUM && i1 < NUM && i2 < NUM
      requires disk == before.(free := before.free[h := false][i1 := false][i2 := false])
      modifies `disk
      ensures disk == Laid(before, h, Chain(i1, i2, b, blockno, write, Posted))
    {
      disk := disk.(ops := disk.ops[h := Req(write, blockno * 2)]);
      disk := disk.(desc := disk.desc[h := Desc(OpAt(h), 16, false, true, i1)]);
      disk := disk.(desc := disk.desc[i1 := Desc(DataOf(b), BSIZE, !write, true, i2)]);
      disk := disk.(info := disk.info[h := Info(Some(b), 0xff)]);
      disk := disk.(desc := disk.desc[i2 := Desc(StatusAt(h), 1, true, false, 0)]);
    }

    /** Mark the buffer and put the head of a formatted chain into the avail ring. */
    method Post(h: nat, c: Chain, ghost v: Driver)
      requires DriverOk(v, chains, owner) && Three(v, h, c) && NotInFlight(chains, c.b) && disk == Laid(v, h, c)
      requires RingsOk(chains, Channel(availRing, fetched, availQ, devIdx, availIdx),
                 Channel(usedRing, seen, usedQ, usedIdx, usedDevIdx))
      requires FlagsOk(chains, bufDisk) && DataOk(chains, bufData, data)
      modifies `availRing, `availIdx, `bufDisk, `chains, `owner, `availQ, `data
      ensures Valid() && PostedAs(old(chains), chains, h, c.b, c.blockno, c.write) && availQ == old(availQ) + [h]
      ensures data == old(data)[h := Held(bufData, c.b)]
    {
      hide DriverOk, RingsOk, FlagsOk, DataOk, Laid, NotInFlight, Owning, PostedAs, Pos, Bump, Held, Three;
      ghost var used := Channel(usedRing, seen, usedQ, usedIdx, usedDevIdx);
      ghost var avail := Channel(availRing, fetched, availQ, devIdx, availIdx);
      PostOk(v, chains, owner, avail, used, bufDisk, bufData, data, h, c);
      avail := Pushed(avail, h);
      Enqueue(h, c);
      assert Channel(availRing, fetched, availQ, devIdx, availIdx) == avail;
    }

    /** The assignments of virtio_disk_rw between the formatting and the notification. */
    method Enqueue(h: nat, c: Chain)
      requires Pos(availIdx) < |availRing|
      modifies `availRing, `availIdx, `bufDisk, `chains, `owner, `availQ, `data
      ensures bufDisk == old(bufDisk)[c.b := true] && chains == old(chains)[h := c]
      ensures owner == Owning(old(owner), h, c) && data == old(data)[h := Held(bufData, c.b)]
      ensures availRing == old(availRing)[Pos(old(availIdx)) := h] && availIdx == Bump(old(availIdx))
      ensures availQ == old(availQ) + [h]
    {
      hide Owning, Held, Pos, Bump;
      bufDisk := bufDisk[c.b := true];
      availRing := availRing[Pos(availIdx) := h];
      availIdx := Bump(availIdx);
      chains, owner, data := chains[h := c], Owning(owner, h, c), data[h := Held(bufData, c.b)];
      availQ := availQ + [h];
    }

    /** The first half of virtio_disk_rw: post a request for buffer b. It fails, and changes nothing,
        when there are not three free descriptors; the caller then sleeps. */
    method Submit(b: nat, blockno: nat, write: bool) returns (r: Option<nat>)
      requires Valid() && NotInFlight(chains, b)
      modifies `disk, `availRing, `availIdx, `bufDisk, `chains, `owner, `availQ, `data
      ensures Valid()
      ensures r == None <==> !ThreeFree(old(disk).free)
      ensures r == None ==> Now() == old(Now()) && disk == old(disk)
      ensures r.Some? ==> PostedAs(old(chains), chains, r.value, b, blockno, write) && availQ == old(availQ) + [r.value]
      ensures r.Some? ==> data == old(data)[r.value := Held(bufData, b)]
    {
      hide DriverOk, RingsOk, FlagsOk, DataOk, Laid, NotInFlight, ThreeFree, PostedAs, Held;
      ghost var v := disk;
      Facts(v, chains, owner);
      var idx := Alloc3();
      if idx == None {
        return None;
      }
      var (h, i1, i2) := idx.value;
      Format(h, i1, i2, b, blockno, write, v);
      Post(h, Chain(i1, i2, b, blockno, write, Posted), v);
      return Some(h);
    }

    /** The device takes the next head from the avail ring. */
    method DeviceFetch() returns (h: nat)
      requires Valid() && devIdx != availIdx
      modifies `devIdx, `chains, `fetched, `availQ
      ensures Valid() && old(availQ) != [] && h == old(availQ)[0] && availQ == old(availQ)[1..]
      ensures h in old(chains) && chains == Moved(old(chains), h, Fetched)
    {
      hide DriverOk, RingOk, FlagsOk, DataOk, Moved, Pos, Bump;
      RingEmpty(chains, Posted, Channel(availRing, fetched, availQ, devIdx, availIdx));
      hide RingsOk;
      FetchOk(disk, chains, owner, Channel(availRing, fetched, availQ, devIdx, availIdx),
          Channel(usedRing, seen, usedQ, usedIdx, usedDevIdx), bufDisk);
      MovedData(chains, bufData, data, availQ[0], Fetched);
      h := availRing[Pos(devIdx)];
      devIdx := Bump(devIdx);
      fetched := fetched + 1;
      chains := Moved(chains, h, Fetched);
      availQ := availQ[1..];
    }

    /** The data of an order moves between its buffer and its sector. */
    method Transfer(order: Order)
      modifies `bufData, `platter
      ensures if order.write then platter == Put(old(platter), order.sector, Held(old(bufData), order.data))
                && bufData == old(bufData)
              else bufData == Put(old(bufData), order.data, Held(old(platter), order.sector)) && platter == old(platter)
    {
      if order.write {
        platter := platter[order.sector := Held(bufData, order.data)];
      } else {
        bufData := bufData[order.data := Held(platter, order.sector)];
      }
    }

    /** The device carries out the request at head h: it follows the chain, moves the data, sets the
        status and puts the head into the used ring. */
    method DeviceComplete(h: nat)
      requires Valid() && h in chains && chains[h].stage == Fetched
      modifies `disk, `bufData, `platter, `usedRing, `usedDevIdx, `chains, `usedQ, `data
      ensures Valid() && chains == Moved(old(chains), h, Used) && usedQ == old(usedQ) + [h]
      ensures var c := old(chains)[h];
              if c.write then
                && h in old(data) && platter == Put(old(platter), c.blockno * 2, old(data)[h])
                && bufData == old(bufData) && data == old(data)
              else
                && bufData == Put(old(bufData), c.b, Held(old(platter), c.blockno * 2)) && platter == old(platter)
                && data == Put(old(data), h, Held(platter, c.blockno * 2))
    {
      hide DriverOk, RingsOk, FlagsOk, Moved, Pos, Bump, Decode, Held, StatusSet;
      DecodeAt(disk, chains, owner, h);
      ReadData(disk, chains, owner, bufData, data, h, Held(platter, chains[h].blockno * 2));
      hide DataOk, Put;
      var order := Decode(disk, h).value;
      if !order.write { data := Put(data, h, Held(platter, order.sector)); }
      Transfer(order);
      Report(h, order.status);
    }

    /** The device sets the status and adds the head to the used ring. */
    method Report(h: nat, status: nat)
      requires DriverOk(disk, chains, owner) && h in chains && chains[h].stage == Fetched && status == h
      requires RingsOk(chains, Channel(availRing, fetched, availQ, devIdx, availIdx),
                 Channel(usedRing, seen, usedQ, usedIdx, usedDevIdx))
      requires FlagsOk(chains, bufDisk) && DataOk(Moved(chains, h, Used), bufData, data)
      modifies `disk, `usedRing, `usedDevIdx, `chains, `usedQ
      ensures Valid() && chains == Moved(old(chains), h, Used) && usedQ == old(usedQ) + [h]
    {
      hide DriverOk, RingsOk, FlagsOk, DataOk, Moved, Pos, Bump, StatusSet;
      CompleteOk(disk, chains, owner, Channel(availRing, fetched, availQ, devIdx, availIdx),
          Channel(usedRing, seen, usedQ, usedIdx, usedDevIdx), bufDisk, h);
      disk := StatusSet(disk, status);
      usedRing := usedRing[Pos(usedDevIdx) := h];
      usedDevIdx := Bump(usedDevIdx);
      chains := Moved(chains, h, Used);
      usedQ := usedQ + [h];
    }

    /** One round of virtio_disk_intr: the head at the used index leads to the buffer of its request. */
    method See() returns (id: nat)
      requires Valid() && usedIdx != usedDevIdx
      modifies `usedIdx, `bufDisk, `chains, `seen, `usedQ
      ensures Valid() && old(usedQ) != [] && id == old(usedQ)[0] && usedQ == old(usedQ)[1..]
      ensures id in old(chains) && old(chains)[id].stage == Used && chains == Moved(old(chains), id, Seen)
    {
      hide DriverOk, RingOk, FlagsOk, DataOk, Moved, Pos, Bump;
      RingEmpty(chains, Used, Channel(usedRing, seen, usedQ, usedIdx, usedDevIdx));
      hide RingsOk;
      SeeOk(disk, chains, owner, Channel(availRing, fetched, availQ, devIdx, availIdx),
          Channel(usedRing, seen, usedQ, usedIdx, usedDevIdx), bufDisk);
      MovedData(chains, bufData, data, usedQ[0], Seen);
      id := usedRing[Pos(usedIdx)];
      assert disk.info[id].status == 0;
      var b := disk.info[id].b.value;
      bufDisk := bufDisk[b := false];
      usedIdx := Bump(usedIdx);
      seen := seen + 1;
      chains := Moved(chains, id, Seen);
      usedQ := usedQ[1..];
    }

    /** virtio_disk_intr: every completion is handed to the buffer that posted it. */
    method Intr()
      requires Valid()
      modifies `usedIdx, `bufDisk, `chains, `seen, `usedQ
      ensures Valid() && usedQ == [] && AllSeen(old(chains), chains)
    {
      hide DriverOk, RingOk, FlagsOk, DataOk, Moved, AllSeen, SomeSeen;
      SeenSelf(chains);
      while usedIdx != usedDevIdx
        invariant Valid() && SomeSeen(old(chains), chains)
        decreases |usedQ|
      {
        ghost var before := chains;
        var id := See();
        SeenNext(old(chains), before, id);
      }
      RingEmpty(chains, Used, Channel(usedRing, seen, usedQ, usedIdx, usedDevIdx));
      SeenAll(old(chains), chains, Channel(usedRing, seen, usedQ, usedIdx, usedDevIdx));
    }

    /** free_chain: follow the chain from h and free its descriptors. */
    method FreeChain(h: nat, ghost c: Chain)
      requires Sizes(disk) && Threaded(disk, h, c) && !disk.free[h] && !disk.free[c.i1] && !disk.free[c.i2]
      modifies `disk
      ensures disk == Unlinked(old(disk), h, c, 3)
    {
      var i, more := h, true;
      ghost var k := 0;
      while more
        invariant 0 <= k <= 3 && disk == Unlinked(old(disk), h, c, k) && (more <==> k < 3)
        invariant k < 3 ==> i == if k == 0 then h else if k == 1 then c.i1 else c.i2
        decreases 3 - k
      {
        var flag, nxt := disk.desc[i].fnext, disk.desc[i].next;
        FreeDesc(i);
        k := k + 1;
        if flag { i := nxt; } else { more := false; }
      }
    }

    /** The second half of virtio_disk_rw, once b->disk is clear: a buffer that was read holds what
        its sector held when the device completed the request. */
    method Finish(h: nat)
      requires Valid() && h in chains && chains[h].stage == Seen
      modifies `disk, `chains, `owner
      ensures Valid() && chains == old(chains) - {h}
      ensures owner == old(owner) - {h, old(chains)[h].i1, old(chains)[h].i2}
      ensures h in data && Held(bufData, old(chains)[h].b) == data[h]
    {
      hide DriverOk, RingsOk, FlagsOk, ChainOk, Unlinked, Threaded, Held;
      var c := chains[h];
      FinishDriver(disk, chains, owner, h);
      FinishRings(chains, Channel(availRing, fetched, availQ, devIdx, availIdx),
          Channel(usedRing, seen, usedQ, usedIdx, usedDevIdx), bufDisk, h);
      ThreadedOk(disk, h, c);
      disk := disk.(info := disk.info[h := disk.info[h].(b := None)]);
      FreeChain(h, c);
      chains := chains - {h};
      owner := owner - {h, c.i1, c.i2};
    }

    /** The kernel changes a buffer that is in no request. */
    method Change(b: nat, content: Content)
      requires Valid() && NotInFlight(chains, b)
      modifies `bufData
      ensures Valid() && bufData == Put(old(bufData), b, content)
    {
      hide DriverOk, RingsOk, FlagsOk;
      bufData := Put(bufData, b, content);
    }

    lemma NothingPosted()
      requires Valid()
      ensures devIdx == availIdx <==> availQ == []
    {
      hide DriverOk, RingOk, FlagsOk, DataOk;
      RingEmpty(chains, Posted, Channel(availRing, fetched, availQ, devIdx, availIdx));
    }

    method TrySubmit(b: nat, blockno: nat, write: bool)
      requires Valid()
      modifies this
      ensures Valid() && DidSubmit(old(Now()), b, blockno, write, Now())
    {
      hide DriverOk, RingsOk, FlagsOk, DataOk, NotInFlight, PostedAs, ThreeFree, Held;
      if NotInFlight(chains, b) {
        var r := Submit(b, blockno, write);
      }
    }

    method TryComplete(h: nat)
      requires Valid()
      modifies this
      ensures Valid() && DidComplete(old(Now()), h, Now())
    {
      hide DriverOk, RingsOk, FlagsOk, DataOk, Held;
      if h in chains && chains[h].stage == Fetched {
        DeviceComplete(h);
      }
    }

    /** A step that is not possible now is left out. */
    method Step(a: Act)
      requires Valid()
      modifies this
      ensures Valid() && Did(old(Now()), a, Now())
    {
      hide DriverOk, RingsOk, FlagsOk, DataOk, NotInFlight, DidSubmit, DidComplete, AllSeen, Held;
      NothingPosted();
      match a
      case Rw(b, blockno, write) => TrySubmit(b, blockno, write);
      case Fetch => if devIdx != availIdx { var h := DeviceFetch(); }
      case Complete(h) => TryComplete(h);
      case Interrupt => Intr();
      case Return(h) => if h in chains && chains[h].stage == Seen { Finish(h); }
      case Touch(b, content) => if NotInFlight(chains, b) { Change(b, content); }
    }

    /** Any interleaving of callers, the interrupt handler and the device: every step does what it should,
        and a descriptor is free exactly if no request owns it. */
    method Run(acts: seq<Act>) returns (ghost shots: seq<Shot>)
      requires Valid()
      modifies this
      ensures Valid() && |disk.free| == NUM
      ensures forall i | 0 <= i < NUM :: disk.free[i] <==> forall h | h in chains :: !In(chains[h], h, i)
      ensures |shots| == |acts| + 1 && shots[0] == old(Now()) && shots[|acts|] == Now()
      ensures forall k | 0 <= k < |acts| :: Did(shots[k], acts[k], shots[k + 1])
    {
      hide DriverOk, RingsOk, FlagsOk, DataOk, Did;
      shots := [Now()];
      for k := 0 to |acts|
        invariant Valid() && |shots| == k + 1 && shots[0] == old(Now()) && shots[k] == Now()
        invariant forall i | 0 <= i < k :: Did(shots[i], acts[i], shots[i + 1])
      {
        Step(acts[k]);
        shots := shots + [Now()];
      }
      FreeIsUnowned(disk, chains, owner);
    }
  }

  /** What can be seen of the driver and the device at one moment: the requests in flight, those that the
      device and the driver have yet to look at, the buffers, the disk, and the data of each request. */
  datatype Shot = Shot(free: seq<bool>, chains: map<nat, Chain>, availQ: seq<nat>, usedQ: seq<nat>,
                       bufData: map<nat, Content>, platter: map<nat, Content>, data: map<nat, Content>)

  ghost predicate Did(s: Shot, a: Act, t: Shot) {
    match a
    case Rw(b, blockno, write) => DidSubmit(s, b, blockno, write, t)
    case Fetch =>
      if s.availQ == [] then t == s
      else
        var h := s.availQ[0];
        h in s.chains && t == s.(availQ := s.availQ[1..], chains := s.chains[h := s.chains[h].(stage := Fetched)])
    case Complete(h) => DidComplete(s, h, t)
    case Interrupt => AllSeen(s.chains, t.chains) && t == s.(chains := t.chains, usedQ := [])
    case Return(h) =>
      if h !in s.chains || s.chains[h].stage != Seen then t == s
      else
        && t == s.(free := t.free, chains := s.chains - {h})
        && h in s.data && Held(s.bufData, s.chains[h].b) == s.data[h]
    case Touch(b, content) =>
      t == if NotInFlight(s.chains, b) then s.(bufData := s.bufData[b := content]) else s
  }

  /** A request for a buffer is posted if it has none in flight and three descriptors are free. */
  ghost predicate DidSubmit(s: Shot, b: nat, blockno: nat, write: bool, t: Shot) {
    if !NotInFlight(s.chains, b) || !ThreeFree(s.free) then t == s
    else
      && t == s.(free := t.free, chains := t.chains, availQ := t.availQ, data := t.data)
      && |t.availQ| == |s.availQ| + 1
      && var h := t.availQ[|s.availQ|];
      && t.availQ == s.availQ + [h] && PostedAs(s.chains, t.chains, h, b, blockno, write)
      && t.data == s.data[h := Held(s.bufData, b)]
  }

  /** The device moves the data of a request between the buffer and the sectors of its block. */
  ghost predicate DidComplete(s: Shot, h: nat, t: Shot) {
    if h !in s.chains || s.chains[h].stage != Fetched then t == s
    else
      var c := s.chains[h];
      && t.chains == s.chains[h := c.(stage := Used)] && t.usedQ == s.usedQ + [h] && t.availQ == s.availQ
      && if c.write then
           && h in s.data && t.platter == s.platter[2 * c.blockno := s.data[h]]
           && t.bufData == s.bufData && t.data == s.data
         else
           && t.bufData == s.bufData[c.b := Held(s.platter, 2 * c.blockno)]
           && t.platter == s.platter && t.data == s.data[h := Held(s.platter, 2 * c.blockno)]
  }

  /** A step of a caller of virtio_disk_rw, of the device, of the interrupt handler, or of the kernel
      with a buffer. */
  datatype Act =
    | Rw(b: nat, blockno: nat, write: bool)
    | Fetch
    | Complete(h: nat)
    | Interrupt
    | Return(h: nat)
    | Touch(b: nat, content: Content)

  lemma FreeIsUnowned(v: Driver, chains: map<nat, Chain>, owner: map<nat, nat>)
    requires DriverOk(v, chains, owner)
    ensures |v.free| == NUM
    ensures forall i | 0 <= i < NUM :: v.free[i] <==> forall h | h in chains :: !In(chains[h], h, i)
  {
    hide AllLaid, Buffers;
    forall i | 0 <= i < NUM ensures v.free[i] <==> forall h | h in chains :: !In(chains[h], h, i) {
      if h :| h in chains && In(chains[h], h, i) { assert OwnedBy(owner, h, chains[h]); }
    }
  }

  ghost predicate ThreeFree(free: seq<bool>) {
    exists a, b, c | 0 <= a < |free| && 0 <= b < |free| && 0 <= c < |free| && a != b && a != c && b != c ::
      free[a] && free[b] && free[c]
  }

  predicate NotInFlight(chains: map<nat, Chain>, b: nat) {
    forall h | h in chains :: chains[h].b != b
  }

  ghost predicate PostedAs(chains: map<nat, Chain>, chains': map<nat, Chain>, h: nat, b: nat, blockno: nat,
                           write: bool) {
    && h !in chains && h in chains' && chains' - {h} == chains
    && chains'[h] == Chain(chains'[h].i1, chains'[h].i2, b, blockno, write, Posted)
  }

  lemma Facts(v: Driver, chains: map<nat, Chain>, owner: map<nat, nat>)
    requires DriverOk(v, chains, owner)
    ensures Sizes(v) && forall i | 0 <= i < NUM && v.free[i] :: v.desc[i] == EMPTY
  {
    hide AllLaid, Owns, Buffers;
  }

  lemma NewBuffers(chains: map<nat, Chain>, h: nat, c: Chain)
    requires Buffers(chains) && NotInFlight(chains, c.b)
    ensures Buffers(chains[h := c])
  {
  }

  lemma NewQueues(chains: map<nat, Chain>, avail: seq<nat>, used: seq<nat>, h: nat, c: Chain)
    requires Queue(chains, avail, Posted) && Queue(chains, used, Used) && h !in chains && c.stage == Posted
    ensures Queue(chains[h := c], avail + [h], Posted) && Queue(chains[h := c], used, Used) && h !in avail
  {
  }

  lemma NewFlags(chains: map<nat, Chain>, flags: map<nat, bool>, h: nat, c: Chain)
    requires FlagsOk(chains, flags) && NotInFlight(chains, c.b) && c.stage == Posted
    ensures FlagsOk(chains[h := c], flags[c.b := true])
  {
  }

  lemma NewData(chains: map<nat, Chain>, bufData: map<nat, Content>, data: map<nat, Content>, h: nat, c: Chain)
    requires DataOk(chains, bufData, data) && h !in chains
    ensures DataOk(chains[h := c], bufData, data[h := Held(bufData, c.b)])
  {
  }

  lemma MovedData(chains: map<nat, Chain>, bufData: map<nat, Content>, data: map<nat, Content>, h: nat, stage: Stage)
    requires DataOk(chains, bufData, data) && h in chains && (stage.Fetched? || (stage.Seen? && chains[h].stage.Used?))
    ensures DataOk(Moved(chains, h, stage), bufData, data)
  {
  }

  /** The data that a completed request leaves. */
  lemma ReadData(v: Driver, chains: map<nat, Chain>, owner: map<nat, nat>, bufData: map<nat, Content>,
                 data: map<nat, Content>, h: nat,
                 content: Content)
    requires DriverOk(v, chains, owner) && DataOk(chains, bufData, data) && h in chains
    ensures chains[h].write ==>
              h in data && data[h] == Held(bufData, chains[h].b) && DataOk(Moved(chains, h, Used), bufData, data)
    ensures !chains[h].write ==> DataOk(Moved(chains, h, Used), Put(bufData, chains[h].b, content),
              Put(data, h, content))
  {
    hide Partition;
  }

  lemma ThreeFresh(v: Driver, h: nat, c: Chain)
    requires Sizes(v) && Three(v, h, c)
    ensures h < NUM && c.stage == Posted
  {
  }

  lemma SubmitDriver(v: Driver, chains: map<nat, Chain>, owner: map<nat, nat>, h: nat, c: Chain)
    requires DriverOk(v, chains, owner) && NotInFlight(chains, c.b) && Three(v, h, c)
    ensures h !in chains && DriverOk(Laid(v, h, c), chains[h := c], Owning(owner, h, c))
    ensures PostedAs(chains, chains[h := c], h, c.b, c.blockno, c.write)
  {
    hide Partition, Buffers, NotInFlight;
    LaidPartition(v, chains, owner, h, c);
    NewBuffers(chains, h, c);
  }

  lemma PostOk(v: Driver, chains: map<nat, Chain>, owner: map<nat, nat>, avail: Channel, used: Channel,
               flags: map<nat, bool>, bufData: map<nat, Content>, data: map<nat, Content>, h: nat, c: Chain)
    requires DriverOk(v, chains, owner) && Three(v, h, c) && NotInFlight(chains, c.b)
    requires RingsOk(chains, avail, used) && FlagsOk(chains, flags) && DataOk(chains, bufData, data)
    ensures h !in chains && DriverOk(Laid(v, h, c), chains[h := c], Owning(owner, h, c))
    ensures PostedAs(chains, chains[h := c], h, c.b, c.blockno, c.write)
    ensures Pos(avail.writeIdx) < |avail.ring| && RingsOk(chains[h := c], Pushed(avail, h), used)
    ensures FlagsOk(chains[h := c], flags[c.b := true])
    ensures DataOk(chains[h := c], bufData, data[h := Held(bufData, c.b)])
  {
    hide DriverOk, RingsOk, FlagsOk, DataOk, Laid, NotInFlight, Owning, PostedAs, Pos, Bump, Held, Three;
    Facts(v, chains, owner);
    ThreeFresh(v, h, c);
    SubmitDriver(v, chains, owner, h, c);
    SubmitRings(chains, owner, v, avail, used, h, c);
    NewFlags(chains, flags, h, c);
    NewData(chains, bufData, data, h, c);
  }

  lemma SubmitRings(chains: map<nat, Chain>, owner: map<nat, nat>, v: Driver, avail: Channel, used: Channel, h: nat,
                    c: Chain)
    requires DriverOk(v, chains, owner) && h < NUM && h !in chains && c.stage == Posted && RingsOk(chains, avail, used)
    ensures Pos(avail.writeIdx) < |avail.ring| && RingsOk(chains[h := c], Pushed(avail, h), used)
  {
    hide AllLaid, Owns, FreeOnes, Buffers, Queue, Ring;
    NewQueues(chains, avail.q, used.q, h, c);
    QueueFits(chains, owner, avail.q, Posted, h);
    RingOkPush(chains, Posted, avail, chains[h := c], h);
    RingOkKept(chains, Used, used, chains[h := c]);
  }

  lemma MovedDriver(v: Driver, chains: map<nat, Chain>, owner: map<nat, nat>, h: nat, stage: Stage)
    requires DriverOk(v, chains, owner) && h in chains
    requires stage.Used? || stage.Seen? ==> h < |v.info| && v.info[h].status == 0
    ensures h < NUM && DriverOk(v, Moved(chains, h, stage), owner)
  {
    hide Buffers, FreeOnes, Moved;
    HeadBound(chains, owner, h);
    MovedPartition(v, chains, owner, h, stage);
    MovedBuffers(chains, h, stage);
  }

  lemma MovedFlags(chains: map<nat, Chain>, flags: map<nat, bool>, h: nat, stage: Stage)
    requires FlagsOk(chains, flags) && h in chains && !stage.Seen? && !chains[h].stage.Seen?
    ensures FlagsOk(Moved(chains, h, stage), flags)
  {
  }

  lemma FetchOk(v: Driver, chains: map<nat, Chain>, owner: map<nat, nat>, avail: Channel, used: Channel,
                flags: map<nat, bool>)
    requires DriverOk(v, chains, owner) && FlagsOk(chains, flags) && avail.q != [] && RingsOk(chains, avail, used)
    ensures Pos(avail.readIdx) < |avail.ring| && avail.ring[Pos(avail.readIdx)] == avail.q[0] && avail.q[0] in chains
    ensures var c := Moved(chains, avail.q[0], Fetched);
            DriverOk(v, c, owner) && FlagsOk(c, flags) && RingsOk(c, Popped(avail), used)
  {
    hide DriverOk, FlagsOk, Moved, Ring;
    var h := avail.q[0];
    assert h in avail.q;
    var c := Moved(chains, h, Fetched);
    MovedDriver(v, chains, owner, h, Fetched);
    MovedFlags(chains, flags, h, Fetched);
    MovedFrom(chains, avail.q, Posted, Fetched);
    MovedPast(chains, used.q, Used, h, Fetched);
    RingOkPop(chains, Posted, avail, c);
    RingOkKept(chains, Used, used, c);
  }

  function Put(m: map<nat, Content>, k: nat, c: Content): map<nat, Content> {
    m[k := c]
  }

  function Held(m: map<nat, Content>, k: nat): Content {
    if k in m then m[k] else []
  }

  /** The device reads off the chain the request that was posted. */
  lemma DecodeAt(v: Driver, chains: map<nat, Chain>, owner: map<nat, nat>, h: nat)
    requires DriverOk(v, chains, owner) && h in chains
    ensures Sizes(v) && Decode(v, h) == Some(Order(chains[h].write, chains[h].blockno * 2, chains[h].b, h)) && h < NUM
  {
    hide Owns, FreeOnes, Buffers, Decode;
    assert ChainOk(v, h, chains[h]);
    DecodeChain(v, h, chains[h]);
  }

  function StatusSet(v: Driver, h: nat): Driver
    requires h < |v.info|
  {
    v.(info := v.info[h := v.info[h].(status := 0)])
  }

  lemma StatusOk(v: Driver, chains: map<nat, Chain>, owner: map<nat, nat>, h: nat)
    requires DriverOk(v, chains, owner) && h in chains
    ensures h < |v.info| && DriverOk(StatusSet(v, h), chains, owner)
  {
    hide Owns, Buffers;
    assert ChainOk(v, h, chains[h]);
    var w := StatusSet(v, h);
    forall k | k in chains ensures ChainOk(w, k, chains[k]) { assert ChainOk(v, k, chains[k]); }
  }

  lemma CompleteOk(v: Driver, chains: map<nat, Chain>, owner: map<nat, nat>, avail: Channel, used: Channel,
                   flags: map<nat, bool>, h: nat)
    requires DriverOk(v, chains, owner) && FlagsOk(chains, flags) && h in chains && chains[h].stage == Fetched
    requires RingsOk(chains, avail, used)
    ensures h < |v.info| && Pos(used.writeIdx) < |used.ring|
    ensures var c := Moved(chains, h, Used);
            DriverOk(StatusSet(v, h), c, owner) && FlagsOk(c, flags) && RingsOk(c, avail, Pushed(used, h))
  {
    hide DriverOk, FlagsOk, Moved, Ring, Pos, Bump, Queue;
    var c := Moved(chains, h, Used);
    StatusOk(v, chains, owner, h);
    MovedDriver(StatusSet(v, h), chains, owner, h, Used);
    MovedFlags(chains, flags, h, Used);
    MovedTo(chains, used.q, Used, h);
    MovedPast(chains, avail.q, Posted, h, Used);
    OwnsOf(v, chains, owner);
    NotQueued(chains, used.q, Used, h);
    QueueFits(chains, owner, used.q, Used, h);
    RingOkPush(chains, Used, used, c, h);
    RingOkKept(chains, Posted, avail, c);
  }

  lemma OwnsOf(v: Driver, chains: map<nat, Chain>, owner: map<nat, nat>)
    requires DriverOk(v, chains, owner)
    ensures Owns(chains, owner)
  {
    hide AllLaid, FreeOnes, Owns, Buffers;
  }

  lemma NotQueued(chains: map<nat, Chain>, q: seq<nat>, stage: Stage, h: nat)
    requires Queue(chains, q, stage) && h in chains && chains[h].stage != stage
    ensures h !in q
  {
  }

  /** One completion: the head at the front of the used ring leads to the buffer of its request. */
  lemma SeeOk(v: Driver, chains: map<nat, Chain>, owner: map<nat, nat>, avail: Channel, used: Channel,
              flags: map<nat, bool>)
    requires DriverOk(v, chains, owner) && FlagsOk(chains, flags) && used.q != [] && RingsOk(chains, avail, used)
    ensures Pos(used.readIdx) < |used.ring| && used.ring[Pos(used.readIdx)] == used.q[0] && used.q[0] in chains
    ensures used.q[0] < |v.info| && v.info[used.q[0]] == Info(Some(chains[used.q[0]].b), 0)
    ensures chains[used.q[0]].stage == Used
    ensures var c := Moved(chains, used.q[0], Seen);
            && DriverOk(v, c, owner) && FlagsOk(c, flags[chains[used.q[0]].b := false])
            && RingsOk(c, avail, Popped(used))
  {
    hide DriverOk, FlagsOk, Moved, Ring, Pos, Bump;
    var h := used.q[0];
    assert h in used.q;
    var c := Moved(chains, h, Seen);
    InfoAt(v, chains, owner, h);
    MovedDriver(v, chains, owner, h, Seen);
    SeenFlags(v, chains, owner, flags, h);
    MovedFrom(chains, used.q, Used, Seen);
    MovedPast(chains, avail.q, Posted, h, Seen);
    RingOkPop(chains, Used, used, c);
    RingOkKept(chains, Posted, avail, c);
  }

  lemma InfoAt(v: Driver, chains: map<nat, Chain>, owner: map<nat, nat>, h: nat)
    requires DriverOk(v, chains, owner) && h in chains && chains[h].stage == Used
    ensures h < |v.info| && v.info[h] == Info(Some(chains[h].b), 0)
  {
    hide Owns, FreeOnes, Buffers;
    assert ChainOk(v, h, chains[h]);
  }

  lemma SeenFlags(v: Driver, chains: map<nat, Chain>, owner: map<nat, nat>, flags: map<nat, bool>, h: nat)
    requires DriverOk(v, chains, owner) && FlagsOk(chains, flags) && h in chains
    ensures FlagsOk(Moved(chains, h, Seen), flags[chains[h].b := false])
  {
    hide Partition;
  }

  /** Some of the completed requests have been seen. */
  ghost predicate SomeSeen(chains: map<nat, Chain>, chains': map<nat, Chain>) {
    && chains'.Keys == chains.Keys
    && forall h | h in chains :: chains'[h] == chains[h]
         || (chains[h].stage == Used && chains'[h] == chains[h].(stage := Seen))
  }

  /** All of them have. */
  ghost predicate AllSeen(chains: map<nat, Chain>, chains': map<nat, Chain>) {
    && chains'.Keys == chains.Keys
    && forall h | h in chains :: chains'[h] == if chains[h].stage == Used then chains[h].(stage := Seen) else chains[h]
  }

  lemma SeenSelf(chains: map<nat, Chain>)
    ensures SomeSeen(chains, chains)
  {
  }

  lemma SeenNext(chains: map<nat, Chain>, before: map<nat, Chain>, h: nat)
    requires SomeSeen(chains, before) && h in before && before[h].stage == Used
    ensures SomeSeen(chains, Moved(before, h, Seen))
  {
    assert h in chains.Keys;
    assert Moved(before, h, Seen).Keys == before.Keys;
  }

  lemma SeenAll(chains: map<nat, Chain>, chains': map<nat, Chain>, used: Channel)
    requires SomeSeen(chains, chains') && RingOk(chains', Used, used) && used.q == []
    ensures AllSeen(chains, chains')
  {
    hide Ring;
    forall h | h in chains
      ensures chains'[h] == if chains[h].stage == Used then chains[h].(stage := Seen) else chains[h]
    {
      assert h in chains'.Keys;
    }
  }

  /** The first k descriptors of the chain at h are freed. */
  function Unlinked(v: Driver, h: nat, c: Chain, k: nat): Driver
    requires Sizes(v) && h < NUM && c.i1 < NUM && c.i2 < NUM
  {
    var free0, desc0 := if k > 0 then v.free[h := true] else v.free, if k > 0 then v.desc[h := EMPTY] else v.desc;
    var free1, desc1 := if k > 1 then free0[c.i1 := true] else free0, if k > 1 then desc0[c.i1 := EMPTY] else desc0;
    v.(free := if k > 2 then free1[c.i2 := true] else free1, desc := if k > 2 then desc1[c.i2 := EMPTY] else desc1)
  }

  lemma FinishDriver(v: Driver, chains: map<nat, Chain>, owner: map<nat, nat>, h: nat)
    requires DriverOk(v, chains, owner) && h in chains
    ensures Sizes(v) && ChainOk(v, h, chains[h]) && h < NUM && chains[h].i1 < NUM && chains[h].i2 < NUM
    ensures !v.free[h] && !v.free[chains[h].i1] && !v.free[chains[h].i2]
    ensures var w := v.(info := v.info[h := v.info[h].(b := None)]);
            Sizes(w) && DriverOk(Unlinked(w, h, chains[h], 3), chains - {h}, owner - {h, chains[h].i1, chains[h].i2})
  {
    hide Partition, Buffers, ChainOk;
    LaidAt(v, chains, owner, h);
    CutPartition(v, chains, owner, h);
    FewerBuffers(chains, h);
    CutUnlinked(v, h, chains[h]);
  }

  lemma LaidAt(v: Driver, chains: map<nat, Chain>, owner: map<nat, nat>, h: nat)
    requires DriverOk(v, chains, owner) && h in chains
    ensures ChainOk(v, h, chains[h]) && h < NUM && chains[h].i1 < NUM && chains[h].i2 < NUM && !v.free[h]
    ensures !v.free[chains[h].i1] && !v.free[chains[h].i2]
  {
    hide Buffers;
    assert ChainOk(v, h, chains[h]) && OwnedBy(owner, h, chains[h]);
    assert v.free[h] <==> h !in owner;
    assert v.free[chains[h].i1] <==> chains[h].i1 !in owner;
    assert v.free[chains[h].i2] <==> chains[h].i2 !in owner;
  }

  lemma CutUnlinked(v: Driver, h: nat, c: Chain)
    requires Sizes(v) && ChainOk(v, h, c)
    ensures var w := v.(info := v.info[h := v.info[h].(b := None)]);
            Unlinked(w, h, c, 3) == Cut(v, h, c)
  {
  }

  lemma FewerBuffers(chains: map<nat, Chain>, h: nat)
    requires Buffers(chains)
    ensures Buffers(chains - {h})
  {
  }

  lemma FinishRings(chains: map<nat, Chain>, avail: Channel, used: Channel, flags: map<nat, bool>, h: nat)
    requires FlagsOk(chains, flags) && h in chains && chains[h].stage == Seen && RingsOk(chains, avail, used)
    ensures FlagsOk(chains - {h}, flags) && RingsOk(chains - {h}, avail, used)
  {
    hide Ring;
  }

  /** The links of a chain. */
  ghost predicate Threaded(v: Driver, h: nat, c: Chain)
    requires Sizes(v)
  {
    && h < NUM && c.i1 < NUM && c.i2 < NUM && h != c.i1 && h != c.i2 && c.i1 != c.i2
    && v.desc[h].fnext && v.desc[h].next == c.i1 && v.desc[c.i1].fnext && v.desc[c.i1].next == c.i2
    && !v.desc[c.i2].fnext
  }

  lemma ThreadedOk(v: Driver, h: nat, c: Chain)
    requires Sizes(v) && ChainOk(v, h, c)
    ensures Threaded(v.(info := v.info[h := v.info[h].(b := None)]), h, c)
  {
  }
}
