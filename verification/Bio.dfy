/** The buffer cache as bio.c keeps it: buffers on a circular list, most recently released
    first. Cache says what the operations do to the contents; here they also keep the list,
    and the list keeps the buffers in the order of their release. */
module Bio {
  import opened Options
  import opened Disk
  import opened Ring
  import opened Cache

  /** Of two unreferenced buffers, the one nearer the front was released later. */
  ghost predicate LruSorted(bufs: seq<Buf>, order: seq<nat>, stamp: seq<nat>, clock: nat) {
    && |stamp| == |bufs| == NBUF
    && Distinct(order)
    && (forall i | 0 <= i < NBUF :: stamp[i] < clock)
    && (forall i, j | 0 <= i < j < |order| && bufs[order[i]].refcnt == 0 && bufs[order[j]].refcnt == 0 ::
          stamp[order[j]] < stamp[order[i]])
  }

  /** The list is one circle through all NBUF buffers. */
  ghost predicate Listed(next: seq<nat>, prev: seq<nat>, order: seq<nat>) {
    && Linked(next, prev, order)
    && |order| == NBUF
    && (forall i: nat | i < NBUF :: i in order)
  }

  ghost function Pos(order: seq<nat>, i: nat): (k: nat)
    requires i in order
    ensures k < |order| && order[k] == i
  {
    var k :| 0 <= k < |order| && order[k] == i; k
  }

  /** Operations that free no buffer keep the order. */
  lemma LruKept(bufs: seq<Buf>, i: nat, b: Buf, order: seq<nat>, stamp: seq<nat>, clock: nat)
    requires LruSorted(bufs, order, stamp, clock) && i < NBUF
    requires b.refcnt == 0 ==> bufs[i].refcnt == 0
    ensures LruSorted(bufs[i := b], order, stamp, clock)
  {
  }

  lemma ToFrontAt(order: seq<nat>, k: nat)
    requires k < |order|
    ensures |ToFront(order, k)| == |order| && ToFront(order, k)[0] == order[k]
    ensures forall i: nat {:trigger ToFront(order, k)[i]} | 1 <= i < |order| ::
              ToFront(order, k)[i] == if i <= k then order[i - 1] else order[i]
  {
  }

  lemma ToFrontDistinct(order: seq<nat>, k: nat)
    requires Distinct(order) && k < |order|
    ensures Distinct(ToFront(order, k))
  {
    ToFrontAt(order, k);
  }

  /** Releasing the buffer at position k for good: it goes to the front with a new stamp. */
  lemma LruReleased(bufs: seq<Buf>, k: nat, b: Buf, order: seq<nat>, stamp: seq<nat>, clock: nat)
    requires LruSorted(bufs, order, stamp, clock) && k < |order|
    ensures LruSorted(bufs[order[k] := b], ToFront(order, k), stamp[order[k] := clock], clock + 1)
  {
    hide ToFront;
    ToFrontAt(order, k);
    ToFrontDistinct(order, k);
    var o, bs, st := ToFront(order, k), bufs[order[k] := b], stamp[order[k] := clock];
    forall i, j | 0 <= i < j < |o| && bs[o[i]].refcnt == 0 && bs[o[j]].refcnt == 0 ensures st[o[j]] < st[o[i]] {
      var j' := if j <= k then j - 1 else j;
      assert o[j] == order[j'] && j' != k;
      if i > 0 {
        var i' := if i <= k then i - 1 else i;
        assert o[i] == order[i'] && i' < j';
      }
    }
  }

  lemma ToFrontListed(next: seq<nat>, prev: seq<nat>, order: seq<nat>, k: nat)
    requires Listed(next, prev, order) && k < |order|
    ensures var b := order[k];
            && b < NBUF && |next| == |prev| == NBUF + 1
            && next[b] < |prev| && prev[b] < |next|
            && var nx, pv := next[prev[b] := next[b]], prev[next[b] := prev[b]];
            && nx[HEAD] < |pv|
            && Listed(nx[b := nx[HEAD]][HEAD := b], pv[b := HEAD][nx[HEAD] := b], ToFront(order, k))
  {
    Unlink(next, prev, order, k);
    var b := order[k];
    PushFront(next[prev[b] := next[b]], prev[next[b] := prev[b]], Without(order, k), b);
    forall i: nat | i < NBUF ensures i in ToFront(order, k) {
      var j := Pos(order, i);
      if j < k {
        assert Without(order, k)[j] == i;
      } else if j > k {
        assert Without(order, k)[j - 1] == i;
      }
    }
  }

  class Bcache {
    var buf: seq<Buf>
    var next: seq<nat>
    var prev: seq<nat>
    var disk: Image

    ghost var trace: seq<Write>      // every block write so far
    ghost var order: seq<nat>        // the buffers from head.next on
    ghost var stamp: seq<nat>        // when each buffer's count last fell to zero in Brelse
    ghost var clock: nat
    ghost var holders: seq<nat>
    ghost var pins: map<nat, nat>
    ghost var logical: Image
    ghost var dirty: set<nat>

    ghost function State(): Cache
      reads this
    {
      Cache(buf, disk, logical, holders, pins, dirty)
    }

    ghost predicate Valid()
      reads this
    {
      Listed(next, prev, order) && |stamp| == NBUF && Good(State())
    }

    ghost predicate Lru()
      reads this
    {
      LruSorted(buf, order, stamp, clock)
    }

    constructor (image: Image)
      ensures Valid() && Lru()
      ensures disk == logical == image && trace == [] && pins == map[] && dirty == {}
      ensures |buf| == NBUF && forall i | 0 <= i < NBUF :: buf[i] == Buf(0, 0, false, false, 0, ZERO) && holders[i] == 0
      ensures forall i | 0 <= i < NBUF :: order[i] == NBUF - 1 - i
    {
      buf := seq(NBUF, _ => Buf(0, 0, false, false, 0, ZERO));
      next, prev := seq(NBUF + 1, _ => HEAD), seq(NBUF + 1, _ => HEAD);
      disk, logical, trace, pins, dirty := image, image, [], map[], {};
      order, stamp, clock := [], seq(NBUF, i => i), NBUF;
      holders := seq(NBUF, _ => 0);
      new;
      LinkAll();
    }

    /** The loop of binit: put the buffers on the list one after another. */
    method LinkAll()
      requires order == [] && Linked(next, prev, order)
      modifies `next, `prev, `order
      ensures Listed(next, prev, order)
      ensures forall i | 0 <= i < NBUF :: order[i] == NBUF - 1 - i
    {
      var b := 0;
      while b < NBUF
        invariant 0 <= b <= NBUF && |order| == b
        invariant Linked(next, prev, order)
        invariant forall i | 0 <= i < b :: order[i] == b - 1 - i
      {
        PushFront(next, prev, order, b);
        hide Linked;
        next := next[b := next[HEAD]];
        prev := prev[b := HEAD];
        prev := prev[next[HEAD] := b];
        next := next[HEAD := b];
        order := [b] + order;
        b := b + 1;
      }
      forall i: nat | i < NBUF ensures i in order {
        assert order[NBUF - 1 - i] == i;
      }
    }

    /** The first loop of bget: the buffer that caches blockno, or the list head. */
    method FindCached(blockno: nat) returns (b: nat)
      requires Valid()
      ensures b == HEAD <==> !Cached(buf, blockno)
      ensures b != HEAD ==> b < NBUF && Caches(buf[b], blockno)
    {
      hide Unique, Counted, Coherent;
      b := next[HEAD];
      ghost var k := 0;
      assert Node(order, 0) == HEAD;
      while b != HEAD
        invariant 0 <= k <= NBUF && b == Node(order, k + 1)
        invariant forall j | 0 <= j < k :: !Caches(buf[order[j]], blockno)
        decreases NBUF - k
      {
        if buf[b].dev == ROOTDEV && buf[b].blockno == blockno {
          return;
        }
        b := next[b];
        k := k + 1;
      }
      forall i: nat | i < NBUF ensures !Caches(buf[i], blockno) {
        assert i in order;
        var j := Pos(order, i);
      }
    }

    /** The second loop of bget: the last unreferenced buffer of the list, or the head. */
    method FindUnused() returns (b: nat)
      requires Valid()
      ensures b == HEAD <==> !SomeFree(buf)
      ensures b != HEAD ==> b < NBUF && buf[b].refcnt == 0
      ensures b != HEAD && Lru() ==> forall i | 0 <= i < NBUF && buf[i].refcnt == 0 :: stamp[b] <= stamp[i]
    {
      hide Unique, Counted, Coherent;
      b := prev[HEAD];
      ghost var k := NBUF;
      assert Node(order, NBUF + 1) == HEAD;
      while b != HEAD
        invariant 0 <= k <= NBUF && b == Node(order, k)
        invariant forall j | k <= j < NBUF :: buf[order[j]].refcnt != 0
        decreases k
      {
        if buf[b].refcnt == 0 {
          forall i: nat | i < NBUF && buf[i].refcnt == 0 && Lru() ensures stamp[b] <= stamp[i] {
            assert i in order;
            var j := Pos(order, i);
          }
          return;
        }
        b := prev[b];
        k := k - 1;
      }
      forall i: nat | i < NBUF ensures buf[i].refcnt != 0 {
        assert i in order;
        var j := Pos(order, i);
      }
    }

    /** bget under bcache.lock: find the buffer of a block, or recycle the one released longest ago,
        and count the caller. None is the panic "bget: no buffers". */
    method Reference(blockno: nat) returns (r: Option<nat>)
      requires Valid()
      modifies `buf, `holders
      ensures Valid() && (old(Lru()) ==> Lru())
      ensures r == None <==> !Cached(old(buf), blockno) && !SomeFree(old(buf))
      ensures r == None ==> State() == old(State())
      ensures r.Some? ==> r.value < NBUF
      ensures r.Some? && Cached(old(buf), blockno) ==>
                Caches(old(buf)[r.value], blockno) && State() == Awaited(old(State()), r.value)
      ensures r.Some? && !Cached(old(buf), blockno) ==>
                && old(buf)[r.value].refcnt == 0
                && (old(Lru()) ==> forall i | 0 <= i < NBUF && old(buf)[i].refcnt == 0 :: stamp[r.value] <= stamp[i])
                && State() == Recycled(old(State()), r.value, blockno)
    {
      hide Unique, Counted, Coherent, Linked, LruSorted;
      var b := FindCached(blockno);
      if b != HEAD {
        AwaitedGood(State(), b);
        if Lru() { LruKept(buf, b, Awaited(State(), b).bufs[b], order, stamp, clock); }
        buf := buf[b := buf[b].(refcnt := buf[b].refcnt + 1)];
        holders := holders[b := holders[b] + 1];
        return Some(b);
      }
      b := FindUnused();
      if b != HEAD {
        RecycledGood(State(), b, blockno);
        if Lru() { LruKept(buf, b, Recycled(State(), b, blockno).bufs[b], order, stamp, clock); }
        buf := buf[b := Buf(ROOTDEV, blockno, false, false, 1, buf[b].data)];
        holders := holders[b := holders[b] + 1];
        return Some(b);
      }
      return None;
    }

    /** acquiresleep, once the lock is free. */
    method Acquire(i: nat)
      requires Valid() && i < NBUF && |holders| == NBUF && holders[i] > 0 && !buf[i].locked
      modifies `buf
      ensures Valid() && (old(Lru()) ==> Lru())
      ensures State() == Acquired(old(State()), i) && i !in dirty
      ensures buf[i].valid ==> buf[i].data == At(logical, buf[i].blockno)
    {
      hide Unique, Counted, Coherent, Linked, LruSorted;
      AcquiredGood(State(), i);
      UnlockedIsClean(State(), i);
      if Lru() { LruKept(buf, i, buf[i].(locked := true), order, stamp, clock); }
      buf := buf[i := buf[i].(locked := true)];
    }

    /** The rest of bread: the holder of the lock reads the block if nobody has yet. */
    method Load(i: nat)
      requires Valid() && i < NBUF && buf[i].locked && buf[i].dev == ROOTDEV
      modifies `buf
      ensures Valid() && (old(Lru()) ==> Lru())
      ensures buf == old(buf)[i := old(buf)[i].(valid := true, data := buf[i].data)]
      ensures if old(buf)[i].valid then buf == old(buf) else buf[i].data == At(logical, buf[i].blockno)
    {
      hide Unique, Counted, Coherent, Linked, LruSorted;
      if !buf[i].valid {
        FilledGood(State(), i);
        if Lru() { LruKept(buf, i, Filled(State(), i).bufs[i], order, stamp, clock); }
        buf := buf[i := buf[i].(valid := true, data := At(disk, buf[i].blockno))];
      }
    }

    /** bget when nobody has the lock of the block. */
    method Bget(blockno: nat) returns (r: Option<nat>)
      requires Valid() && Unlocked(buf, blockno)
      modifies `buf, `holders
      ensures Valid() && (old(Lru()) ==> Lru())
      ensures r == None <==> !Cached(old(buf), blockno) && !SomeFree(old(buf))
      ensures r == None ==> State() == old(State())
      ensures r.Some? ==> r.value < NBUF && r.value !in dirty
      ensures r.Some? && Cached(old(buf), blockno) ==>
                && Caches(old(buf)[r.value], blockno) && State() == Acquired(Awaited(old(State()), r.value), r.value)
                && (buf[r.value].valid ==> buf[r.value].data == At(logical, blockno))
      ensures r.Some? && !Cached(old(buf), blockno) ==>
                && old(buf)[r.value].refcnt == 0
                && (old(Lru()) ==> forall i | 0 <= i < NBUF && old(buf)[i].refcnt == 0 :: stamp[r.value] <= stamp[i])
                && State() == Acquired(Recycled(old(State()), r.value, blockno), r.value)
    {
      hide Unique, Counted, Coherent, Linked, LruSorted;
      r := Reference(blockno);
      if r.Some? {
        Acquire(r.value);
      }
    }

    /** A locked buffer with the newest contents of the block. */
    method Bread(blockno: nat) returns (r: Option<nat>)
      requires Valid() && Unlocked(buf, blockno)
      modifies `buf, `holders
      ensures Valid() && (old(Lru()) ==> Lru())
      ensures r == None <==> !Cached(old(buf), blockno) && !SomeFree(old(buf))
      ensures r == None ==> State() == old(State())
      ensures r.Some? ==>
                && r.value < NBUF && r.value !in dirty
                && holders == old(holders)[r.value := old(holders)[r.value] + 1]
                && buf == old(buf)[r.value := Buf(ROOTDEV, blockno, true, true, old(buf)[r.value].refcnt + 1,
                     At(logical, blockno))]
      ensures r.Some? ==>
                if Cached(old(buf), blockno) then Caches(old(buf)[r.value], blockno)
                else old(buf)[r.value].refcnt == 0
    {
      hide Unique, Counted, Coherent, Linked, LruSorted;
      r := Bget(blockno);
      if r.Some? {
        Load(r.value);
      }
    }

    /** A holder of the lock changes the contents; they must be logged or written before
        the buffer is released. */
    method Modify(i: nat, data: Block)
      requires Valid() && i < NBUF && buf[i].valid && buf[i].locked
      modifies `buf, `dirty
      ensures Valid() && (old(Lru()) ==> Lru())
      ensures State() == Modified(old(State()), i, data)
    {
      hide Unique, Counted, Coherent, Linked, LruSorted;
      ModifiedGood(State(), i, data);
      if Lru() { LruKept(buf, i, buf[i].(data := data), order, stamp, clock); }
      buf := buf[i := buf[i].(data := data)];
      dirty := dirty + {i};
    }

    method Bwrite(i: nat)
      requires Valid() && i < NBUF && buf[i].valid && buf[i].locked
      modifies `disk, `logical, `trace, `dirty
      ensures Valid() && (old(Lru()) ==> Lru())
      ensures State() == Written(old(State()), i)
      ensures trace == old(trace) + [Write(buf[i].blockno, buf[i].data)]
    {
      hide Unique, Counted, Coherent, Linked, LruSorted;
      WrittenGood(State(), i);
      disk := disk[buf[i].blockno := buf[i].data];
      logical := logical[buf[i].blockno := buf[i].data];
      trace := trace + [Write(buf[i].blockno, buf[i].data)];
      dirty := dirty - {i};
    }

    /** Unlink buffer i and link it again behind the list head. */
    method MoveToFront(i: nat)
      requires Listed(next, prev, order) && i in order
      modifies `next, `prev, `order
      ensures Listed(next, prev, order)
      ensures order == ToFront(old(order), Pos(old(order), i))
    {
      hide Linked;
      ghost var k := Pos(order, i);
      ToFrontListed(next, prev, order, k);
      hide Listed;
      prev := prev[next[i] := prev[i]];
      next := next[prev[i] := next[i]];
      next := next[i := next[HEAD]];
      prev := prev[i := HEAD];
      prev := prev[next[HEAD] := i];
      next := next[HEAD := i];
      order := ToFront(order, k);
    }

    /** Release a locked buffer; the last holder moves it to the front of the list. */
    method Brelse(i: nat)
      requires Valid() && i < NBUF && buf[i].locked && i !in dirty
      modifies `buf, `next, `prev, `order, `stamp, `clock, `holders
      ensures Valid() && (old(Lru()) ==> Lru())
      ensures holders[i] + 1 == old(holders)[i] && buf[i].refcnt + 1 == old(buf)[i].refcnt
      ensures State() == Released(old(State()), i)
      ensures buf[i].refcnt == 0 ==>
                && order == ToFront(old(order), Pos(old(order), i))
                && stamp == old(stamp)[i := old(clock)] && clock == old(clock) + 1
      ensures buf[i].refcnt > 0 ==> order == old(order) && stamp == old(stamp) && clock == old(clock)
    {
      hide Unique, Counted, Coherent, Linked, LruSorted;
      HoldersCount(State(), i);
      ReleasedGood(State(), i);
      assert i in order;
      buf := buf[i := buf[i].(refcnt := buf[i].refcnt - 1, locked := false)];
      holders := holders[i := holders[i] - 1];
      if buf[i].refcnt == 0 {
        if old(Lru()) { LruReleased(old(buf), Pos(order, i), buf[i], order, stamp, clock); }
        MoveToFront(i);
        stamp, clock := stamp[i := clock], clock + 1;
      } else if old(Lru()) {
        LruKept(old(buf), i, buf[i], order, stamp, clock);
      }
    }

    /** Keep the buffer of a block that enters the log header. */
    method Bpin(i: nat)
      requires Valid() && i < NBUF && buf[i].valid && buf[i].blockno !in pins
      modifies `buf, `pins
      ensures Valid() && (old(Lru()) ==> Lru())
      ensures State() == Pinned(old(State()), i)
    {
      hide Unique, Counted, Coherent, Linked, LruSorted;
      PinnedGood(State(), i);
      if Lru() { LruKept(buf, i, buf[i].(refcnt := buf[i].refcnt + 1), order, stamp, clock); }
      pins := pins[buf[i].blockno := i];
      buf := buf[i := buf[i].(refcnt := buf[i].refcnt + 1)];
    }

    /** Let go of the buffer of a block that is installed. The list order survives if
        someone still holds the buffer, so that Brelse is what brings its count to zero. */
    method Bunpin(i: nat)
      requires Valid() && i < NBUF && Pin(State(), i) == 1
      requires At(disk, buf[i].blockno) == At(logical, buf[i].blockno)
      modifies `buf, `pins
      ensures Valid() && old(buf)[i].refcnt > 0
      ensures old(Lru()) && old(buf)[i].refcnt > 1 ==> Lru()
      ensures State() == Unpinned(old(State()), i)
    {
      hide Unique, Counted, Coherent, Linked, LruSorted;
      HoldersCount(State(), i);
      UnpinnedGood(State(), i);
      if Lru() && buf[i].refcnt > 1 { LruKept(buf, i, buf[i].(refcnt := buf[i].refcnt - 1), order, stamp, clock); }
      pins := pins - {buf[i].blockno};
      buf := buf[i := buf[i].(refcnt := buf[i].refcnt - 1)];
    }

    /** The contents of a locked buffer of a pinned block become the newest of that block. */
    ghost method Record(i: nat)
      requires Valid() && i < NBUF && buf[i].valid && buf[i].blockno in pins
      modifies `logical, `dirty
      ensures Valid()
      ensures State() == Recorded(old(State()), i)
    {
      hide Unique, Counted, Coherent, Linked, LruSorted;
      RecordedGood(State(), i);
      logical := logical[buf[i].blockno := buf[i].data];
      dirty := dirty - {i};
    }
  }
}
