/** malloc and free of umalloc.c. Addresses count header units; a block is named by the
    address of its header, so the pointer handed to the caller is one unit further. */
module Umalloc {
  import opened Options
  import opened FreeList
  import opened Sets

  const UNIT: nat := 16              // sizeof(Header)
  const MORECORE: nat := 4096        // least number of units to ask of sbrk
  const MAXREQUEST: nat := 0x8000_0000 - 2 * UNIT

  ghost function HandedOut(a: Arena): set<nat> {
    a.blocks.Keys - SetOf(a.list)
  }

  /** Some free block has at least n units. */
  ghost predicate HasFit(a: Arena, n: nat) {
    exists j :: 1 <= j < |a.list| && Units(a, a.list[j]) >= n
  }

  /** Handed-out blocks other than those in x stay as they are. */
  ghost predicate KeepsBlocks(a: Arena, c: Arena, x: set<nat>) {
    forall b | b in HandedOut(a) - x :: b in c.blocks && c.blocks[b] == a.blocks[b]
  }

  function NUnits(nbytes: nat): nat {
    (nbytes + UNIT - 1) / UNIT + 1
  }

  /** The units morecore asks for. */
  function Asked(nu: nat): (n: nat)
    ensures n >= nu && n >= MORECORE && (n == nu || n == MORECORE)
  {
    if nu < MORECORE then MORECORE else nu
  }

  // ----- the search of free

  /** The condition that ends the search loop of free at p, whose successor is q. */
  predicate Stops(p: nat, q: nat, bp: nat) {
    (bp > p && bp < q) || (p >= q && (bp > p || bp < q))
  }

  /** The search stops at the one position behind which bp belongs. */
  lemma StopsAtSlot(list: seq<nat>, i: nat, bp: nat)
    requires Ascending(list) && i < |list| && list[0] < bp && bp !in list
    ensures Stops(list[i], Succ(list, i), bp) <==> Slot(list, i, bp)
  {
    if i + 1 == |list| {
      assert list[0] <= list[i];
    } else {
      assert list[i] < list[i + 1];
    }
  }

  /** That position. */
  ghost function SlotOf(list: seq<nat>, bp: nat): (k: nat)
    requires Ascending(list) && |list| > 0 && list[0] < bp && bp !in list
    ensures k < |list| && Slot(list, k, bp)
    decreases |list|
  {
    if list[|list| - 1] < bp then |list| - 1
    else
      assert |list| > 1;
      SlotOf(list[..|list| - 1], bp)
  }

  lemma SlotGreatest(list: seq<nat>, k: nat, bp: nat)
    requires Ascending(list) && Slot(list, k, bp)
    ensures list[k] < bp && forall b | b in list && b < bp :: b <= list[k]
  {
    forall b | b in list && b < bp ensures b <= list[k] {
      var i :| 0 <= i < |list| && list[i] == b;
      assert i <= k;
    }
  }

  lemma SlotUnique(list: seq<nat>, i: nat, k: nat, bp: nat)
    requires Ascending(list) && Slot(list, i, bp) && Slot(list, k, bp)
    ensures i == k
  {
  }

  class Umalloc {
    const base: nat                  // address of the header named base, below the heap
    var ptr: map<nat, nat>
    var size: map<nat, nat>
    var freep: Option<nat>
    var obtained: nat                // units that sbrk has given

    ghost var arena: Arena
    ghost var top: nat               // everything sbrk gave lies below

    ghost predicate Valid()
      reads this
    {
      && arena.base == base < top
      && (forall u | u in arena.owner :: u < top)
      && (freep == None ==> arena == Arena(base, [base], map[], map[]))
      && (freep.Some? ==> Good(arena) && Links(ptr, arena.list) && Sizes(size, arena) && freep.value in arena.list)
    }

    /** The blocks handed out and not yet freed. */
    ghost function Handed(): set<nat>
      reads this
    {
      HandedOut(arena)
    }

    constructor (b: nat, t: nat)
      requires b < t
      ensures Valid() && freep == None && base == b && top == t && Handed() == {} && Counted(obtained, arena.owner.Keys)
    {
      base, top, freep, ptr, size, obtained := b, t, None, map[], map[], 0;
      arena := Arena(b, [b], map[], map[]);
    }

    /** The for loop of free: the free block after which bp belongs. */
    method FindSlot(bp: nat) returns (p: nat, ghost k: nat)
      requires Valid() && freep.Some? && base < bp && bp !in arena.list
      ensures Slot(arena.list, k, bp) && p == arena.list[k]
      ensures p in arena.list && p < bp && forall b | b in arena.list && b < bp :: b <= p
    {
      hide Tiled, Ascending, Slot, Stops, Apart, Sizes, Links;
      ghost var list := arena.list;
      ghost var s := SlotOf(list, bp);
      p := freep.value;
      k :| 0 <= k < |list| && list[k] == p;
      FieldsAt(ptr, size, arena, k);
      while !Stops(p, ptr[p], bp)
        invariant k < |list| && p == list[k] && p in ptr && ptr[p] == Succ(list, k)
        decreases if k <= s then s - k else |list| - k + s
      {
        StopsAtSlot(list, k, bp);
        p := ptr[p];
        k := if k + 1 == |list| then 0 else k + 1;
        FieldsAt(ptr, size, arena, k);
      }
      StopsAtSlot(list, k, bp);
      SlotGreatest(list, k, bp);
    }

    /** The first half of free: bp takes in the free block right above it. Its list entry is
        complete once p points to it. */
    method JoinUpper(bp: nat, p: nat, ghost k: nat)
      requires Good(arena) && Links(ptr, arena.list) && Sizes(size, arena)
      requires bp in arena.blocks && bp !in arena.list && Slot(arena.list, k, bp) && p == arena.list[k]
      modifies `ptr, `size, `arena
      ensures arena == JoinedUpper(old(arena), k, bp)
      ensures Loose(arena) && Apart(arena, {k}) && k + 1 < |arena.list| && arena.list[k] == p && arena.list[k + 1] == bp
      ensures Links(ptr[p := bp], arena.list) && Sizes(size, arena) && bp in ptr
    {
      hide Loose, Apart, Links, Sizes, JoinedUpper;
      JoinedUpperGood(arena, k, bp);
      UpperFields(ptr, size, arena, k, bp);
      ghost var d := JoinedUpper(arena, k, bp);
      var next := ptr[p];
      if bp + size[bp] == next {
        size := size[bp := size[bp] + size[next]];
        ptr := ptr[bp := ptr[next]];
      } else {
        ptr := ptr[bp := next];
      }
      arena := d;
    }

    /** The second half: p takes in bp if they touch, or else points to it. */
    method JoinLower(bp: nat, p: nat, ghost k: nat)
      requires Loose(arena) && Apart(arena, {k}) && k + 1 < |arena.list| && arena.list[k] == p
      requires arena.list[k + 1] == bp
      requires Links(ptr[p := bp], arena.list) && Sizes(size, arena) && bp in ptr
      modifies `ptr, `size, `arena
      ensures arena == JoinedLower(old(arena), k)
      ensures Good(arena) && Links(ptr, arena.list) && Sizes(size, arena)
      ensures k < |arena.list| && arena.list[k] == p
    {
      hide Loose, Apart, Good, Links, Sizes, JoinedLower;
      JoinedLowerGood(arena, k);
      LowerFields(ptr, size, arena, k);
      ghost var d := JoinedLower(arena, k);
      if p + size[p] == bp {
        size := size[p := size[p] + size[bp]];
        ptr := ptr[p := ptr[bp]];
      } else {
        ptr := ptr[p := bp];
      }
      arena := d;
    }

    /** free: give back the block that ap points into. */
    method Free(ap: nat)
      requires Valid() && ap > 0 && ap - 1 in Handed()
      modifies `ptr, `size, `freep, `arena
      ensures Valid() && freep.Some?
      ensures arena == Freed(old(arena), ap - 1)
      ensures Handed() == old(Handed()) - {ap - 1} && KeepsBlocks(old(arena), arena, {ap - 1})
      ensures arena.owner.Keys == old(arena).owner.Keys
      ensures HasFit(arena, old(arena).blocks[ap - 1])
      ensures var p := freep.value;
              p in old(arena).list && p < ap - 1 && forall b | b in old(arena).list && b < ap - 1 :: b <= p
    {
      hide Loose, Apart, Links, Sizes, JoinedUpper, JoinedLower, Slot, HasFit, KeepsBlocks;
      var bp := ap - 1;
      HandedAboveBase(arena, bp);
      var p, k := FindSlot(bp);
      SlotUnique(arena.list, k, SlotOf(arena.list, bp), bp);
      FreedKeeps(arena, bp);
      JoinUpper(bp, p, k);
      JoinLower(bp, p, k);
      freep := Some(p);
      assert arena.list[k] in arena.list;
      assert forall u | u in arena.owner :: u in arena.owner.Keys;
    }

    /** morecore: a new block of at least MORECORE units, freed at once. grant is what sbrk
        answers: the address of the new units, or None for SBRK_ERROR. It gives that many units
        only if that is what its int argument says. */
    method Morecore(nu: nat, grant: Option<nat>) returns (ok: bool)
      requires Valid() && freep.Some? && (grant.Some? ==> grant.value >= top && Exact(Asked(nu)))
      modifies `ptr, `size, `freep, `obtained, `arena, `top
      ensures Valid() && freep.Some? && ok == grant.Some?
      ensures !ok ==> arena == old(arena) && freep == old(freep) && top == old(top)
      ensures obtained == old(obtained) + if ok then Asked(nu) else 0
      ensures Handed() == old(Handed()) && KeepsBlocks(old(arena), arena, {})
      ensures ok ==> HasFit(arena, nu) && top == grant.value + Asked(nu)
      ensures ok ==> arena.owner.Keys == old(arena).owner.Keys + Span(grant.value, Asked(nu), grant.value).Keys
    {
      hide Apart, Links, Span, Freed, Tiled, Ascending, KeepsBlocks, HasFit;
      if grant == None {
        KeepsSelf(arena);
        return false;
      }
      var n := Asked(nu);
      var hp := grant.value;
      GrownGood(arena, hp, n);
      GrownHanded(arena, hp, n);
      size := size[hp := n];
      top, obtained := hp + n, obtained + n;
      arena := Grown(arena, hp, n);
      ghost var g := arena;
      Free(hp + 1);
      FitLess(arena, n, nu);
      KeepsAround(old(arena), g, arena, hp);
      return true;
    }

    /** Hand out nunits of the free block p, which follows prevp on the list. */
    method Take(p: nat, prevp: nat, nunits: nat, ghost j: nat) returns (b: nat)
      requires Valid() && freep.Some? && nunits > 0
      requires 1 <= j < |arena.list| && p == arena.list[j] && prevp == arena.list[j - 1] && Units(arena, p) >= nunits
      modifies `ptr, `size, `freep, `arena
      ensures Valid() && freep == Some(prevp)
      ensures arena == Taken(old(arena), j, nunits)
      ensures Handed() == old(Handed()) + {b} && b !in old(Handed()) && KeepsBlocks(old(arena), arena, {})
      ensures b in arena.blocks && arena.blocks[b] == nunits && arena.owner.Keys == old(arena).owner.Keys
      ensures b + nunits == p + Units(old(arena), p)
    {
      hide Apart, Tiled, Links, Sizes, Drop, SplitBlocks, SplitOwner, KeepsBlocks;
      TakenKeeps(arena, j, nunits);
      TakenFields(ptr, size, arena, j, nunits);
      ghost var c := Taken(arena, j, nunits);
      b := p;
      if size[p] == nunits {
        ptr := ptr[prevp := ptr[p]];
      } else {
        size := size[p := size[p] - nunits];
        b := p + size[p];
        size := size[b := nunits];
      }
      freep := Some(prevp);
      arena := c;
      assert forall u | u in arena.owner :: u in arena.owner.Keys;
    }

    /** The loop of malloc, from freep all the way round: the first block that fits and the
        one before it, or the base header when the loop comes back to freep empty-handed. */
    method Scan(nunits: nat, ghost f: nat) returns (p: nat, prevp: nat, ghost j: nat)
      requires Valid() && freep.Some? && nunits > 0 && f < |arena.list| && arena.list[f] == freep.value
      ensures p == base <==> !HasFit(arena, nunits)
      ensures p != base ==>
                && 1 <= j < |arena.list| && p == arena.list[j] && prevp == arena.list[j - 1]
                && Units(arena, p) >= nunits && FirstFit(arena, f, j, nunits)
    {
      hide Apart, Loose, Links, Sizes, Small, FirstFit, HasFit;
      LooseAscending(arena);
      prevp := freep.value;
      FieldsAt(ptr, size, arena, f);
      p := ptr[prevp];
      ghost var wrapped := f + 1 == |arena.list|;
      j := if wrapped then 0 else f + 1;
      SmallStart(arena, f, nunits);
      FieldsAt(ptr, size, arena, j);
      while size[p] < nunits
        invariant j < |arena.list| && p == arena.list[j]
        invariant prevp == arena.list[if j == 0 then |arena.list| - 1 else j - 1]
        invariant Small(arena, f, j, wrapped, nunits) && p in size && size[p] == Units(arena, p)
        decreases if wrapped then f - j else |arena.list| - j + f
      {
        FieldsAt(ptr, size, arena, j);
        SmallStep(arena, f, j, wrapped, nunits);
        if p == freep.value {
          return base, base, 0;
        }
        prevp := p;
        p := ptr[p];
        j := j + 1;
        if j == |arena.list| {
          j, wrapped := 0, true;
        }
        FieldsAt(ptr, size, arena, j);
      }
      SmallFound(arena, f, j, wrapped, nunits);
    }

    /** malloc: first fit from freep on, asking sbrk for more if nothing fits. grant is what
        sbrk answers if it is called; it is called at most once, and what it gives is what malloc
        needs exactly up to MAXREQUEST bytes (SbrkArgumentExact). */
    method Malloc(nbytes: nat, grant: Option<nat>) returns (r: Option<nat>, ghost j: nat)
      requires Valid() && (grant.Some? ==> grant.value >= top && nbytes <= MAXREQUEST)
      modifies `ptr, `size, `freep, `obtained, `arena, `top
      ensures Valid() && freep.Some?
      ensures r == None <==> !HasFit(old(arena), NUnits(nbytes)) && grant == None
      ensures KeepsBlocks(old(arena), arena, {})
      ensures r == None ==> Handed() == old(Handed()) && arena == old(arena) && top == old(top)
      ensures r.Some? ==>
                && r.value > 0 && Handed() == old(Handed()) + {r.value - 1} && r.value - 1 !in old(Handed())
                && r.value - 1 in arena.blocks && arena.blocks[r.value - 1] == NUnits(nbytes)
      ensures HasFit(old(arena), NUnits(nbytes)) ==>
                && 1 <= j < |old(arena).list| && Units(old(arena), old(arena).list[j]) >= NUnits(nbytes)
                && arena == Taken(old(arena), j, NUnits(nbytes)) && top == old(top) && r.Some?
                && r.value - 1 + NUnits(nbytes) == End(old(arena), j)
                && arena.owner.Keys == old(arena).owner.Keys
                && FirstFit(old(arena), PosOf(old(arena).list, if old(freep) == None then base else old(freep).value),
                     j, NUnits(nbytes))
      ensures r.Some? && !HasFit(old(arena), NUnits(nbytes)) ==>
                && top == grant.value + Asked(NUnits(nbytes))
                && arena.owner.Keys == old(arena).owner.Keys + Span(grant.value, Asked(NUnits(nbytes)),
                     grant.value).Keys
      ensures obtained == old(obtained) +
                if HasFit(old(arena), NUnits(nbytes)) || grant == None then 0
                else Asked(NUnits(nbytes))
    {
      hide Links, Sizes, KeepsBlocks, HasFit, FirstFit, Taken, Span, Apart, Loose;
      var nunits := NUnits(nbytes);
      ghost var a := arena;
      SbrkArgumentExact(nbytes);
      EmptyGood(base);
      if freep == None {
        ptr, size := map[base := base], map[base := 0];
        freep := Some(base);
      }
      KeepsSelf(a);
      ghost var f := PosOf(arena.list, freep.value);
      var p, prevp;
      p, prevp, j := Scan(nunits, f);
      if p == base {
        var ok := Morecore(nunits, grant);
        if !ok {
          return None, 0;
        }
        ghost var i := PosOf(arena.list, freep.value);
        ghost var m := arena;
        p, prevp, i := Scan(nunits, i);
        var b := Take(p, prevp, nunits, i);
        KeepsTrans(a, m, arena);
        return Some(b + 1), 0;
      }
      var b := Take(p, prevp, nunits, j);
      return Some(b + 1), j;
    }

    /** One call, and where sbrk goes on after it. */
    method Do(op: Op, live: set<nat>, brk: nat) returns (r: Option<nat>, now: set<nat>, end: nat)
      requires Valid() && top <= brk && Counted(obtained, arena.owner.Keys) && Served(op)
      requires forall ap: nat :: ap in live <==> ap > 0 && ap - 1 in Handed()
      modifies `ptr, `size, `freep, `obtained, `arena, `top
      ensures Valid() && top <= end && Counted(obtained, arena.owner.Keys)
      ensures forall ap: nat :: ap in now <==> ap > 0 && ap - 1 in Handed()
      ensures Answered(old(arena), live, op, r, arena, now)
    {
      hide HasFit, KeepsBlocks, FirstFit, Taken, Freed, HandedOut, Valid, Span, Units, Counted, End, Good;
      r, now, end := None, live, brk;
      match op
      case Alloc(nbytes, gap) =>
        var grant := if gap.Some? then Some(brk + gap.value) else None;
        ghost var j := 0;
        Below();
        if grant.Some? { CountedMore(obtained, arena.owner.Keys, grant.value, Asked(NUnits(nbytes))); }
        r, j := Malloc(nbytes, grant);
        if r.Some? { now := live + {r.value}; }
        if gap.Some? { end := brk + gap.value + Asked(NUnits(nbytes)); }
      case Release(ap) =>
        if ap in live {
          Free(ap);
          now := live - {ap};
        }
    }

    /** Over any run of malloc and free the pointers in use are those of the blocks handed out, each call
        did what it should, and free and handed-out blocks together are as large as what sbrk gave. brk is
        where sbrk goes on. */
    method Run(ops: seq<Op>, brk: nat)
      returns (live: set<nat>, answers: seq<Option<nat>>, ghost arenas: seq<Arena>, ghost lives: seq<set<nat>>)
      requires Valid() && Handed() == {} && top <= brk && Counted(obtained, arena.owner.Keys)
      requires forall k | 0 <= k < |ops| :: Served(ops[k])
      modifies `ptr, `size, `freep, `obtained, `arena, `top
      ensures Valid() && Sum(arena.blocks) == obtained
      ensures forall ap: nat :: ap in live <==> ap > 0 && ap - 1 in Handed()
      ensures |answers| == |ops| && |arenas| == |lives| == |ops| + 1
      ensures arenas[0] == old(arena) && arenas[|ops|] == arena && lives[0] == {} && lives[|ops|] == live
      ensures forall k | 0 <= k < |ops| ::
                Answered(arenas[k], lives[k], ops[k], answers[k], arenas[k + 1], lives[k + 1])
    {
      hide HandedOut, Valid, Counted, Answered, Served;
      live, answers, arenas, lives := {}, [], [arena], [{}];
      var end := brk;
      for k := 0 to |ops|
        invariant Valid() && top <= end && Counted(obtained, arena.owner.Keys)
        invariant forall ap: nat :: ap in live <==> ap > 0 && ap - 1 in Handed()
        invariant |answers| == k && |arenas| == |lives| == k + 1
        invariant arenas[0] == old(arena) && arenas[k] == arena && lives[0] == {} && lives[k] == live
        invariant forall i | 0 <= i < k ::
                    Answered(arenas[i], lives[i], ops[i], answers[i], arenas[i + 1], lives[i + 1])
      {
        var r;
        r, live, end := Do(ops[k], live, end);
        answers, arenas, lives := answers + [r], arenas + [arena], lives + [live];
      }
      Conserved();
    }

    lemma Below()
      requires Valid()
      ensures forall u | u in arena.owner.Keys :: u < top
    {
    }

    lemma Conserved()
      requires Valid() && Counted(obtained, arena.owner.Keys)
      ensures Sum(arena.blocks) == obtained
    {
      hide Links, Sizes, Apart;
      TiledSum(arena.blocks, arena.owner);
    }
  }

  /** A call of malloc, with where sbrk would put new memory (None if it fails), or of free. */
  datatype Op = Alloc(nbytes: nat, gap: Option<nat>) | Release(ap: nat)

  /** What a call does to the heap and to the pointers in use: malloc gives a new block of the size asked
      for unless nothing fits and sbrk fails, free takes back the block of a pointer in use, and neither
      touches any other block handed out. */
  ghost predicate Answered(a: Arena, live: set<nat>, op: Op, r: Option<nat>, c: Arena, now: set<nat>) {
    match op
    case Alloc(nbytes, gap) =>
      && (r == None <==> !HasFit(a, NUnits(nbytes)) && gap == None)
      && KeepsBlocks(a, c, {})
      && if r == None then c == a && now == live
         else
           && r.value > 0 && r.value !in live && now == live + {r.value}
           && HandedOut(c) == HandedOut(a) + {r.value - 1}
           && r.value - 1 in c.blocks && c.blocks[r.value - 1] == NUnits(nbytes)
    case Release(ap) =>
      if ap !in live then c == a && now == live
      else
        && ap > 0 && now == live - {ap} && HandedOut(c) == HandedOut(a) - {ap - 1}
        && KeepsBlocks(a, c, {ap - 1}) && c.owner.Keys == a.owner.Keys
  }

  /** sbrk gives memory only for requests that reach it as they are. */
  predicate Served(op: Op) {
    op.Alloc? && op.gap.Some? ==> op.nbytes <= MAXREQUEST
  }

  /** bp on the list behind position k, together with the block right above it if it is free. */
  ghost function JoinedUpper(a: Arena, k: nat, bp: nat): Arena
    requires Loose(a) && bp in a.blocks && Slot(a.list, k, bp)
  {
    var c := Inserted(a, k, bp);
    if k + 2 < |c.list| && bp + a.blocks[bp] == c.list[k + 2] then
      assert c.list[k + 2] == a.list[k + 1];
      Merged(c, k + 1)
    else c
  }

  /** What the code compares is what touching means. */
  lemma UpperTouch(a: Arena, k: nat, bp: nat)
    requires Loose(a) && bp in a.blocks && Slot(a.list, k, bp)
    ensures var c := Inserted(a, k, bp);
            && |c.list| == |a.list| + 1 && c.list[k] == a.list[k] && c.list[k + 1] == bp
            && (k + 2 < |c.list| ==> c.list[k + 2] == a.list[k + 1] && Succ(c.list, k + 1) == a.list[k + 1])
            && (bp + a.blocks[bp] == Succ(a.list, k) <==> k + 2 < |c.list| && Touch(c, k + 1))
  {
    hide Tiled;
  }

  lemma JoinedUpperGood(a: Arena, k: nat, bp: nat)
    requires Good(a) && bp in a.blocks && Slot(a.list, k, bp)
    ensures var d := JoinedUpper(a, k, bp);
            && Loose(d) && Apart(d, {k})
            && k + 1 < |d.list| && d.list[k] == a.list[k] && d.list[k + 1] == bp
  {
    hide Tiled, Insert, Drop, Ascending, MergeBlocks, MergeOwner;
    var c := Inserted(a, k, bp);
    InsertedApart(a, k, bp);
    UpperTouch(a, k, bp);
    if k + 2 < |c.list| && Touch(c, k + 1) {
      MergedLoose(c, k + 1);
      assert {k} + {k + 1} == {k, k + 1};
      MergedApart(c, k + 1, {k});
      LooseAscending(c);
      DropAscending(c.list, k + 2);
    } else {
      ApartLess(c, k);
    }
  }

  lemma LooseAscending(a: Arena)
    requires Loose(a)
    ensures Ascending(a.list)
  {
  }

  lemma ApartLess(a: Arena, k: nat)
    requires Apart(a, {k, k + 1}) && (k + 2 < |a.list| ==> !Touch(a, k + 1))
    ensures Apart(a, {k})
  {
    forall i: nat | i + 1 < |a.list| && i !in {k} ensures !Touch(a, i) {
    }
  }

  lemma MergedSizes(size: map<nat, nat>, a: Arena, j: nat)
    requires Sizes(size, a) && Loose(a) && 1 <= j && j + 1 < |a.list|
    ensures a.list[j] in size && a.list[j + 1] in size
    ensures Sizes(size[a.list[j] := size[a.list[j]] + size[a.list[j + 1]]], Merged(a, j))
  {
  }

  /** The fields that the first half of free writes are those of the blocks of d. */
  ghost predicate UpperLinked(ptr: map<nat, nat>, size: map<nat, nat>, d: Arena, p: nat, bp: nat) {
    && p in ptr && bp in size
    && var next := ptr[p];
    if bp + size[bp] == next then
      && next in ptr && next in size
      && Links(ptr[bp := ptr[next]][p := bp], d.list) && Sizes(size[bp := size[bp] + size[next]], d)
    else
      Links(ptr[bp := next][p := bp], d.list) && Sizes(size, d)
  }

  lemma UpperFields(ptr: map<nat, nat>, size: map<nat, nat>, a: Arena, k: nat, bp: nat)
    requires Good(a) && Links(ptr, a.list) && Sizes(size, a)
    requires bp in a.blocks && bp !in a.list && Slot(a.list, k, bp)
    ensures UpperLinked(ptr, size, JoinedUpper(a, k, bp), a.list[k], bp)
  {
    hide Tiled, Insert, Drop, Ascending, MergeBlocks, MergeOwner, Apart, Links, Succ;
    FieldsAt(ptr, size, a, k);
    UpperTouch(a, k, bp);
    LooseAscending(a);
    LinksInsert(ptr, a.list, k, bp);
    InsertedApart(a, k, bp);
    var c := Inserted(a, k, bp);
    if bp + size[bp] == Succ(a.list, k) {
      FieldsAt(ptr, size, a, k + 1);
      UpperLinks(ptr, a, k, bp);
      MergedSizes(size, c, k + 1);
    }
  }

  lemma UpperLinks(ptr: map<nat, nat>, a: Arena, k: nat, bp: nat)
    requires Loose(a) && Links(ptr, a.list) && bp in a.blocks && bp !in a.list && Slot(a.list, k, bp)
    requires k + 1 < |a.list|
    ensures var p: nat, next: nat := a.list[k], a.list[k + 1];
            next in ptr && Links(ptr[bp := ptr[next]][p := bp], Drop(Insert(a.list, k, bp), k + 2))
  {
    hide Tiled, Insert, Drop, Ascending, Links, Succ;
    var p: nat, next: nat, l := a.list[k], a.list[k + 1], Insert(a.list, k, bp);
    LooseAscending(a);
    InsertAscending(a.list, k, bp);
    SuccInsert(a.list, k, bp);
    LinksInsert(ptr, a.list, k, bp);
    LinkAt(ptr, a.list, k + 1);
    var q := ptr[bp := next][p := bp];
    LinksDrop(q, l, k + 2);
    assert q[bp := ptr[next]] == ptr[bp := ptr[next]][p := bp];
  }

  lemma LinkAt(ptr: map<nat, nat>, list: seq<nat>, i: nat)
    requires Links(ptr, list) && i < |list|
    ensures list[i] in ptr && ptr[list[i]] == Succ(list, i)
  {
  }

  lemma SuccInsert(list: seq<nat>, k: nat, b: nat)
    requires k + 1 < |list| && Ascending(list)
    ensures var l := Insert(list, k, b);
            && |l| == |list| + 1 && l[k + 1] == b && l[k + 2] == list[k + 1]
            && Succ(l, k + 2) == Succ(list, k + 1) && Succ(list, k) == list[k + 1] && list[k] != list[k + 1]
  {
    hide Insert;
    InsertAt(list, k, b);
    assert Insert(list, k, b)[0] == list[0];
  }

  /** bp at position k + 1 joined with the block at position k, if they touch. */
  ghost function JoinedLower(a: Arena, k: nat): Arena
    requires Loose(a) && k + 1 < |a.list|
  {
    if Touch(a, k) then BaseApart(a); Merged(a, k) else a
  }

  lemma JoinedLowerGood(a: Arena, k: nat)
    requires Loose(a) && Apart(a, {k}) && k + 1 < |a.list|
    ensures Good(JoinedLower(a, k))
    ensures k < |JoinedLower(a, k).list| && JoinedLower(a, k).list[k] == a.list[k]
  {
    hide Tiled, Drop, Ascending, MergeBlocks, MergeOwner;
    if Touch(a, k) {
      BaseApart(a);
      MergedLoose(a, k);
      assert {} + {k} == {k};
      MergedApart(a, k, {});
      LooseAscending(a);
      DropAscending(a.list, k + 1);
    }
  }

  lemma LowerFields(ptr: map<nat, nat>, size: map<nat, nat>, a: Arena, k: nat)
    requires Loose(a) && k + 1 < |a.list|
    requires Links(ptr[a.list[k] := a.list[k + 1]], a.list) && Sizes(size, a)
    ensures var p, bp, d := a.list[k], a.list[k + 1], JoinedLower(a, k);
            && p in size && bp in size && bp in ptr
            && if p + size[p] == bp then
                 Links(ptr[p := ptr[bp]], d.list) && Sizes(size[p := size[p] + size[bp]], d)
               else
                 Links(ptr[p := bp], d.list) && Sizes(size, d)
  {
    hide Tiled, Drop, Ascending, MergeBlocks, MergeOwner, Links, Sizes, Succ;
    var p, bp := a.list[k], a.list[k + 1];
    var q := ptr[p := bp];
    LooseAscending(a);
    NextDiffers(a.list, k);
    FieldsAt(q, size, a, k);
    FieldsAt(q, size, a, k + 1);
    if Touch(a, k) {
      BaseApart(a);
      LinksDrop(q, a.list, k + 1);
      assert q[p := q[bp]] == ptr[p := ptr[bp]];
      MergedSizes(size, a, k);
    }
  }

  lemma NextDiffers(list: seq<nat>, k: nat)
    requires Ascending(list) && k + 1 < |list|
    ensures list[k] != list[k + 1]
  {
  }

  // ----- what free leaves alone

  lemma HandedAboveBase(a: Arena, b: nat)
    requires Good(a) && b in HandedOut(a)
    ensures a.base < b && b !in a.list && Ascending(a.list) && |a.list| > 0 && a.list[0] == a.base
  {
  }

  lemma InsertedHanded(a: Arena, k: nat, b: nat)
    requires k < |a.list|
    ensures HandedOut(Inserted(a, k, b)) == HandedOut(a) - {b}
  {
    assert SetOf(Insert(a.list, k, b)) == SetOf(a.list) + {b};
  }

  lemma MergedHanded(a: Arena, j: nat)
    requires Loose(a) && 1 <= j && j + 1 < |a.list|
    ensures HandedOut(Merged(a, j)) == HandedOut(a)
    ensures KeepsBlocks(a, Merged(a, j), {})
    ensures Merged(a, j).owner.Keys == a.owner.Keys
  {
    var p, b := a.list[j], a.list[j + 1];
    assert a.list == a.list[..j + 1] + [b] + a.list[j + 2..];
    assert SetOf(a.list) == SetOf(Drop(a.list, j + 1)) + {b};
    assert p in SetOf(a.list);
    ListDistinct(a.list);
    assert b !in Drop(a.list, j + 1);
  }

  /** The arena after free: bp on the list, joined with the free blocks it touches. */
  ghost function Freed(a: Arena, bp: nat): Arena
    requires Good(a) && bp in HandedOut(a)
  {
    HandedAboveBase(a, bp);
    var k := SlotOf(a.list, bp);
    JoinedUpperGood(a, k, bp);
    JoinedLower(JoinedUpper(a, k, bp), k)
  }

  /** The freed block, or one that took it in, has at least its units. */
  lemma FreedKeeps(a: Arena, bp: nat)
    requires Good(a) && bp in HandedOut(a)
    ensures var f := Freed(a, bp);
            && HandedOut(f) == HandedOut(a) - {bp} && KeepsBlocks(a, f, {bp})
            && f.owner.Keys == a.owner.Keys && f.base == a.base
            && HasFit(f, a.blocks[bp])
  {
    hide JoinedUpper, JoinedLower, Slot, Loose, Apart;
    HandedAboveBase(a, bp);
    var k := SlotOf(a.list, bp);
    UpperKeeps(a, k, bp);
    LowerKeeps(JoinedUpper(a, k, bp), k);
  }

  lemma UpperKeeps(a: Arena, k: nat, bp: nat)
    requires Good(a) && bp in HandedOut(a) && Slot(a.list, k, bp)
    ensures var u := JoinedUpper(a, k, bp);
            && Loose(u) && Apart(u, {k}) && k + 1 < |u.list| && u.list[k + 1] == bp
            && HandedOut(u) == HandedOut(a) - {bp} && KeepsBlocks(a, u, {bp})
            && u.owner.Keys == a.owner.Keys && u.base == a.base
            && bp in u.blocks && u.blocks[bp] >= a.blocks[bp]
  {
    hide Tiled, Insert, Drop, Ascending, Apart;
    JoinedUpperGood(a, k, bp);
    UpperTouch(a, k, bp);
    InsertedHanded(a, k, bp);
    InsertedApart(a, k, bp);
    var c := Inserted(a, k, bp);
    if k + 2 < |c.list| && Touch(c, k + 1) { MergedHanded(c, k + 1); }
  }

  lemma LowerKeeps(u: Arena, k: nat)
    requires Loose(u) && Apart(u, {k}) && k + 1 < |u.list|
    ensures var f := JoinedLower(u, k);
            && HandedOut(f) == HandedOut(u) && KeepsBlocks(u, f, {})
            && f.owner.Keys == u.owner.Keys && f.base == u.base
            && HasFit(f, Units(u, u.list[k + 1]))
  {
    hide Tiled, Drop, Ascending;
    var f := JoinedLower(u, k);
    if Touch(u, k) {
      BaseApart(u);
      MergedHanded(u, k);
      LooseAscending(u);
      DropAscending(u.list, k + 1);
      assert f.list[k] == u.list[k] && Units(f, f.list[k]) >= Units(u, u.list[k + 1]);
    } else {
      assert Units(f, f.list[k + 1]) >= Units(u, u.list[k + 1]);
    }
  }

  // ----- what growing leaves alone

  lemma GrownHanded(a: Arena, b: nat, n: nat)
    requires b !in a.blocks && b !in a.list
    ensures HandedOut(Grown(a, b, n)) == HandedOut(a) + {b}
    ensures KeepsBlocks(a, Grown(a, b, n), {})
  {
    hide Span;
  }

  /** As many units as sbrk has given belong to blocks. */
  ghost predicate Counted(n: nat, units: set<nat>) {
    |units| == n
  }

  lemma CountedMore(m: nat, units: set<nat>, b: nat, n: nat)
    requires Counted(m, units) && forall u | u in units :: u < b
    ensures Counted(m + n, units + Span(b, n, b).Keys)
  {
    hide Interval, Span;
    assert Span(b, n, b).Keys == Interval(b, n);
    DisjointSize(units + Interval(b, n), units, Interval(b, n));
  }

  lemma FitLess(a: Arena, n: nat, m: nat)
    requires HasFit(a, n) && m <= n
    ensures HasFit(a, m)
  {
    var j :| 1 <= j < |a.list| && Units(a, a.list[j]) >= n;
    assert Units(a, a.list[j]) >= m;
  }

  // ----- handing out

  function Taken(a: Arena, j: nat, n: nat): Arena
    requires j < |a.list| && a.list[j] in a.blocks && n <= a.blocks[a.list[j]]
  {
    if a.blocks[a.list[j]] == n then Unlinked(a, j) else Split(a, j, n)
  }

  /** The address of the n units taken from position j: the tail of the block. */
  function TakenAddr(a: Arena, j: nat, n: nat): nat
    requires j < |a.list| && a.list[j] in a.blocks && n <= a.blocks[a.list[j]]
  {
    a.list[j] + a.blocks[a.list[j]] - n
  }

  lemma TakenKeeps(a: Arena, j: nat, n: nat)
    requires Good(a) && 1 <= j < |a.list| && 0 < n <= a.blocks[a.list[j]]
    ensures var c, b := Taken(a, j, n), TakenAddr(a, j, n);
            && Good(c) && c.base == a.base && a.list[j - 1] in c.list
            && HandedOut(c) == HandedOut(a) + {b} && b !in HandedOut(a) && KeepsBlocks(a, c, {})
            && b in c.blocks && c.blocks[b] == n && c.owner.Keys == a.owner.Keys
  {
    if a.blocks[a.list[j]] == n {
      UnlinkedGood(a, j);
      UnlinkedHanded(a, j);
    } else {
      SplitGood(a, j, n);
      SplitHanded(a, j, n);
    }
    hide Good;
  }

  lemma UnlinkedHanded(a: Arena, j: nat)
    requires Good(a) && 1 <= j < |a.list|
    ensures a.list[j - 1] in Unlinked(a, j).list
    ensures HandedOut(Unlinked(a, j)) == HandedOut(a) + {a.list[j]}
  {
    hide Tiled, Apart;
    var l := Drop(a.list, j);
    assert l[j - 1] == a.list[j - 1];
    assert a.list == a.list[..j] + [a.list[j]] + a.list[j + 1..];
    assert SetOf(a.list) == SetOf(l) + {a.list[j]};
    ListDistinct(a.list);
    assert a.list[j] !in l;
  }

  lemma SplitHanded(a: Arena, j: nat, n: nat)
    requires Good(a) && 1 <= j < |a.list| && 0 < n < a.blocks[a.list[j]]
    requires TakenAddr(a, j, n) !in a.blocks
    ensures var c, b := Split(a, j, n), TakenAddr(a, j, n);
            && HandedOut(c) == HandedOut(a) + {b} && KeepsBlocks(a, c, {})
            && b in c.blocks && c.blocks[b] == n && c.owner.Keys == a.owner.Keys
  {
    hide Tiled, Apart;
    var b := TakenAddr(a, j, n);
    assert b !in a.list by {
      assert a.base < b;
    }
    assert a.list[j] in SetOf(a.list);
  }

  lemma TakenFields(ptr: map<nat, nat>, size: map<nat, nat>, a: Arena, j: nat, n: nat)
    requires Good(a) && Links(ptr, a.list) && Sizes(size, a) && 1 <= j < |a.list| && 0 < n <= a.blocks[a.list[j]]
    ensures var p, c := a.list[j], Taken(a, j, n);
            && p in size && p in ptr && size[p] == a.blocks[p]
            && if size[p] == n then
                 Links(ptr[a.list[j - 1] := ptr[p]], c.list) && Sizes(size, c)
               else
                 Links(ptr, c.list) && Sizes(size[p := size[p] - n][p + size[p] - n := n], c)
  {
    hide Tiled, Apart, Drop, Ascending, SplitBlocks, SplitOwner;
    var p := a.list[j];
    LooseAscending(a);
    if size[p] == n {
      LinksDrop(ptr, a.list, j);
    } else {
      hide Links;
      SplitSizes(size, a, j, n);
    }
  }

  lemma SplitSizes(size: map<nat, nat>, a: Arena, j: nat, n: nat)
    requires Loose(a) && Sizes(size, a) && 1 <= j < |a.list| && 0 < n < a.blocks[a.list[j]]
    ensures var p := a.list[j];
            p in size && size[p] == a.blocks[p] && Sizes(size[p := size[p] - n][p + size[p] - n := n], Split(a, j, n))
  {
    hide Tiled, Ascending;
  }

  // ----- the search of malloc

  ghost function PosOf(list: seq<nat>, p: nat): (i: nat)
    ensures p in list ==> i < |list| && list[i] == p
  {
    if p in list then var i :| 0 <= i < |list| && list[i] == p; i else 0
  }

  /** Position x comes strictly after f and before j on the way round the circle. */
  predicate Between(f: nat, j: nat, x: nat) {
    if f < j then f < x < j else f < x || x < j
  }

  /** Position j is the first one after f, going round, whose block has n units. */
  ghost predicate FirstFit(a: Arena, f: nat, j: nat, n: nat) {
    && j < |a.list| && Units(a, a.list[j]) >= n
    && forall x: nat | x < |a.list| && Between(f, j, x) :: Units(a, a.list[x]) < n
  }

  lemma EmptyGood(base: nat)
    ensures var a := Arena(base, [base], map[], map[]);
            && Good(a) && Links(map[base := base], a.list) && Sizes(map[base := 0], a) && HandedOut(a) == {}
  {
  }

  lemma KeepsSelf(a: Arena)
    ensures KeepsBlocks(a, a, {})
  {
  }

  lemma KeepsAround(a: Arena, b: Arena, c: Arena, x: nat)
    requires KeepsBlocks(a, b, {}) && KeepsBlocks(b, c, {x}) && HandedOut(b) == HandedOut(a) + {x} && x !in HandedOut(a)
    ensures KeepsBlocks(a, c, {})
  {
    assert HandedOut(b) - {x} == HandedOut(a) - {};
  }

  lemma KeepsTrans(a: Arena, b: Arena, c: Arena)
    requires KeepsBlocks(a, b, {}) && KeepsBlocks(b, c, {}) && HandedOut(a) <= HandedOut(b)
    ensures KeepsBlocks(a, c, {})
  {
  }

  /** The positions already visited on the way round from f to j are too small. */
  ghost predicate Small(a: Arena, f: nat, j: nat, wrapped: bool, n: nat) {
    && j < |a.list| && f < |a.list|
    && (if wrapped then j <= f else f < j)
    && forall x: nat | x < |a.list| && (if wrapped then f < x || x < j else f < x < j) :: Units(a, a.list[x]) < n
  }

  /** The fields of the header at position j. */
  lemma FieldsAt(ptr: map<nat, nat>, size: map<nat, nat>, a: Arena, j: nat)
    requires Loose(a) && Links(ptr, a.list) && Sizes(size, a) && j < |a.list|
    ensures a.list[j] in ptr && ptr[a.list[j]] == Succ(a.list, j)
    ensures a.list[j] in size && size[a.list[j]] == Units(a, a.list[j])
  {
    hide Tiled, Ascending;
  }

  lemma SmallStart(a: Arena, f: nat, n: nat)
    requires f < |a.list|
    ensures var wrapped := f + 1 == |a.list|;
            Small(a, f, if wrapped then 0 else f + 1, wrapped, n)
  {
  }

  lemma SmallStep(a: Arena, f: nat, j: nat, wrapped: bool, n: nat)
    requires Small(a, f, j, wrapped, n) && Units(a, a.list[j]) < n && Ascending(a.list)
    ensures if wrapped then j <= f else f < j
    ensures a.list[j] == a.list[f] ==> !HasFit(a, n)
    ensures a.list[j] != a.list[f] ==>
              if j + 1 == |a.list| then !wrapped && Small(a, f, 0, true, n)
              else (wrapped ==> j < f) && Small(a, f, j + 1, wrapped, n)
  {
    ListDistinct(a.list);
  }

  lemma SmallFound(a: Arena, f: nat, j: nat, wrapped: bool, n: nat)
    requires Small(a, f, j, wrapped, n) && Units(a, a.list[j]) >= n > 0 && Loose(a)
    ensures j >= 1 && FirstFit(a, f, j, n) && HasFit(a, n) && a.list[j] != a.base
  {
    hide Tiled;
    assert Units(a, a.list[j]) >= n;
  }

  // ----- conservation

  /** Free and handed-out blocks together are as large as what sbrk gave. */
  lemma {:induction false} TiledSum(blocks: map<nat, nat>, owner: map<nat, nat>)
    requires Tiled(blocks, owner)
    ensures Sum(blocks) == |owner|
    decreases |blocks|
  {
    hide Tiled;
    if blocks == map[] {
      EmptyTiling(blocks, owner);
    } else {
      var b :| b in blocks;
      var owner' := map u | u in owner && owner[u] != b :: owner[u];
      RemoveTile(blocks, owner, owner', b);
      TiledSum(blocks - {b}, owner');
      SumWithout(blocks, b);
    }
  }

  lemma EmptyTiling(blocks: map<nat, nat>, owner: map<nat, nat>)
    requires Tiled(blocks, owner) && blocks == map[]
    ensures |owner| == 0 && Sum(blocks) == 0
  {
    assert owner == map[];
  }

  lemma RemoveTile(blocks: map<nat, nat>, owner: map<nat, nat>, owner': map<nat, nat>, b: nat)
    requires Tiled(blocks, owner) && b in blocks
    requires owner' == map u | u in owner && owner[u] != b :: owner[u]
    ensures Tiled(blocks - {b}, owner') && |owner| == |owner'| + blocks[b]
  {
    hide Covers, Inside;
    RemoveTileUnits(blocks, owner, owner', b);
    RemoveTileCovers(blocks, owner, owner', b);
    RemoveTileInside(blocks, owner, owner', b);
  }

  lemma RemoveTileCovers(blocks: map<nat, nat>, owner: map<nat, nat>, owner': map<nat, nat>, b: nat)
    requires Covers(blocks, owner)
    requires owner' == map u | u in owner && owner[u] != b :: owner[u]
    ensures Covers(blocks - {b}, owner')
  {
    var bs := blocks - {b};
    forall x, u | x in bs && x <= u < x + bs[x] ensures u in owner' && owner'[u] == x {
      assert x in blocks && u in owner && owner[u] == x;
    }
  }

  lemma RemoveTileInside(blocks: map<nat, nat>, owner: map<nat, nat>, owner': map<nat, nat>, b: nat)
    requires Inside(blocks, owner)
    requires owner' == map u | u in owner && owner[u] != b :: owner[u]
    ensures Inside(blocks - {b}, owner')
  {
  }

  lemma RemoveTileUnits(blocks: map<nat, nat>, owner: map<nat, nat>, owner': map<nat, nat>, b: nat)
    requires Tiled(blocks, owner) && b in blocks
    requires owner' == map u | u in owner && owner[u] != b :: owner[u]
    ensures |owner| == |owner'| + blocks[b]
  {
    hide Interval;
    var mine := Interval(b, blocks[b]);
    forall u: nat ensures u in owner.Keys <==> u in owner'.Keys || u in mine {
      if u in mine { assert owner[u] == b; }
    }
    forall u | u in owner'.Keys ensures u !in mine {
      assert owner[u] != b;
    }
    DisjointSize(owner.Keys, owner'.Keys, mine);
  }

  /** A handed-out block has room for what was asked. */
  lemma NUnitsCover(nbytes: nat)
    ensures (NUnits(nbytes) - 1) * UNIT >= nbytes && (NUnits(nbytes) - 1) * UNIT < nbytes + UNIT
  {
  }

  /** The byte count that sbrk takes as an int, after the conversion of its argument. */
  function SbrkArgument(nunits: nat): int {
    var bytes := nunits * UNIT % 0x1_0000_0000;
    if bytes < 0x8000_0000 then bytes else bytes - 0x1_0000_0000
  }

  predicate Exact(nunits: nat) {
    SbrkArgument(nunits) == nunits * UNIT
  }

  /** malloc asks sbrk for what it needs exactly when the request is at most 2^31 - 32 bytes;
      a larger one reaches sbrk as a different number. */
  lemma SbrkArgumentExact(nbytes: nat)
    ensures nbytes < 0x1_0000_0000 ==> (Exact(Asked(NUnits(nbytes))) <==> nbytes <= MAXREQUEST)
  {
  }

  /** At 2^31 bytes sbrk is asked to shrink the heap. */
  lemma HugeRequestShrinks()
    ensures SbrkArgument(Asked(NUnits(0x8000_0000))) == 16 - 0x8000_0000
  {
  }
}
