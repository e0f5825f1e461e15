/** The heap of the K&R allocator, in units of one header.

    blocks are all blocks, free or handed out, by address; owner says which block each unit
    obtained from sbrk belongs to; list is the free list in address order, starting with the
    header base, which lies below the heap and has size 0. */
module FreeList {

  datatype Arena = Arena(base: nat, list: seq<nat>, blocks: map<nat, nat>, owner: map<nat, nat>)

  function Units(a: Arena, b: nat): nat {
    if b in a.blocks then a.blocks[b] else 0
  }

  function End(a: Arena, i: nat): nat
    requires i < |a.list|
  {
    a.list[i] + Units(a, a.list[i])
  }

  /** The element after list[i] on the circle. */
  function Succ(list: seq<nat>, i: nat): nat
    requires i < |list|
  {
    if i + 1 == |list| then list[0] else list[i + 1]
  }

  // ----- invariants

  ghost predicate Covers(blocks: map<nat, nat>, owner: map<nat, nat>) {
    forall b, u | b in blocks && b <= u < b + blocks[b] :: u in owner && owner[u] == b
  }

  ghost predicate Inside(blocks: map<nat, nat>, owner: map<nat, nat>) {
    forall u | u in owner :: owner[u] in blocks && owner[u] <= u < owner[u] + blocks[owner[u]]
  }

  /** The blocks tile the units: every unit is in exactly one block. */
  ghost predicate Tiled(blocks: map<nat, nat>, owner: map<nat, nat>) {
    && (forall b | b in blocks :: blocks[b] > 0)
    && Covers(blocks, owner)
    && Inside(blocks, owner)
  }

  predicate Ascending(list: seq<nat>) {
    forall i, j | 0 <= i < j < |list| :: list[i] < list[j]
  }

  ghost predicate Loose(a: Arena) {
    && |a.list| > 0 && a.list[0] == a.base && a.base !in a.blocks
    && Ascending(a.list)
    && (forall i | 1 <= i < |a.list| :: a.list[i] in a.blocks)
    && (forall b | b in a.blocks :: a.base < b)
    && Tiled(a.blocks, a.owner)
  }

  predicate Touch(a: Arena, i: nat)
    requires i + 1 < |a.list|
  {
    End(a, i) == a.list[i + 1]
  }

  /** No two free blocks touch, except perhaps at the positions in ex. */
  ghost predicate Apart(a: Arena, ex: set<nat>) {
    forall i: nat | i + 1 < |a.list| && i !in ex :: !Touch(a, i)
  }

  ghost predicate Good(a: Arena) {
    Loose(a) && Apart(a, {})
  }

  /** The headers' ptr and size fields are those of the arena. */
  ghost predicate Links(ptr: map<nat, nat>, list: seq<nat>) {
    forall i: nat | i < |list| :: list[i] in ptr && ptr[list[i]] == Succ(list, i)
  }

  ghost predicate Sizes(size: map<nat, nat>, a: Arena) {
    && (forall b | b in a.blocks :: b in size && size[b] == a.blocks[b])
    && a.base in size && size[a.base] == 0
  }

  /** Blocks do not overlap. */
  lemma BlocksClear(a: Arena, b: nat, c: nat)
    requires Tiled(a.blocks, a.owner) && b in a.blocks && c in a.blocks && b < c
    ensures b + a.blocks[b] <= c
  {
    assert a.owner[c] == c;
  }

  // ----- inserting

  function Insert(list: seq<nat>, k: nat, b: nat): seq<nat>
    requires k < |list|
  {
    list[..k + 1] + [b] + list[k + 1..]
  }

  /** b belongs right after position k. */
  predicate Slot(list: seq<nat>, k: nat, b: nat) {
    k < |list| && list[k] < b && (k + 1 < |list| ==> b < list[k + 1])
  }

  function Inserted(a: Arena, k: nat, b: nat): Arena
    requires k < |a.list|
  {
    a.(list := Insert(a.list, k, b))
  }

  lemma InsertAscending(list: seq<nat>, k: nat, b: nat)
    requires Ascending(list) && Slot(list, k, b)
    ensures Ascending(Insert(list, k, b))
  {
    var l := Insert(list, k, b);
    forall i, j | 0 <= i < j < |l| ensures l[i] < l[j] {
      assert l[i] == if i <= k then list[i] else if i == k + 1 then b else list[i - 1];
      assert l[j] == if j <= k then list[j] else if j == k + 1 then b else list[j - 1];
    }
  }

  lemma InsertAt(list: seq<nat>, k: nat, b: nat)
    requires k < |list|
    ensures |Insert(list, k, b)| == |list| + 1
    ensures forall i: nat {:trigger Insert(list, k, b)[i]} | i <= |list| ::
              Insert(list, k, b)[i] == if i <= k then list[i] else if i == k + 1 then b else list[i - 1]
  {
  }

  lemma InsertedApart(a: Arena, k: nat, b: nat)
    requires Good(a) && b in a.blocks && Slot(a.list, k, b)
    ensures Loose(Inserted(a, k, b)) && Apart(Inserted(a, k, b), {k, k + 1})
  {
    hide Tiled, Insert, Ascending;
    InsertAscending(a.list, k, b);
    InsertAt(a.list, k, b);
    var c := Inserted(a, k, b);
    forall i: nat | i + 1 < |c.list| && i != k && i != k + 1 ensures !Touch(c, i) {
      if i < k { assert !Touch(a, i); } else { assert !Touch(a, i - 1); }
    }
  }

  // ----- merging

  function Drop(list: seq<nat>, j: nat): seq<nat>
    requires j < |list|
  {
    list[..j] + list[j + 1..]
  }

  /** Block p absorbs the block b behind it. */
  function MergeBlocks(blocks: map<nat, nat>, p: nat, b: nat): map<nat, nat>
    requires p in blocks && b in blocks
  {
    (blocks - {b})[p := blocks[p] + blocks[b]]
  }

  function MergeOwner(owner: map<nat, nat>, p: nat, b: nat): map<nat, nat> {
    map u | u in owner :: if owner[u] == b then p else owner[u]
  }

  lemma MergeCovers(blocks: map<nat, nat>, owner: map<nat, nat>, p: nat, b: nat)
    requires Covers(blocks, owner) && p in blocks && b in blocks && p + blocks[p] == b && p != b
    ensures Covers(MergeBlocks(blocks, p, b), MergeOwner(owner, p, b))
  {
    var bs, ow := MergeBlocks(blocks, p, b), MergeOwner(owner, p, b);
    assert bs[p] == blocks[p] + blocks[b];
    forall x, u | x in bs && x <= u < x + bs[x] ensures u in ow && ow[u] == x {
      if x == p && u >= b {
        assert owner[u] == b;
      } else {
        assert x in blocks && owner[u] == x;
      }
    }
  }

  lemma MergeInside(blocks: map<nat, nat>, owner: map<nat, nat>, p: nat, b: nat)
    requires Inside(blocks, owner) && p in blocks && b in blocks && p + blocks[p] == b && p != b
    ensures Inside(MergeBlocks(blocks, p, b), MergeOwner(owner, p, b))
  {
  }

  lemma MergeTiled(blocks: map<nat, nat>, owner: map<nat, nat>, p: nat, b: nat)
    requires Tiled(blocks, owner) && p in blocks && b in blocks && p + blocks[p] == b
    ensures Tiled(MergeBlocks(blocks, p, b), MergeOwner(owner, p, b))
  {
    hide Covers, Inside;
    MergeCovers(blocks, owner, p, b);
    MergeInside(blocks, owner, p, b);
  }

  /** list[j] absorbs list[j + 1]. */
  function Merged(a: Arena, j: nat): Arena
    requires j + 1 < |a.list| && a.list[j] in a.blocks && a.list[j + 1] in a.blocks
  {
    var p, b := a.list[j], a.list[j + 1];
    a.(list := Drop(a.list, j + 1), blocks := MergeBlocks(a.blocks, p, b), owner := MergeOwner(a.owner, p, b))
  }

  lemma DropAscending(list: seq<nat>, j: nat)
    requires Ascending(list) && j < |list|
    ensures |Drop(list, j)| == |list| - 1
    ensures forall i: nat {:trigger Drop(list, j)[i]} | i < |list| - 1 ::
              Drop(list, j)[i] == if i < j then list[i] else list[i + 1]
    ensures Ascending(Drop(list, j))
  {
  }

  /** The base header never touches a block. */
  lemma BaseApart(a: Arena)
    requires Loose(a) && |a.list| > 1
    ensures !Touch(a, 0)
  {
  }

  lemma MergedLoose(a: Arena, j: nat)
    requires Loose(a) && 1 <= j && j + 1 < |a.list| && Touch(a, j)
    ensures Loose(Merged(a, j))
  {
    hide Tiled, Drop;
    MergeTiled(a.blocks, a.owner, a.list[j], a.list[j + 1]);
    DropAscending(a.list, j + 1);
    var c := Merged(a, j);
    forall i | 1 <= i < |c.list| ensures c.list[i] in c.blocks {
      assert c.list[i] == if i <= j then a.list[i] else a.list[i + 1];
    }
  }

  lemma MergedApart(a: Arena, j: nat, ex: set<nat>)
    requires Loose(a) && 1 <= j && j + 1 < |a.list| && Touch(a, j)
    requires Apart(a, ex + {j}) && (forall x | x in ex :: x < j)
    ensures Apart(Merged(a, j), ex)
  {
    hide Tiled, Drop;
    DropAscending(a.list, j + 1);
    var c := Merged(a, j);
    forall i: nat | i + 1 < |c.list| && i !in ex ensures !Touch(c, i) {
      if i < j {
        assert !Touch(a, i);
      } else {
        assert !Touch(a, i + 1);
        assert c.list[i + 1] == a.list[i + 2];
      }
    }
  }

  // ----- allocating

  /** list[j] is handed out whole. */
  function Unlinked(a: Arena, j: nat): Arena
    requires j < |a.list|
  {
    a.(list := Drop(a.list, j))
  }

  lemma UnlinkedGood(a: Arena, j: nat)
    requires Good(a) && 1 <= j < |a.list|
    ensures Good(Unlinked(a, j))
  {
    hide Drop;
    DropAscending(a.list, j);
    var c := Unlinked(a, j);
    forall i: nat | i + 1 < |c.list| ensures !Touch(c, i) {
      if i < j - 1 {
        assert !Touch(a, i);
      } else if i == j - 1 {
        assert !Touch(a, i);
        if i > 0 { BlocksClear(a, a.list[i], a.list[j]); }
      } else {
        assert !Touch(a, i + 1);
        assert c.list[i + 1] == a.list[i + 2];
      }
    }
  }

  /** The last k units of block b become a block of their own. */
  function SplitBlocks(blocks: map<nat, nat>, b: nat, k: nat): map<nat, nat>
    requires b in blocks && k < blocks[b]
  {
    blocks[b := blocks[b] - k][b + blocks[b] - k := k]
  }

  function SplitOwner(owner: map<nat, nat>, b: nat, cut: nat): map<nat, nat> {
    map u | u in owner :: if owner[u] == b && u >= cut then cut else owner[u]
  }

  function Split(a: Arena, j: nat, k: nat): Arena
    requires j < |a.list| && a.list[j] in a.blocks && k < a.blocks[a.list[j]]
  {
    var b := a.list[j];
    a.(blocks := SplitBlocks(a.blocks, b, k), owner := SplitOwner(a.owner, b, b + a.blocks[b] - k))
  }

  /** No block starts in the middle of another. */
  lemma NoBlockInside(blocks: map<nat, nat>, owner: map<nat, nat>, b: nat, u: nat)
    requires Tiled(blocks, owner) && b in blocks && b < u < b + blocks[b]
    ensures u !in blocks
  {
    assert owner[u] == b;
  }

  lemma SplitCovers(blocks: map<nat, nat>, owner: map<nat, nat>, b: nat, k: nat)
    requires Covers(blocks, owner) && b in blocks && 0 < k < blocks[b] && b + blocks[b] - k !in blocks
    ensures Covers(SplitBlocks(blocks, b, k), SplitOwner(owner, b, b + blocks[b] - k))
  {
    var cut := b + blocks[b] - k;
    var bs, ow := SplitBlocks(blocks, b, k), SplitOwner(owner, b, cut);
    assert bs[b] == blocks[b] - k && bs[cut] == k;
    forall x, u | x in bs && x <= u < x + bs[x] ensures u in ow && ow[u] == x {
      if x == cut {
        assert owner[u] == b;
      } else {
        assert x in blocks && owner[u] == x;
      }
    }
  }

  lemma SplitInside(blocks: map<nat, nat>, owner: map<nat, nat>, b: nat, k: nat)
    requires Inside(blocks, owner) && b in blocks && 0 < k < blocks[b] && b + blocks[b] - k !in blocks
    ensures Inside(SplitBlocks(blocks, b, k), SplitOwner(owner, b, b + blocks[b] - k))
  {
    var cut := b + blocks[b] - k;
    var bs := SplitBlocks(blocks, b, k);
    assert bs[b] == blocks[b] - k && bs[cut] == k;
  }

  lemma SplitGood(a: Arena, j: nat, k: nat)
    requires Good(a) && 1 <= j < |a.list| && 0 < k < a.blocks[a.list[j]]
    ensures Good(Split(a, j, k))
    ensures a.list[j] + a.blocks[a.list[j]] - k !in a.blocks
  {
    hide Covers, Inside, Apart, Ascending;
    var b := a.list[j];
    NoBlockInside(a.blocks, a.owner, b, b + a.blocks[b] - k);
    SplitCovers(a.blocks, a.owner, b, k);
    SplitInside(a.blocks, a.owner, b, k);
    SplitApart(a, j, k);
  }

  lemma SplitApart(a: Arena, j: nat, k: nat)
    requires Good(a) && 1 <= j < |a.list| && 0 < k < a.blocks[a.list[j]]
    requires a.list[j] + a.blocks[a.list[j]] - k !in a.blocks
    ensures Apart(Split(a, j, k), {})
  {
    hide Covers, Inside;
    var b, c := a.list[j], Split(a, j, k);
    forall i: nat | i + 1 < |c.list| ensures !Touch(c, i) {
      assert !Touch(a, i);
      assert a.list[i] in a.blocks || i == 0;
      if i == j { BlocksClear(a, b, a.list[i + 1]); }
    }
  }

  // ----- growing

  /** The units b, ..., b + n - 1, all of block v. */
  function Span(b: nat, n: nat, v: nat): (m: map<nat, nat>)
    ensures forall u: nat :: u in m <==> b <= u < b + n
    ensures forall u | u in m :: m[u] == v
  {
    if n == 0 then map[] else Span(b, n - 1, v)[b + n - 1 := v]
  }

  /** A new block of n units, not free yet. */
  function Grown(a: Arena, b: nat, n: nat): Arena {
    a.(blocks := a.blocks[b := n], owner := a.owner + Span(b, n, b))
  }

  lemma NewBlock(blocks: map<nat, nat>, owner: map<nat, nat>, b: nat)
    requires Tiled(blocks, owner) && forall u | u in owner :: u < b
    ensures b !in blocks
  {
    assert b in blocks ==> b in owner;
  }

  /** ow gives the old units to their old blocks and n new units to b. */
  ghost predicate Extends(owner: map<nat, nat>, ow: map<nat, nat>, b: nat, n: nat) {
    && (forall u | u in owner :: u in ow && ow[u] == owner[u])
    && (forall u: nat | b <= u < b + n :: u in ow && ow[u] == b)
    && (forall u | u in ow :: u in owner || (b <= u < b + n))
  }

  lemma SpanExtends(owner: map<nat, nat>, b: nat, n: nat)
    requires forall u | u in owner :: u < b
    ensures Extends(owner, owner + Span(b, n, b), b, n)
  {
    hide Span;
    var ow := owner + Span(b, n, b);
    forall u | u in owner ensures u in ow && ow[u] == owner[u] {
      assert u < b;
    }
  }

  lemma GrowCovers(blocks: map<nat, nat>, owner: map<nat, nat>, ow: map<nat, nat>, b: nat, n: nat)
    requires Covers(blocks, owner) && b !in blocks && Extends(owner, ow, b, n)
    ensures Covers(blocks[b := n], ow)
  {
    var bs := blocks[b := n];
    forall x, u | x in bs && x <= u < x + bs[x] ensures u in ow && ow[u] == x {
      if x != b { assert x in blocks && u in owner && owner[u] == x; }
    }
  }

  lemma GrowInside(blocks: map<nat, nat>, owner: map<nat, nat>, ow: map<nat, nat>, b: nat, n: nat)
    requires Inside(blocks, owner) && b !in blocks && Extends(owner, ow, b, n)
    ensures Inside(blocks[b := n], ow)
  {
  }

  lemma GrownGood(a: Arena, b: nat, n: nat)
    requires Good(a) && n > 0 && a.base < b && forall u | u in a.owner :: u < b
    ensures Good(Grown(a, b, n))
    ensures b !in a.blocks && b !in a.list
  {
    hide Covers, Inside, Span, Ascending, Extends, Apart;
    NewBlock(a.blocks, a.owner, b);
    SpanExtends(a.owner, b, n);
    GrowCovers(a.blocks, a.owner, a.owner + Span(b, n, b), b, n);
    GrowInside(a.blocks, a.owner, a.owner + Span(b, n, b), b, n);
    GrownApart(a, b, n);
  }

  lemma GrownApart(a: Arena, b: nat, n: nat)
    requires Good(a) && b !in a.blocks && a.base < b
    ensures Apart(Grown(a, b, n), {})
  {
    hide Covers, Inside, Span, Ascending;
    var c := Grown(a, b, n);
    forall i: nat | i + 1 < |c.list| ensures !Touch(c, i) {
      assert !Touch(a, i);
      assert a.list[i] in a.blocks || i == 0;
    }
  }

  // ----- links

  lemma ListDistinct(list: seq<nat>)
    requires Ascending(list)
    ensures forall i, j | 0 <= i < |list| && 0 <= j < |list| && i != j :: list[i] != list[j]
  {
  }

  lemma LinksInsert(ptr: map<nat, nat>, list: seq<nat>, k: nat, b: nat)
    requires Links(ptr, list) && Ascending(list) && k < |list| && b !in list
    ensures Links(ptr[b := Succ(list, k)][list[k] := b], Insert(list, k, b))
  {
    hide Insert, Ascending;
    InsertAt(list, k, b);
    ListDistinct(list);
    var l, q := Insert(list, k, b), ptr[b := Succ(list, k)][list[k] := b];
    forall i: nat | i < |l| ensures l[i] in q && q[l[i]] == Succ(l, i) {
      if i < k {
        assert l[i] == list[i] && l[i + 1] == list[i + 1];
      } else if i == k {
        assert l[i + 1] == b;
      } else if i == k + 1 {
        assert l[0] == list[0];
      } else {
        assert l[i] == list[i - 1] && l[0] == list[0];
      }
    }
  }

  lemma LinksDrop(ptr: map<nat, nat>, list: seq<nat>, j: nat)
    requires Links(ptr, list) && Ascending(list) && 1 <= j < |list|
    ensures Links(ptr[list[j - 1] := Succ(list, j)], Drop(list, j))
  {
    hide Drop;
    DropAscending(list, j);
    var l, q := Drop(list, j), ptr[list[j - 1] := Succ(list, j)];
    forall i: nat | i < |l| ensures l[i] in q && q[l[i]] == Succ(l, i) {
      assert l[0] == list[0];
      if i + 1 < |l| { assert l[i + 1] == if i + 1 < j then list[i + 1] else list[i + 2]; }
    }
  }
}
