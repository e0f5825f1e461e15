/** Disk blocks, the 32-bit words stored in them, and the effect of a sequence of
    block writes. A block write is atomic; a crash keeps some prefix of the writes. */
module Disk {

  /** A block is BSIZE = 1024 bytes, here 256 little-endian 32-bit words. */
  const NWORDS: nat := 256
  const WORD_LIMIT: nat := 0x1_0000_0000

  type Uint32 = x: int | 0 <= x < WORD_LIMIT
  type Block = b: seq<Uint32> | |b| == NWORDS witness Zeroes(NWORDS)

  function Zeroes(n: nat): (s: seq<Uint32>)
    ensures |s| == n
    ensures forall i | 0 <= i < n :: s[i] == 0
  {
    if n == 0 then [] else Zeroes(n - 1) + [0]
  }

  const ZERO: Block := Zeroes(NWORDS)

  /** Disk contents; a block number that was never written reads as zeroes. */
  type Image = map<nat, Block>

  function At(d: Image, b: nat): Block {
    if b in d then d[b] else ZERO
  }

  datatype Write = Write(block: nat, data: Block)

  /** The disk after the writes ws, oldest first. */
  function Apply(d: Image, ws: seq<Write>): Image {
    if ws == [] then d
    else var w := ws[|ws| - 1]; Apply(d, ws[..|ws| - 1])[w.block := w.data]
  }

  lemma ApplyNone(d: Image)
    ensures Apply(d, []) == d
  {
  }

  lemma {:induction false} ApplyConcat(d: Image, a: seq<Write>, b: seq<Write>)
    ensures Apply(d, a + b) == Apply(Apply(d, a), b)
  {
    if b == [] {
      assert a + b == a;
    } else {
      var b' := b[..|b| - 1];
      assert (a + b)[..|a + b| - 1] == a + b';
      ApplyConcat(d, a, b');
    }
  }

  predicate Touches(ws: seq<Write>, b: nat) {
    exists i | 0 <= i < |ws| :: ws[i].block == b
  }

  /** A block no write touches keeps its contents. */
  lemma {:induction false} ApplyUntouched(d: Image, ws: seq<Write>, b: nat)
    requires !Touches(ws, b)
    ensures At(Apply(d, ws), b) == At(d, b)
  {
    if ws != [] {
      assert ws[|ws| - 1].block != b;
      ApplyUntouched(d, ws[..|ws| - 1], b);
    }
  }

  /** The last write to a block decides its contents. */
  lemma {:induction false} ApplyLast(d: Image, ws: seq<Write>, i: nat)
    requires i < |ws|
    requires forall j | i < j < |ws| :: ws[j].block != ws[i].block
    ensures At(Apply(d, ws), ws[i].block) == ws[i].data
  {
    if i < |ws| - 1 {
      assert ws[|ws| - 1].block != ws[i].block;
      ApplyLast(d, ws[..|ws| - 1], i);
    }
  }
}
