/** The circular doubly linked list that threads the buffers, as arrays of indices.
    Index HEAD stands for the list head; order lists the linked buffers from head.next on. */
module Ring {

  const NBUF: nat := 30
  const HEAD: nat := NBUF

  /** Node k of the circle: the head at both ends, the buffers in between. */
  function Node(order: seq<nat>, k: nat): nat
    requires k <= |order| + 1
  {
    if k == 0 || k == |order| + 1 then HEAD else order[k - 1]
  }

  predicate Distinct(order: seq<nat>) {
    && (forall i | 0 <= i < |order| :: order[i] < NBUF)
    && (forall i, j | 0 <= i < j < |order| :: order[i] != order[j])
  }

  /** Following nx from the head visits order and comes back. */
  ghost predicate Forward(nx: seq<nat>, order: seq<nat>) {
    |nx| == NBUF + 1 && Distinct(order)
    && forall k: nat | k <= |order| :: nx[Node(order, k)] == Node(order, k + 1)
  }

  /** Following pv from the head visits order backwards and comes back. */
  ghost predicate Backward(pv: seq<nat>, order: seq<nat>) {
    |pv| == NBUF + 1 && Distinct(order)
    && forall k: nat | 1 <= k <= |order| + 1 :: pv[Node(order, k)] == Node(order, k - 1)
  }

  ghost predicate Linked(nx: seq<nat>, pv: seq<nat>, order: seq<nat>) {
    Forward(nx, order) && Backward(pv, order)
  }

  function Without(order: seq<nat>, k: nat): seq<nat>
    requires k < |order|
  {
    order[..k] + order[k + 1..]
  }

  function ToFront(order: seq<nat>, k: nat): seq<nat>
    requires k < |order|
  {
    [order[k]] + Without(order, k)
  }

  lemma NodesDiffer(order: seq<nat>, j: nat, k: nat)
    requires Distinct(order) && j <= |order| + 1 && 1 <= k <= |order| && j != k
    ensures Node(order, j) != Node(order, k)
  {
  }

  lemma Neighbours(nx: seq<nat>, pv: seq<nat>, order: seq<nat>, k: nat)
    requires Linked(nx, pv, order) && k < |order|
    ensures nx[order[k]] == Node(order, k + 2) && pv[order[k]] == Node(order, k)
  {
    assert order[k] == Node(order, k + 1);
  }

  lemma UnlinkForward(nx: seq<nat>, order: seq<nat>, k: nat)
    requires Forward(nx, order) && k < |order|
    ensures Forward(nx[Node(order, k) := Node(order, k + 2)], Without(order, k))
  {
    var w := Without(order, k);
    var nx' := nx[Node(order, k) := Node(order, k + 2)];
    forall j: nat | j <= |w| ensures nx'[Node(w, j)] == Node(w, j + 1) {
      var j' := if j <= k then j else j + 1;
      assert Node(w, j) == Node(order, j');
      if j != k {
        assert Node(w, j + 1) == Node(order, j' + 1);
        if k > 0 { NodesDiffer(order, j', k); }
      }
    }
  }

  lemma UnlinkBackward(pv: seq<nat>, order: seq<nat>, k: nat)
    requires Backward(pv, order) && k < |order|
    ensures Backward(pv[Node(order, k + 2) := Node(order, k)], Without(order, k))
  {
    var w := Without(order, k);
    var pv' := pv[Node(order, k + 2) := Node(order, k)];
    forall j: nat | 1 <= j <= |w| + 1 ensures pv'[Node(w, j)] == Node(w, j - 1) {
      var j' := if j <= k then j else j + 1;
      assert Node(w, j) == Node(order, j');
      if j != k + 1 {
        assert Node(w, j - 1) == Node(order, j' - 1);
        if k + 2 <= |order| { NodesDiffer(order, j', k + 2); }
      }
    }
  }

  /** Taking buffer order[k] out by joining its neighbours. */
  lemma Unlink(nx: seq<nat>, pv: seq<nat>, order: seq<nat>, k: nat)
    requires Linked(nx, pv, order) && k < |order|
    ensures var b := order[k];
            && nx[b] < |pv| && pv[b] < |nx|
            && Linked(nx[pv[b] := nx[b]], pv[nx[b] := pv[b]], Without(order, k))
  {
    Neighbours(nx, pv, order, k);
    UnlinkForward(nx, order, k);
    UnlinkBackward(pv, order, k);
  }

  lemma PushForward(nx: seq<nat>, order: seq<nat>, b: nat)
    requires Forward(nx, order) && b < NBUF && b !in order
    ensures Forward(nx[b := nx[HEAD]][HEAD := b], [b] + order)
  {
    var o, nx' := [b] + order, nx[b := nx[HEAD]][HEAD := b];
    assert nx[Node(order, 0)] == Node(order, 1);
    forall j: nat | j <= |o| ensures nx'[Node(o, j)] == Node(o, j + 1) {
      if j >= 1 {
        assert Node(o, j + 1) == Node(order, j);
      }
      if j >= 2 {
        assert Node(o, j) == Node(order, j - 1);
      }
    }
  }

  lemma PushBackward(pv: seq<nat>, order: seq<nat>, b: nat)
    requires Backward(pv, order) && b < NBUF && b !in order
    ensures Backward(pv[b := HEAD][Node(order, 1) := b], [b] + order)
  {
    var o, pv' := [b] + order, pv[b := HEAD][Node(order, 1) := b];
    forall j: nat | 1 <= j <= |o| + 1 ensures pv'[Node(o, j)] == Node(o, j - 1) {
      if j >= 2 {
        assert Node(o, j) == Node(order, j - 1);
      }
      if j >= 3 {
        assert Node(o, j - 1) == Node(order, j - 2);
        NodesDiffer(order, j - 1, 1);
      }
    }
  }

  /** Linking a buffer that is not in the list just behind the head. */
  lemma PushFront(nx: seq<nat>, pv: seq<nat>, order: seq<nat>, b: nat)
    requires Linked(nx, pv, order) && b < NBUF && b !in order
    ensures nx[HEAD] < |pv|
    ensures Linked(nx[b := nx[HEAD]][HEAD := b], pv[b := HEAD][nx[HEAD] := b], [b] + order)
  {
    assert nx[Node(order, 0)] == Node(order, 1);
    PushForward(nx, order, b);
    PushBackward(pv, order, b);
  }
}
