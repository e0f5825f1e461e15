/** Cardinalities of finite sets of numbers. */
module Sets {

  function Range(n: nat): (s: set<nat>)
    ensures forall i: nat :: i in s <==> i < n
    ensures |s| == n
  {
    if n == 0 then {} else Range(n - 1) + {n - 1}
  }

  function Interval(b: nat, n: nat): (s: set<nat>)
    ensures forall i: nat :: i in s <==> b <= i < b + n
    ensures |s| == n
  {
    if n == 0 then {} else Interval(b, n - 1) + {b + n - 1}
  }

  ghost function SetOf(s: seq<nat>): set<nat> {
    set x | x in s
  }

  lemma DisjointSize(s: set<nat>, a: set<nat>, b: set<nat>)
    requires (forall x :: x in s <==> x in a || x in b) && (forall x | x in a :: x !in b)
    ensures |s| == |a| + |b|
  {
    assert s == a + b;
  }

  /** A subset as large as the whole is the whole. */
  lemma SubsetIsAll(a: set<nat>, b: set<nat>)
    requires a <= b && |a| == |b|
    ensures a == b
  {
    assert b == a + (b - a);
  }

  lemma {:induction false} SubsetSize(a: set<nat>, b: set<nat>)
    requires a <= b
    ensures |a| <= |b|
  {
    assert b == a + (b - a);
  }

  ghost predicate Reaches(m: map<nat, nat>, v: nat) {
    exists a :: a in m && m[a] == v
  }

  /** The values of an injective map are as many as its keys. */
  lemma {:induction false} InjectiveSize(m: map<nat, nat>) returns (values: set<nat>)
    requires forall a, b | a in m && b in m && a != b :: m[a] != m[b]
    ensures |values| == |m|
    ensures forall v :: v in values <==> Reaches(m, v)
    decreases |m|
  {
    if m == map[] {
      values := {};
    } else {
      var a :| a in m;
      var m' := m - {a};
      assert |m'| == |m| - 1;
      var rest := InjectiveSize(m');
      forall v ensures Reaches(m, v) <==> Reaches(m', v) || v == m[a] {
        if Reaches(m', v) {
          var x :| x in m' && m'[x] == v;
          assert m[x] == v;
        }
        if Reaches(m, v) && v != m[a] {
          var x :| x in m && m[x] == v;
          assert x in m' && m'[x] == v;
        }
      }
      assert !Reaches(m', m[a]);
      values := rest + {m[a]};
    }
  }

  // ----- sums over maps

  ghost function Sum(m: map<nat, nat>): nat {
    if m == map[] then 0 else var p :| p in m; m[p] + Sum(m - {p})
  }

  lemma {:induction false} SumWithout(m: map<nat, nat>, p: nat)
    requires p in m
    ensures Sum(m) == m[p] + Sum(m - {p})
    decreases |m|
  {
    var q :| q in m && Sum(m) == m[q] + Sum(m - {q});
    if q != p {
      assert m - {q} - {p} == m - {p} - {q};
      SumWithout(m - {q}, p);
      SumWithout(m - {p}, q);
    }
  }

  lemma SumChanged(m: map<nat, nat>, p: nat, n: nat)
    ensures Sum(m[p := n]) == n + Sum(m - {p})
    ensures p !in m ==> Sum(m[p := n]) == n + Sum(m)
  {
    SumWithout(m[p := n], p);
    assert m[p := n] - {p} == m - {p};
    assert p !in m ==> m - {p} == m;
  }

  /** Distinct elements of b are no more than b has. */
  lemma {:induction false} NoLonger(a: seq<nat>, b: seq<nat>)
    requires forall i, j | 0 <= i < j < |a| :: a[i] != a[j]
    requires forall x | x in a :: x in b
    ensures |a| <= |b|
  {
    if a != [] {
      assert a[0] in a;
      var i :| 0 <= i < |b| && b[i] == a[0];
      var c := b[..i] + b[i + 1..];
      forall x | x in a[1..] ensures x in c {
        assert x in a && x != a[0];
        var k :| 0 <= k < |b| && b[k] == x;
        if k < i { assert c[k] == x; } else { assert c[k - 1] == x; }
      }
      NoLonger(a[1..], c);
    }
  }
}
