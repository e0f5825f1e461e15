/** The generator random() of proc.c: a 64-bit state, of which the caller gets the low 32
    bits as a signed int. */
module Lcg {
  import opened Powers
  import opened Sets

  const A: nat := 1664525
  const C: nat := 1013904223
  const TWO64: nat := 0x1_0000_0000_0000_0000

  /** rand_state after one call. */
  function Next(state: nat): nat {
    (state * A + C) % TWO64
  }

  /** rand_state after n calls. */
  function State(state: nat, n: nat): nat {
    if n == 0 then state else Next(State(state, n - 1))
  }

  /** The low 32 bits of what call number n (from 0) leaves in rand_state. */
  function Bits(state: nat, n: nat): nat {
    State(state, n + 1) % TWO32
  }

  /** 32 bits as an int. */
  function Signed(low: nat): int {
    if low < 0x8000_0000 then low else low - TWO32
  }

  /** What call number n returns. */
  function Draw(state: nat, n: nat): int {
    Signed(Bits(state, n))
  }

  lemma FirstDraw(s: nat)
    ensures Draw(s, 0) == Signed(Next(s) % TWO32)
  {
    hide Next, Signed;
    assert State(s, 0) == s;
    assert State(s, 1) == Next(State(s, 0));
  }

  // ----- the sequence without wrap-around

  function Free(x: int, n: nat): int {
    if n == 0 then x else A * Free(x, n - 1) + C
  }

  /** Only the low 32 bits matter for the low 32 bits. */
  lemma {:induction false} LowBits(s: nat, x: int, n: nat)
    requires s % TWO32 == x % TWO32
    ensures State(s, n) % TWO32 == Free(x, n) % TWO32
  {
    if n > 0 {
      LowBits(s, x, n - 1);
      NextLow(State(s, n - 1), Free(x, n - 1));
    }
  }

  lemma NextLow(s: nat, x: int)
    requires s % TWO32 == x % TWO32
    ensures Next(s) % TWO32 == (A * x + C) % TWO32
  {
    var y, z := s * A + C, A * (x / TWO32 - s / TWO32);
    assert A * x + C == y + z * TWO32;
    ModShift(y, z);
    var r, k := y % TWO64, y / TWO64;
    assert y == r + (k * TWO32) * TWO32;
    ModShift(r, k * TWO32);
  }

  lemma ModShift(y: int, z: int)
    ensures (y + z * TWO32) % TWO32 == y % TWO32
  {
  }

  // ----- differences

  lemma Assoc(a: int, b: int, c: int)
    ensures (a * b) * c == a * (b * c)
  {
  }

  lemma Spread(d: int, a: int, g: int)
    ensures d * (a * g + 1) == a * (d * g) + d
  {
  }

  /** 1 + A + ... + A^(j-1). */
  function Geo(j: nat): nat {
    if j == 0 then 0 else A * Geo(j - 1) + 1
  }

  function Pow(j: nat): nat {
    if j == 0 then 1 else A * Pow(j - 1)
  }

  function Step(x: int): int {
    (A - 1) * x + C
  }

  lemma {:induction false} Difference(x: int, n: nat, j: nat)
    ensures Free(x, n + j) - Free(x, n) == Step(Free(x, n)) * Geo(j)
  {
    if j > 0 {
      Difference(x, n, j - 1);
      var d, g := Step(Free(x, n)), Geo(j - 1);
      Spread(d, A, g);
      var p := d * g;
      assert Free(x, n + j) == A * (Free(x, n) + p) + C;
    }
  }

  lemma StepOdd(x: int)
    ensures Step(x) % 2 == 1
  {
  }

  predicate Odd(j: nat) {
    j > 0 && !Odd(j - 1)
  }

  function Bit(odd: bool): nat {
    if odd then 1 else 0
  }

  lemma {:induction false} OddHalf(j: nat) returns (h: nat)
    ensures j == 2 * h + Bit(Odd(j))
  {
    h := 0;
    if j > 0 {
      h := OddHalf(j - 1);
      if !Odd(j) { h := h + 1; }
    }
  }

  /** A is odd, so the terms of the sum alternate in parity. */
  lemma {:induction false} GeoHalf(j: nat) returns (h: nat)
    ensures Geo(j) == 2 * h + Bit(Odd(j))
  {
    h := 0;
    if j > 0 {
      h := GeoHalf(j - 1);
      h := if Odd(j) then A * h else A * h + (A + 1) / 2;
    }
  }

  lemma GeoParity(j: nat)
    ensures Geo(j) % 2 == j % 2
  {
    hide Geo, Odd;
    var g := GeoHalf(j);
    var h := OddHalf(j);
  }

  /** A is one more than a multiple of four, and so are its powers. */
  lemma {:induction false} PowQuarter(j: nat) returns (q: nat)
    ensures Pow(j) == 4 * q + 1
  {
    q := 0;
    if j > 0 {
      q := PowQuarter(j - 1);
      q := A * q + A / 4;
    }
  }

  lemma {:induction false} GeoAdd(i: nat, j: nat)
    ensures Geo(i + j) == Pow(j) * Geo(i) + Geo(j)
  {
    if j > 0 {
      GeoAdd(i, j - 1);
      Assoc(A, Pow(j - 1), Geo(i));
    }
  }

  lemma Halve(p: int, q: int, g: int)
    requires p + 1 == 2 * q
    ensures p * g + g == 2 * (q * g)
  {
    Assoc(2, q, g);
    assert (p + 1) * g == p * g + g;
  }

  /** Geo doubles its argument by a factor that is twice an odd number. */
  lemma GeoDouble(i: nat) returns (q: nat)
    ensures q % 2 == 1 && Geo(2 * i) == 2 * (q * Geo(i))
  {
    hide Geo, Pow;
    GeoAdd(i, i);
    var r := PowQuarter(i);
    q := 2 * r + 1;
    Halve(Pow(i), q, Geo(i));
  }

  // ----- powers of two

  /** x is a multiple of 2^k. */
  predicate Divides(k: nat, x: int) {
    k == 0 || (x % 2 == 0 && Divides(k - 1, x / 2))
  }

  lemma {:induction false} DividesMultiple(k: nat, q: int)
    ensures Divides(k, Two(k) * q)
  {
    if k > 0 {
      DividesMultiple(k - 1, q);
      Assoc(2, Two(k - 1), q);
    }
  }

  /** A multiple of 2^k closer to 0 than 2^k is 0. */
  lemma {:induction false} DividesSmall(k: nat, x: int)
    requires Divides(k, x) && 0 < x + Two(k) && x < Two(k)
    ensures x == 0
  {
    if k > 0 {
      DividesSmall(k - 1, x / 2);
    }
  }

  lemma OddFactor(d: int, x: int) returns (y: int)
    requires d % 2 == 1 && (d * x) % 2 == 0
    ensures x == 2 * y && (d * x) / 2 == d * y
  {
    var h := d / 2;
    assert d * x == 2 * (h * x) + x by {
      Assoc(2, h, x);
      assert (2 * h + 1) * x == (2 * h) * x + x;
    }
    y := x / 2;
    assert x == 2 * y;
    assert d * (2 * y) == 2 * (d * y);
  }

  /** An odd factor does not help to be divisible by a power of two. */
  lemma {:induction false} OddCancels(k: nat, d: int, x: int)
    requires d % 2 == 1 && Divides(k, d * x)
    ensures Divides(k, x)
    decreases k
  {
    if k > 0 {
      var y := OddFactor(d, x);
      OddCancels(k - 1, d, y);
    }
  }

  lemma {:induction false} GeoDivides(k: nat, j: nat)
    requires Divides(k, Geo(j))
    ensures Divides(k, j)
    decreases k
  {
    if k > 0 {
      GeoParity(j);
      var i := j / 2;
      var o := GeoDouble(i);
      OddCancels(k - 1, o, Geo(i));
      GeoDivides(k - 1, i);
    }
  }

  /** Within 2^k steps no two values differ by a multiple of 2^k. */
  lemma NoRepeat(x: int, k: nat, n: nat, m: nat)
    requires n <= m < n + Two(k) && Divides(k, Free(x, m) - Free(x, n))
    ensures n == m
  {
    Difference(x, n, m - n);
    StepOdd(Free(x, n));
    OddCancels(k, Step(Free(x, n)), Geo(m - n));
    GeoDivides(k, m - n);
    DividesSmall(k, m - n);
  }

  // ----- the draws

  /** Within any 2^32 consecutive calls no value of the low 32 bits comes twice. */
  lemma BitsDistinct(s: nat, n: nat, m: nat)
    requires n <= m < n + TWO32 && Bits(s, n) == Bits(s, m)
    ensures n == m
  {
    Two32();
    LowBits(s, s, n + 1);
    LowBits(s, s, m + 1);
    var a, b := Free(s, n + 1), Free(s, m + 1);
    var q := b / TWO32 - a / TWO32;
    assert b - a == TWO32 * q;
    DividesMultiple(32, q);
    NoRepeat(s, 32, n + 1, m + 1);
  }

  /** The low bits that the first m calls leave. */
  ghost function Window(s: nat, m: nat): (f: map<nat, nat>)
    ensures forall n: nat :: n in f <==> n < m
    ensures forall n | n in f :: f[n] == Bits(s, n)
  {
    map n: nat | n in Range(m) :: Bits(s, n)
  }

  ghost predicate Injective(f: map<nat, nat>) {
    forall a, b | a in f && b in f && a != b :: f[a] != f[b]
  }

  lemma WindowInjective(s: nat, m: nat)
    requires m == TWO32
    ensures Injective(Window(s, m))
  {
    hide Window, Bits;
    var f := Window(s, m);
    forall a, b | a in f && b in f && a != b ensures f[a] != f[b] {
      if Bits(s, a) == Bits(s, b) {
        if a < b { BitsDistinct(s, a, b); } else { BitsDistinct(s, b, a); }
      }
    }
  }

  lemma WindowSize(s: nat, m: nat)
    ensures |Window(s, m)| == m
  {
    hide Window, Range;
    assert Window(s, m).Keys == Range(m);
  }

  /** Every 32-bit value is among the results of the window. */
  lemma WindowOnto(s: nat, m: nat, v: nat)
    requires m == TWO32 && v < m
    ensures Reaches(Window(s, m), v)
  {
    hide Window, Range, Bits, Reaches;
    WindowInjective(s, m);
    var values := InjectiveSize(Window(s, m));
    WindowBelow(s, m, values);
    WindowSize(s, m);
    SubsetIsAll(values, Range(m));
  }

  lemma WindowBelow(s: nat, m: nat, values: set<nat>)
    requires m == TWO32 && forall v :: v in values <==> Reaches(Window(s, m), v)
    ensures values <= Range(m)
  {
    hide Window, Range, State;
    forall v | v in values ensures v in Range(m) {
      var n :| n in Window(s, m) && Window(s, m)[n] == v;
    }
  }

  lemma EveryBitsOnce(s: nat, m: nat, v: nat) returns (n: nat)
    requires m == TWO32 && v < m
    ensures n < m && Bits(s, n) == v
  {
    hide Window, Bits;
    WindowOnto(s, m, v);
    n :| n in Window(s, m) && Window(s, m)[n] == v;
  }

  /** FULL PERIOD. Over any 2^32 consecutive calls every int is returned exactly once. */
  lemma EveryIntOnce(s: nat, v: int)
    requires -0x8000_0000 <= v < 0x8000_0000
    ensures exists n: nat :: n < TWO32 && Draw(s, n) == v
    ensures forall n: nat, m: nat | n <= m < n + TWO32 && Draw(s, n) == v && Draw(s, m) == v :: n == m
  {
    var n := EveryBitsOnce(s, TWO32, if v >= 0 then v else v + TWO32);
    assert Draw(s, n) == v;
    forall n: nat, m: nat | n <= m < n + TWO32 && Draw(s, n) == v && Draw(s, m) == v ensures n == m {
      BitsDistinct(s, n, m);
    }
  }

  /** The calls among the first m that leave low bits in t. */
  ghost function Calls(s: nat, m: nat, t: set<nat>): set<nat> {
    set n: nat | n < m && Bits(s, n) in t
  }

  /** As many of the first 2^32 calls give a result in t as t has values. */
  lemma CountCalls(s: nat, m: nat, t: set<nat>)
    requires m == TWO32 && t <= Range(m)
    ensures |Calls(s, m, t)| == |t|
  {
    hide Window, Range, Bits, Reaches;
    WindowInjective(s, m);
    var c := Calls(s, m, t);
    var g := map n | n in c :: Bits(s, n);
    assert g.Keys == c;
    var values := InjectiveSize(g);
    forall v ensures v in values <==> v in t {
      CallsReach(s, m, t, g, v);
    }
    assert values == t;
  }

  lemma CallsReach(s: nat, m: nat, t: set<nat>, g: map<nat, nat>, v: nat)
    requires m == TWO32 && t <= Range(m) && g == map n | n in Calls(s, m, t) :: Bits(s, n)
    ensures Reaches(g, v) <==> v in t
  {
    hide Range, Bits;
    if v in t {
      var n := EveryBitsOnce(s, m, v);
      assert n in g && g[n] == v;
    }
  }

  /** Exactly half of any 2^32 consecutive draws are negative. */
  lemma HalfNegative(s: nat)
    ensures |set n: nat | n < TWO32 && Draw(s, n) < 0| == 0x8000_0000
  {
    NegativeCalls(s, TWO32, 0x8000_0000);
  }

  lemma NegativeCalls(s: nat, m: nat, h: nat)
    requires m == TWO32 && h == 0x8000_0000
    ensures |set n: nat | n < m && Draw(s, n) < 0| == h
  {
    hide State, Interval, Range;
    CountCalls(s, m, Interval(h, h));
    assert (set n: nat | n < m && Draw(s, n) < 0) == Calls(s, m, Interval(h, h));
  }
}
