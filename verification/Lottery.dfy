/** The lottery scheduler of proc.c: count the tickets of the RUNNABLE processes, draw a
    number, walk the table until the running count passes it. Tickets and counts are C ints. */
module Lottery {
  import opened Options
  import opened Powers
  import opened Sets
  import opened Lcg

  datatype ProcState = UNUSED | USED | SLEEPING | RUNNABLE | RUNNING | ZOMBIE
  datatype Slot = Slot(state: ProcState, tickets: int)

  /** A 32-bit two's complement int. */
  function Wrap(x: int): int {
    Signed(x % TWO32)
  }

  /** The C remainder: truncating division gives it the sign of a. */
  function Rem(a: int, b: int): (r: int)
    requires b > 0
    ensures r < b
    ensures a <= 0 ==> r <= 0
    ensures a >= 0 ==> 0 <= r
  {
    if a >= 0 then a % b else -((-a) % b)
  }

  function Share(p: Slot): int {
    if p.state.RUNNABLE? then p.tickets else 0
  }

  /** The tickets of the RUNNABLE processes among the first n. */
  function Prefix(ps: seq<Slot>, n: nat): int
    requires n <= |ps|
  {
    if n == 0 then 0 else Prefix(ps, n - 1) + Share(ps[n - 1])
  }

  function Total(ps: seq<Slot>): int {
    Prefix(ps, |ps|)
  }

  /** The walk with this winner stops at process k. */
  predicate Picks(ps: seq<Slot>, winner: int, k: nat) {
    && k < |ps| && ps[k].state.RUNNABLE? && Wrap(Prefix(ps, k + 1)) > winner
    && forall j: nat | j < k && ps[j].state.RUNNABLE? :: Wrap(Prefix(ps, j + 1)) <= winner
  }

  lemma WrapAdd(x: int, y: int)
    ensures Wrap(Wrap(x) + y) == Wrap(x + y)
  {
  }

  class Scheduler {
    var proc: seq<Slot>
    var rand_state: nat

    constructor (ps: seq<Slot>)
      ensures proc == ps && rand_state == 1
    {
      proc, rand_state := ps, 1;
    }

    /** random. */
    method Random() returns (r: int)
      modifies `rand_state
      ensures rand_state == Next(old(rand_state)) && r == Draw(old(rand_state), 0)
    {
      hide Next, Signed;
      FirstDraw(rand_state);
      rand_state := Next(rand_state);
      r := Signed(rand_state % TWO32);
    }

    /** Part 1 of scheduler. */
    method CountTickets() returns (total: int)
      ensures total == Wrap(Total(proc))
    {
      total := 0;
      for i := 0 to |proc|
        invariant total == Wrap(Prefix(proc, i))
      {
        if proc[i].state.RUNNABLE? {
          WrapAdd(Prefix(proc, i), proc[i].tickets);
          total := Wrap(total + proc[i].tickets);
        }
      }
    }

    /** Part 2 of scheduler: walk to the winner and run it. */
    method Walk(winner: int) returns (r: Option<nat>)
      requires winner < Wrap(Total(proc))
      modifies `proc
      ensures r.Some? <==> exists k: nat :: k < |old(proc)| && old(proc)[k].state.RUNNABLE?
      ensures r.Some? ==>
                Picks(old(proc), winner, r.value) && proc == old(proc)[r.value := old(proc)[r.value].(state := RUNNING)]
      ensures r == None ==> proc == old(proc)
    {
      var counter := 0;
      for i := 0 to |proc|
        invariant proc == old(proc)
        invariant counter == Wrap(Prefix(proc, i))
        invariant forall j: nat | j < i && proc[j].state.RUNNABLE? :: Wrap(Prefix(proc, j + 1)) <= winner
      {
        if proc[i].state.RUNNABLE? {
          WrapAdd(Prefix(proc, i), proc[i].tickets);
          counter := Wrap(counter + proc[i].tickets);
          if counter > winner {
            proc := proc[i := proc[i].(state := RUNNING)];
            return Some(i);
          }
        }
      }
      LastCount(proc, |proc|, winner);
      return None;
    }

    /** One round of scheduler. None means that the processor waits for an interrupt. */
    method Round() returns (r: Option<nat>)
      modifies this
      ensures r.Some? <==> Wrap(Total(old(proc))) > 0
      ensures r.Some? ==>
                && Picks(old(proc), Rem(Draw(old(rand_state), 0), Wrap(Total(old(proc)))), r.value)
                && proc == old(proc)[r.value := old(proc)[r.value].(state := RUNNING)]
                && rand_state == Next(old(rand_state))
      ensures r == None ==> proc == old(proc) && rand_state == old(rand_state)
    {
      var total := CountTickets();
      if total > 0 {
        var draw := Random();
        PositiveNeedsRunnable(proc);
        r := Walk(Rem(draw, total));
      } else {
        r := None;
      }
    }
  }

  /** At the last RUNNABLE process the count is the total. */
  lemma {:induction false} LastCount(ps: seq<Slot>, n: nat, winner: int)
    requires n <= |ps| && Prefix(ps, n) == Total(ps) && winner < Wrap(Total(ps))
    requires forall j: nat | j < n && ps[j].state.RUNNABLE? :: Wrap(Prefix(ps, j + 1)) <= winner
    ensures forall j: nat | j < n :: !ps[j].state.RUNNABLE?
  {
    if n > 0 {
      LastCount(ps, n - 1, winner);
    }
  }

  lemma {:induction false} NothingRunnable(ps: seq<Slot>, n: nat)
    requires n <= |ps| && forall j: nat | j < n :: !ps[j].state.RUNNABLE?
    ensures Prefix(ps, n) == 0
  {
    if n > 0 { NothingRunnable(ps, n - 1); }
  }

  lemma PositiveNeedsRunnable(ps: seq<Slot>)
    requires Wrap(Total(ps)) > 0
    ensures exists k: nat :: k < |ps| && ps[k].state.RUNNABLE?
  {
    if forall k: nat | k < |ps| :: !ps[k].state.RUNNABLE? {
      NothingRunnable(ps, |ps|);
    }
  }

  // ----- with enough room in an int

  /** Every RUNNABLE process has a ticket, and together they fit an int. */
  predicate Sound(ps: seq<Slot>) {
    && (forall k: nat | k < |ps| && ps[k].state.RUNNABLE? :: ps[k].tickets >= 1)
    && Total(ps) < 0x8000_0000
  }

  lemma {:induction false} PrefixGrows(ps: seq<Slot>, i: nat, j: nat)
    requires i <= j <= |ps| && forall k: nat | k < |ps| && ps[k].state.RUNNABLE? :: ps[k].tickets >= 1
    ensures 0 <= Prefix(ps, i) <= Prefix(ps, j)
    decreases j
  {
    if j > 0 {
      if i < j { PrefixGrows(ps, i, j - 1); } else { PrefixGrows(ps, i - 1, j - 1); }
    }
  }

  lemma NoWrap(ps: seq<Slot>, n: nat)
    requires Sound(ps) && n <= |ps|
    ensures Wrap(Prefix(ps, n)) == Prefix(ps, n)
  {
    PrefixGrows(ps, n, |ps|);
  }

  /** Some process is picked as soon as one is RUNNABLE. */
  lemma RunnableIsPicked(ps: seq<Slot>, k: nat)
    requires Sound(ps) && k < |ps| && ps[k].state.RUNNABLE?
    ensures Wrap(Total(ps)) > 0
  {
    NoWrap(ps, |ps|);
    PrefixGrows(ps, k + 1, |ps|);
    PrefixGrows(ps, k, k);
  }

  /** A winner that is not negative picks the process whose range of tickets it falls into. */
  lemma PicksRange(ps: seq<Slot>, w: nat, k: nat)
    requires Sound(ps) && k < |ps| && ps[k].state.RUNNABLE?
    ensures Picks(ps, w, k) <==> Prefix(ps, k) <= w < Prefix(ps, k) + ps[k].tickets
  {
    NoWrap(ps, k + 1);
    PrefixGrows(ps, k, k);
    if Prefix(ps, k) <= w {
      forall j: nat | j < k && ps[j].state.RUNNABLE? ensures Wrap(Prefix(ps, j + 1)) <= w {
        NoWrap(ps, j + 1);
        PrefixGrows(ps, j + 1, k);
      }
    } else {
      EarlierCounts(ps, k, w);
    }
  }

  /** If the counts before k have passed w, some RUNNABLE process before k stops the walk. */
  lemma {:induction false} EarlierCounts(ps: seq<Slot>, k: nat, w: nat)
    requires Sound(ps) && k <= |ps| && w < Prefix(ps, k)
    ensures exists j: nat :: j < k && ps[j].state.RUNNABLE? && Wrap(Prefix(ps, j + 1)) > w
  {
    if ps[k - 1].state.RUNNABLE? {
      NoWrap(ps, k);
      assert Wrap(Prefix(ps, k - 1 + 1)) > w;
    } else {
      EarlierCounts(ps, k - 1, w);
    }
  }

  /** PROPORTIONAL. Of the total tickets' winner values, exactly as many pick a RUNNABLE
      process as it has tickets. */
  lemma Proportional(ps: seq<Slot>, k: nat)
    requires Sound(ps) && k < |ps| && ps[k].state.RUNNABLE?
    ensures |set w: nat | w < Total(ps) && Picks(ps, w, k)| == ps[k].tickets
  {
    hide Picks, Interval;
    PrefixGrows(ps, k, k);
    PrefixGrows(ps, k + 1, |ps|);
    var mine := Interval(Prefix(ps, k), ps[k].tickets);
    forall w: nat ensures w < Total(ps) && Picks(ps, w, k) <==> w in mine {
      PicksRange(ps, w, k);
    }
    assert (set w: nat | w < Total(ps) && Picks(ps, w, k)) == mine;
  }

  /** A draw that is not negative leaves 0..total-1; every negative draw, and zero, picks the
      first RUNNABLE process. */
  lemma NegativePicksFirst(ps: seq<Slot>, draw: int, k: nat)
    requires Sound(ps) && k < |ps| && ps[k].state.RUNNABLE? && draw <= 0
    requires forall j: nat | j < k :: !ps[j].state.RUNNABLE?
    ensures Wrap(Total(ps)) > 0 && Picks(ps, Rem(draw, Wrap(Total(ps))), k)
  {
    hide Wrap, Rem;
    RunnableIsPicked(ps, k);
    NothingRunnable(ps, k);
    NoWrap(ps, k + 1);
  }

  // ----- the draw and the walk together

  /** The draw lies in 0..t-1, as promised, exactly if the generator's value is not negative or is
      a multiple of t. */
  lemma DrawInRange(d: int, t: int)
    requires t > 0
    ensures 0 <= Rem(d, t) < t <==> d >= 0 || (-d) % t == 0
  {
  }

  /** How many of the numbers below n leave a remainder modulo t that is one of the len numbers
      from lo on. */
  function Hits(n: nat, t: nat, lo: nat, len: nat): nat
    requires t > 0
  {
    (n / t) * len + Clip(n % t - lo, len)
  }

  /** x, but no less than 0 and no more than len. */
  function Clip(x: int, len: nat): nat {
    if x < 0 then 0 else if x > len then len else x
  }

  lemma DivNext(n: nat, t: nat)
    requires t > 0
    ensures if n % t + 1 < t then (n + 1) / t == n / t && (n + 1) % t == n % t + 1
            else (n + 1) / t == n / t + 1 && (n + 1) % t == 0
  {
    var q, r := n / t, n % t;
    assert n == t * q + r;
    if r + 1 < t { DivIs(n + 1, t, q, r + 1); } else { DivIs(n + 1, t, q + 1, 0); }
  }

  lemma DivIs(n: nat, t: nat, q: nat, r: nat)
    requires r < t && n == t * q + r
    ensures n / t == q && n % t == r
  {
    var d := n / t - q;
    assert n == t * (n / t) + n % t;
    assert t * d == r - n % t by { assert t * (n / t) - t * q == t * d; }
    assert t * (-d) == -(t * d);
    if d >= 1 { Factor(t, d); }
    if d <= -1 { Factor(t, -d); }
  }

  lemma Factor(t: nat, d: nat)
    requires d >= 1
    ensures t * d >= t
  {
    assert t * d == t * (d - 1) + t;
  }

  lemma HitsNext(n: nat, t: nat, lo: nat, len: nat)
    requires t > 0 && lo + len <= t
    ensures Hits(n + 1, t, lo, len) == Hits(n, t, lo, len) + if lo <= n % t < lo + len then 1 else 0
  {
    DivNext(n, t);
    var q, r := n / t, n % t;
    hide Hits;
    assert Hits(n, t, lo, len) == q * len + Clip(r - lo, len) by { HitsIs(n, t, lo, len); }
    HitsIs(n + 1, t, lo, len);
    assert (q + 1) * len == q * len + len;
  }

  lemma HitsIs(n: nat, t: nat, lo: nat, len: nat)
    requires t > 0
    ensures Hits(n, t, lo, len) == (n / t) * len + Clip(n % t - lo, len)
  {
  }

  ghost function HitSet(n: nat, t: nat, lo: nat, len: nat): set<nat>
    requires t > 0
  {
    set v: nat | v < n && lo <= v % t < lo + len
  }

  lemma {:induction false} CountHits(n: nat, t: nat, lo: nat, len: nat)
    requires t > 0 && lo + len <= t
    ensures |HitSet(n, t, lo, len)| == Hits(n, t, lo, len)
  {
    if n == 0 {
      assert HitSet(0, t, lo, len) == {};
      DivIs(0, t, 0, 0);
    } else {
      hide Hits;
      CountHits(n - 1, t, lo, len);
      HitsNext(n - 1, t, lo, len);
      var before := HitSet(n - 1, t, lo, len);
      assert HitSet(n, t, lo, len) == if lo <= (n - 1) % t < lo + len then before + {n - 1} else before;
    }
  }

  /** A process with no tickets before it is the first RUNNABLE one. */
  lemma {:induction false} NoneBefore(ps: seq<Slot>, k: nat)
    requires Sound(ps) && k <= |ps| && Prefix(ps, k) == 0
    ensures forall j: nat | j < k :: !ps[j].state.RUNNABLE?
  {
    if k > 0 {
      PrefixGrows(ps, k - 1, k);
      NoneBefore(ps, k - 1);
    }
  }

  /** Which 32-bit values make process k win. */
  lemma ValueWins(ps: seq<Slot>, k: nat, v: nat)
    requires Sound(ps) && k < |ps| && ps[k].state.RUNNABLE? && v < TWO32
    ensures Total(ps) > 0
    ensures Picks(ps, Rem(Signed(v), Total(ps)), k) <==>
              if v < 0x8000_0000 then Prefix(ps, k) <= v % Total(ps) < Prefix(ps, k) + ps[k].tickets
              else Prefix(ps, k) == 0
  {
    hide Picks, Rem, Wrap;
    RunnableIsPicked(ps, k);
    NoWrap(ps, |ps|);
    PrefixGrows(ps, k, k);
    var t := Total(ps);
    if v < 0x8000_0000 {
      RemIs(v, t);
      PicksRange(ps, v % t, k);
    } else if Prefix(ps, k) == 0 {
      NoneBefore(ps, k);
      NegativePicksFirst(ps, Signed(v), k);
    } else {
      EarlierCounts(ps, k, 0);
      NotPicked(ps, Rem(Signed(v), t), k);
    }
  }

  lemma RemIs(v: nat, t: int)
    requires t > 0
    ensures Rem(v, t) == v % t
  {
  }

  lemma NotPicked(ps: seq<Slot>, w: int, k: nat)
    requires exists j: nat :: j < k <= |ps| && ps[j].state.RUNNABLE? && Wrap(Prefix(ps, j + 1)) > w
    ensures !Picks(ps, w, k)
  {
  }

  /** How many of 2^32 draws a process wins: its tickets for each full round of the values that are
      not negative, what the last round leaves of its range, and, if it is the first RUNNABLE
      process, all the negative ones. */
  function Wins(ps: seq<Slot>, k: nat): nat
    requires k < |ps| && Total(ps) > 0 && Prefix(ps, k) >= 0 && ps[k].tickets >= 0
  {
    Hits(0x8000_0000, Total(ps), Prefix(ps, k), ps[k].tickets) + if Prefix(ps, k) == 0 then 0x8000_0000 else 0
  }

  /** EXACT SHARES. The wins of each RUNNABLE process in any 2^32 consecutive draws. */
  lemma WinsExactly(ps: seq<Slot>, s: nat, k: nat)
    requires Sound(ps) && k < |ps| && ps[k].state.RUNNABLE?
    ensures Wrap(Total(ps)) == Total(ps) > 0 && Prefix(ps, k) >= 0
    ensures |set n: nat | n < TWO32 && Picks(ps, Rem(Draw(s, n), Total(ps)), k)| == Wins(ps, k)
  {
    RunnableIsPicked(ps, k);
    NoWrap(ps, |ps|);
    PrefixGrows(ps, k, k);
    PrefixGrows(ps, k + 1, |ps|);
    CountWins(ps, s, k, TWO32, 0x8000_0000);
  }

  lemma CountWins(ps: seq<Slot>, s: nat, k: nat, m: nat, h: nat)
    requires Sound(ps) && k < |ps| && ps[k].state.RUNNABLE? && m == TWO32 && h == 0x8000_0000
    requires Total(ps) > 0 && Prefix(ps, k) >= 0 && Prefix(ps, k) + ps[k].tickets <= Total(ps)
    ensures |set n: nat | n < m && Picks(ps, Rem(Draw(s, n), Total(ps)), k)|
            == Hits(h, Total(ps), Prefix(ps, k), ps[k].tickets) + if Prefix(ps, k) == 0 then h else 0
  {
    hide State, Interval, Range, Picks, Rem, Prefix, Hits;
    var low := HitSet(h, Total(ps), Prefix(ps, k), ps[k].tickets);
    var high := if Prefix(ps, k) == 0 then Interval(h, h) else {};
    CountHits(h, Total(ps), Prefix(ps, k), ps[k].tickets);
    DisjointSize(low + high, low, high);
    CountCalls(s, m, low + high);
    forall v: nat | v < m ensures v in low + high <==> Picks(ps, Rem(Signed(v), Total(ps)), k) {
      ValueWins(ps, k, v);
    }
    assert (set n: nat | n < m && Picks(ps, Rem(Draw(s, n), Total(ps)), k)) == Calls(s, m, low + high);
  }

  /** Without room in an int the scheduler can find nobody: two processes that asked for
      all the tickets an int can hold. */
  lemma OverflowStarves()
    ensures var p := Slot(RUNNABLE, 0x7fff_ffff); Wrap(Total([p, p])) <= 0
  {
    var p := Slot(RUNNABLE, 0x7fff_ffff);
    assert Prefix([p, p], 1) == 0x7fff_ffff;
    assert Prefix([p, p], 2) == 0xffff_fffe;
  }

  // ----- tickets over a run

  datatype Event =
    | Alloc(i: nat)                        // allocproc
    | Fork(parent: nat, i: nat)            // the copy in kfork
    | SetTickets(i: nat, n: int)           // sys_settickets
    | Switch(i: nat, state: ProcState)     // any other change of state of a process in use
    | Release(i: nat)                      // freeproc

  /** The table after an event; one that does not apply changes nothing. */
  function Happen(ps: seq<Slot>, e: Event): seq<Slot> {
    match e
    case Alloc(i) =>
      if i < |ps| && ps[i].state.UNUSED? then ps[i := Slot(USED, 10)] else ps
    case Fork(p, i) =>
      if p < |ps| && i < |ps| && ps[p].state.RUNNING?
          && ps[i].state.USED? then ps[i := ps[i].(tickets := ps[p].tickets)]
      else ps
    case SetTickets(i, n) =>
      if i < |ps| && ps[i].state.RUNNING? then ps[i := ps[i].(tickets := if n < 1 then 1 else n)] else ps
    case Switch(i, st) =>
      if i < |ps| && !ps[i].state.UNUSED? && !st.UNUSED? then ps[i := ps[i].(state := st)] else ps
    case Release(i) =>
      if i < |ps| then ps[i := ps[i].(state := UNUSED)] else ps
  }

  function Run(ps: seq<Slot>, es: seq<Event>): seq<Slot> {
    if es == [] then ps else Happen(Run(ps, es[..|es| - 1]), es[|es| - 1])
  }

  predicate TicketsPositive(ps: seq<Slot>) {
    forall i: nat | i < |ps| && !ps[i].state.UNUSED? :: ps[i].tickets >= 1
  }

  /** From the empty table on, every process in use has at least one ticket, in every run. */
  lemma {:induction false} TicketsStayPositive(ps: seq<Slot>, es: seq<Event>)
    requires forall i: nat | i < |ps| :: ps[i].state.UNUSED?
    ensures TicketsPositive(Run(ps, es)) && |Run(ps, es)| == |ps|
    ensures Total(Run(ps, es)) < 0x8000_0000 ==> Sound(Run(ps, es))
  {
    if es != [] {
      TicketsStayPositive(ps, es[..|es| - 1]);
    }
  }

  /** Event e frees process i or gives it other tickets. */
  predicate Touches(e: Event, i: nat) {
    match e
    case Alloc(_) => false
    case Fork(_, j) => j == i
    case SetTickets(j, _) => j == i
    case Switch(_, _) => false
    case Release(j) => j == i
  }

  lemma StillHas(ps: seq<Slot>, e: Event, i: nat)
    requires i < |ps| && !ps[i].state.UNUSED? && !Touches(e, i)
    ensures var qs := Happen(ps, e); |qs| == |ps| && !qs[i].state.UNUSED? && qs[i].tickets == ps[i].tickets
  {
  }

  lemma {:induction false} TicketsKept(ps: seq<Slot>, i: nat, es: seq<Event>)
    requires i < |ps| && !ps[i].state.UNUSED? && forall k | 0 <= k < |es| :: !Touches(es[k], i)
    ensures var qs := Run(ps, es); |qs| == |ps| && !qs[i].state.UNUSED? && qs[i].tickets == ps[i].tickets
    decreases |es|
  {
    hide Happen, Touches;
    if es != [] {
      var n := |es| - 1;
      TicketsKept(ps, i, es[..n]);
      StillHas(Run(ps, es[..n]), es[n], i);
    }
  }

  /** settickets(n) gives a process n tickets, but at least one; fork gives the child as many as the
      parent has; allocproc gives 10. They stay so over every run, whatever the other processes do, until
      the process sets them again or is freed. */
  lemma TicketsLast(ps: seq<Slot>, e: Event, i: nat, es: seq<Event>)
    requires i < |ps| && forall k | 0 <= k < |es| :: !Touches(es[k], i)
    requires match e
             case Alloc(j) => j == i && ps[i].state.UNUSED?
             case Fork(p, j) => j == i && p < |ps| && ps[p].state.RUNNING? && ps[i].state.USED?
             case SetTickets(j, _) => j == i && ps[i].state.RUNNING?
             case _ => false
    ensures var qs := Run(Happen(ps, e), es);
            && |qs| == |ps| && !qs[i].state.UNUSED?
            && (e.Alloc? ==> qs[i].tickets == 10)
            && (e.Fork? ==> qs[i].tickets == ps[e.parent].tickets)
            && (e.SetTickets? && e.n >= 1 ==> qs[i].tickets == e.n)
            && (e.SetTickets? && e.n < 1 ==> qs[i].tickets == 1)
  {
    hide Run, Touches;
    TicketsKept(Happen(ps, e), i, es);
  }
}
