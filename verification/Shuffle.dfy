/** The test shuffler: repeated passes over the same list of tests, each pass running
    the one test the pseudorandom generator points at. */
module Shuffle {
  import opened Common
  import opened FullPeriod

  /** The width of unsigned long, in bits: 32 or more. */
  type Width = b: nat | b >= 32 && b % 8 == 0 witness 32

  /** Unsigned long arithmetic. */
  function Wrap(bits: Width, x: nat): nat {
    x % Pow2(bits)
  }

  /** Bitwise and. */
  function And(x: nat, y: nat): nat {
    if x == 0 || y == 0 then 0
    else (if x % 2 == 1 && y % 2 == 1 then 1 else 0) + 2 * And(x / 2, y / 2)
  }

  const PRIMES: seq<nat> := [11, 101, 1009, 10007, 100003, 1000003, 10000019, 100000007,
                             1000000007, 1538461, 1865471, 17471, 2147483647]
  /** sizeof(primes[0]) and sizeof(primes). */
  function LongBytes(bits: Width): (n: nat)
    ensures n > 0
  {
    bits / 8
  }

  function PrimesBytes(bits: Width): (n: nat)
    ensures n > 0
  {
    |PRIMES| * LongBytes(bits)
  }

  /** The index as the macro computes it: a remainder of bytes, then a quotient. */
  function PrimeIndex(bits: Width, x: nat): (i: nat)
    ensures i < |PRIMES| && i == x % (13 * (bits / 8)) / (bits / 8)
  {
    var n, y := LongBytes(bits), x % PrimesBytes(bits);
    assert (y / n - 13) * n == y / n * n - 13 * n < 0;
    y / n
  }

  // ---------------------------------------------------------------- masks and wrapping

  lemma {:induction false} HalfMod(x: nat, k: nat)
    requires k > 0
    ensures x % Pow2(k) == x % 2 + 2 * (x / 2 % Pow2(k - 1))
  {
    var p := Pow2(k - 1);
    var q, r := x / 2 / p, x / 2 % p;
    assert x / 2 == q * p + r;
    Twice(q, p);
    assert x == q * (2 * p) + (2 * r + x % 2);
    Remainder(x, 2 * p, q, 2 * r + x % 2);
  }

  lemma Remainder(z: nat, p: nat, q: nat, r: nat)
    requires r < p && z == q * p + r
    ensures z % p == r
  {
    var q', r' := z / p, z % p;
    assert z == q' * p + r';
    Comm(q - q', p);
    Dist(p, q, -q');
    SmallMultiple(q - q', p, r' - r);
  }

  lemma SmallMultiple(d: int, p: int, e: int)
    requires d * p == e && -p < e < p
    ensures d == 0
  {
    assert d >= 1 ==> d * p >= p;
    assert d <= -1 ==> d * p <= -p;
  }

  /** Masking with 2^k - 1 is reduction modulo 2^k. */
  lemma {:induction false} MaskIsMod(x: nat, k: nat)
    ensures And(x, Pow2(k) - 1) == x % Pow2(k)
    decreases k
  {
    if k > 0 {
      MaskIsMod(x / 2, k - 1);
      HalfMod(x, k);
      var m := Pow2(k) - 1;
      assert m % 2 == 1 && m / 2 == Pow2(k - 1) - 1;
      if x == 0 {
        assert 0 % Pow2(k) == 0;
      }
    }
  }

  lemma {:induction false} PowSplit(i: nat, j: nat)
    ensures Pow2(i + j) == Pow2(i) * Pow2(j)
  {
    if i > 0 {
      PowSplit(i - 1, j);
    }
  }

  lemma Reorder(q: nat, w: nat, p: nat)
    ensures q * (p * w) == (q * w) * p
  {
    Assoc(q, w, p);
    Comm(w, p);
  }

  lemma NestedMod(x: nat, p: nat, w: nat)
    requires p > 0 && w > 0
    ensures p * w > 0 && (x % (p * w)) % p == x % p
  {
    assert p * w > 0;
    var q, r := x / (p * w), x % (p * w);
    var q', r' := r / p, r % p;
    Reorder(q, w, p);
    Collect(q * w, q', p);
    MulNat(q, w);
    Remainder(x, p, q * w + q', r');
  }

  /** Wrapping at the width of a word does not change a number modulo a smaller power of two. */
  lemma WrapHarmless(bits: Width, x: nat, k: nat)
    requires k <= bits
    ensures Wrap(bits, x) % Pow2(k) == x % Pow2(k)
  {
    hide Pow2;
    PowSplit(k, bits - k);
    NestedMod(x, Pow2(k), Pow2(bits - k));
  }

  lemma AddMod(x: nat, y: nat, p: nat)
    requires p > 0
    ensures (x % p + y) % p == (x + y) % p
  {
    var q, z := x / p, x % p + y;
    var q', r' := z / p, z % p;
    Collect(q, q', p);
    Remainder(x + y, p, q + q', r');
  }

  lemma Collect(q: nat, q': nat, p: nat)
    ensures q * p + q' * p == (q + q') * p
  {
  }

  lemma MulMod(a: nat, x: nat, p: nat)
    requires p > 0
    ensures (a * (x % p)) % p == (a * x) % p
  {
    var q, r := x / p, x % p;
    var z := a * r;
    var q', r' := z / p, z % p;
    Distribute(a, q, p, r, q', r');
    Remainder(a * x, p, a * q + q', r');
  }

  lemma Distribute(a: nat, q: nat, p: nat, r: nat, q': nat, r': nat)
    requires a * r == q' * p + r'
    ensures a * (q * p + r) == (a * q + q') * p + r'
  {
    Dist(a, q * p, r);
    Assoc(a, q, p);
    Collect(a * q, q', p);
  }

  /** One step of the generator as the code computes it, with its wrapping and its mask. */
  function StepValue(bits: Width, a: nat, c: nat, state: nat, mod: nat): nat
    requires mod > 0
  {
    And(Wrap(bits, Wrap(bits, a * state) + c), mod - 1)
  }

  /** Congruence modulo p. */
  ghost predicate Cong(u: nat, v: nat, p: nat)
    requires p > 0
  {
    u % p == v % p
  }

  lemma CongAdd(u: nat, v: nat, c: nat, p: nat)
    requires p > 0 && Cong(u, v, p)
    ensures Cong(u + c, v + c, p)
  {
    AddMod(u, c, p);
    AddMod(v, c, p);
  }

  lemma CongMul(a: nat, u: nat, v: nat, p: nat)
    requires p > 0 && Cong(u, v, p)
    ensures Cong(a * u, a * v, p)
  {
    MulMod(a, u, p);
    MulMod(a, v, p);
  }

  lemma CongWrap(bits: Width, u: nat, k: nat)
    requires k <= bits
    ensures Cong(Wrap(bits, u), u, Pow2(k))
  {
    WrapHarmless(bits, u, k);
  }

  lemma CongChain(u: nat, v: nat, w: nat, p: nat)
    requires p > 0 && Cong(u, v, p) && Cong(v, w, p)
    ensures Cong(u, w, p)
  {
  }

  /** The generator's state stands for iterate t; the seed's state need not be reduced yet. */
  ghost predicate Agrees(a: nat, c: nat, x: nat, k: nat, t: nat, state: nat) {
    Cong(state, Iter(a, c, x, t), Pow2(k))
  }

  /** The code's step is congruent to the unreduced one. */
  lemma StepCong(bits: Width, a: nat, c: nat, state: nat, y: nat, k: nat)
    requires k <= bits && Cong(state, y, Pow2(k))
    ensures Cong(Wrap(bits, Wrap(bits, a * state) + c), a * y + c, Pow2(k))
  {
    hide Cong, Wrap, Pow2;
    var p, u, v := Pow2(k), a * state, a * y;
    CongWrap(bits, u, k);
    CongMul(a, state, y, p);
    CongChain(Wrap(bits, u), u, v, p);
    CongAdd(Wrap(bits, u), v, c, p);
    CongWrap(bits, Wrap(bits, u) + c, k);
    CongChain(Wrap(bits, Wrap(bits, u) + c), Wrap(bits, u) + c, v + c, p);
  }

  /** Starting from a state that agrees with iterate t, the step lands on state t + 1. */
  lemma StepFollowsOrbit(bits: Width, a: nat, c: nat, x: nat, k: nat, t: nat, state: nat)
    requires k <= bits && Agrees(a, c, x, k, t, state)
    ensures StepValue(bits, a, c, state, Pow2(k)) == Orbit(a, c, x, k, t + 1)
  {
    hide Wrap, Pow2, And;
    MaskIsMod(Wrap(bits, Wrap(bits, a * state) + c), k);
    StepCong(bits, a, c, state, Iter(a, c, x, t), k);
  }

  lemma OrbitAgrees(a: nat, c: nat, x: nat, k: nat, t: nat)
    ensures Agrees(a, c, x, k, t, Orbit(a, c, x, k, t))
  {
    Remainder(Orbit(a, c, x, k, t), Pow2(k), 0, Orbit(a, c, x, k, t));
  }

  // ---------------------------------------------------------------- which tests a run visits

  /** The test numbers among the first t states, in order. */
  ghost function Visited(a: nat, c: nat, x: nat, k: nat, n: nat, t: nat): (s: seq<nat>)
    ensures forall i :: 0 <= i < |s| ==> s[i] < n
  {
    if t == 0 then []
    else
      var before, v := Visited(a, c, x, k, n, t - 1), Orbit(a, c, x, k, t);
      if v < n then before + [v] else before
  }

  lemma {:induction false} VisitedFrom(a: nat, c: nat, x: nat, k: nat, n: nat, t: nat, v: nat)
    requires v in Visited(a, c, x, k, n, t)
    ensures exists u :: 0 < u <= t && Orbit(a, c, x, k, u) == v
  {
    if v in Visited(a, c, x, k, n, t - 1) {
      VisitedFrom(a, c, x, k, n, t - 1, v);
      var u :| 0 < u <= t - 1 && Orbit(a, c, x, k, u) == v;
      assert Orbit(a, c, x, k, u) == v;
    } else {
      assert Orbit(a, c, x, k, t) == v;
    }
  }

  lemma {:induction false} VisitedHas(a: nat, c: nat, x: nat, k: nat, n: nat, t: nat, u: nat)
    requires 0 < u <= t && Orbit(a, c, x, k, u) < n
    ensures Orbit(a, c, x, k, u) in Visited(a, c, x, k, n, t)
  {
    if u < t {
      VisitedHas(a, c, x, k, n, t - 1, u);
    }
  }

  lemma {:induction false} VisitedDistinct(a: nat, c: nat, x: nat, k: nat, n: nat, t: nat)
    requires a % 4 == 1 && c % 2 == 1 && t <= Pow2(k)
    ensures Distinct(Visited(a, c, x, k, n, t))
  {
    if t > 0 {
      VisitedDistinct(a, c, x, k, n, t - 1);
      var v := Orbit(a, c, x, k, t);
      if v in Visited(a, c, x, k, n, t - 1) {
        VisitedFrom(a, c, x, k, n, t - 1, v);
        var u :| 0 < u <= t - 1 && Orbit(a, c, x, k, u) == v;
        OrbitInjective(a, c, x, k, u, t);
      }
    }
  }

  lemma {:induction false} VisitedGrows(a: nat, c: nat, x: nat, k: nat, n: nat, t: nat, u: nat)
    requires t <= u && forall i :: t < i <= u ==> Orbit(a, c, x, k, i) >= n
    ensures Visited(a, c, x, k, n, u) == Visited(a, c, x, k, n, t)
    decreases u
  {
    if t < u {
      assert Orbit(a, c, x, k, u) >= n;
      VisitedGrows(a, c, x, k, n, t, u - 1);
    }
  }

  lemma VisitedNext(a: nat, c: nat, x: nat, k: nat, n: nat, t: nat, u: nat)
    requires t < u && Orbit(a, c, x, k, u) < n
    requires forall i :: t < i < u ==> Orbit(a, c, x, k, i) >= n
    ensures Visited(a, c, x, k, n, u) == Visited(a, c, x, k, n, t) + [Orbit(a, c, x, k, u)]
  {
    VisitedGrows(a, c, x, k, n, t, u - 1);
  }

  /** A whole period visits every test number. */
  lemma VisitedAll(a: nat, c: nat, x: nat, k: nat, n: nat)
    requires a % 4 == 1 && c % 2 == 1 && n <= Pow2(k)
    ensures |Visited(a, c, x, k, n, Pow2(k))| == n
    ensures forall v :: 0 <= v < n ==> v in Visited(a, c, x, k, n, Pow2(k))
  {
    var s := Visited(a, c, x, k, n, Pow2(k));
    forall v | 0 <= v < n
      ensures v in s
    {
      VisitsOnce(a, c, x, k, v);
      var t :| 0 < t <= Pow2(k) && Orbit(a, c, x, k, t) == v;
      VisitedHas(a, c, x, k, n, Pow2(k), t);
    }
    VisitedDistinct(a, c, x, k, n, Pow2(k));
    DistinctSize(s);
    assert SetOf(s) == Below(n);
  }

  lemma {:induction false} VisitedPrefix(a: nat, c: nat, x: nat, k: nat, n: nat, t: nat, u: nat)
    requires t <= u
    ensures Visited(a, c, x, k, n, t) <= Visited(a, c, x, k, n, u)
    decreases u
  {
    if t < u {
      VisitedPrefix(a, c, x, k, n, t, u - 1);
    }
  }

  /** The states follow the recurrence, from the seed's. */
  lemma OrbitMeans(a: nat, c: nat, x: nat, k: nat, t: nat)
    ensures Orbit(a, c, x, k, 0) == x % Pow2(k)
    ensures Orbit(a, c, x, k, t + 1) == (a * Orbit(a, c, x, k, t) + c) % Pow2(k)
  {
    hide Pow2, Iter;
    assert Iter(a, c, x, 0) == x && Iter(a, c, x, t + 1) == a * Iter(a, c, x, t) + c by {
      IterNext(a, c, x, t);
    }
    var p, y := Pow2(k), Iter(a, c, x, t);
    OrbitAgrees(a, c, x, k, t);
    CongMul(a, y % p, y, p);
    CongAdd(a * (y % p), a * y, c, p);
  }

  lemma IterNext(a: nat, c: nat, x: nat, t: nat)
    ensures Iter(a, c, x, 0) == x && Iter(a, c, x, t + 1) == a * Iter(a, c, x, t) + c
  {
  }

  /** These are the times up to t, in order, at which the state is below n. */
  ghost predicate Times(a: nat, c: nat, x: nat, k: nat, n: nat, t: nat, ts: seq<nat>) {
    && (forall i, j :: 0 <= i < j < |ts| ==> ts[i] < ts[j])
    && (forall u: nat :: u in ts <==> 0 < u <= t && Orbit(a, c, x, k, u) < n)
  }

  /** The numbers visited are the states at those times. */
  lemma {:induction false} VisitedMeans(a: nat, c: nat, x: nat, k: nat, n: nat, t: nat) returns (ts: seq<nat>)
    ensures Times(a, c, x, k, n, t, ts) && |Visited(a, c, x, k, n, t)| == |ts|
    ensures forall i :: 0 <= i < |ts| ==> Visited(a, c, x, k, n, t)[i] == Orbit(a, c, x, k, ts[i])
  {
    hide Orbit;
    ts := [];
    if t > 0 {
      ts := VisitedMeans(a, c, x, k, n, t - 1);
      if Orbit(a, c, x, k, t) < n {
        forall i | 0 <= i < |ts| ensures ts[i] < t { assert ts[i] in ts; }
        ts := ts + [t];
      }
    }
  }

  /** k is the least with n numbers below 2^k. */
  ghost predicate IsCeil(k: nat, n: nat) {
    n <= Pow2(k) && (k > 0 ==> Pow2(k - 1) < n)
  }

  lemma OneCeil(k: nat, k': nat, n: nat)
    requires IsCeil(k, n) && IsCeil(k', n)
    ensures k == k'
  {
    if k < k' {
      PowMonotone(k, k' - 1);
    } else if k' < k {
      PowMonotone(k', k - 1);
    }
  }

  /** While some test has not run, the generator still reaches one within the period. */
  lemma NextExists(a: nat, c: nat, x: nat, k: nat, n: nat, t: nat)
    requires a % 4 == 1 && c % 2 == 1 && n <= Pow2(k) && t <= Pow2(k)
    requires |Visited(a, c, x, k, n, t)| < n
    ensures exists u :: t < u <= Pow2(k) && Orbit(a, c, x, k, u) < n
  {
    VisitedAll(a, c, x, k, n);
    if forall u :: t < u <= Pow2(k) ==> Orbit(a, c, x, k, u) >= n {
      VisitedGrows(a, c, x, k, n, t, Pow2(k));
    }
  }

  /** Different numbers below n, n of them, are each number below n exactly once. */
  lemma DistinctComplete(s: seq<nat>, n: nat)
    requires Distinct(s) && |s| == n && forall i :: 0 <= i < |s| ==> s[i] < n
    ensures forall v :: 0 <= v < n ==> v in s
  {
    forall v | 0 <= v < n
      ensures v in s
    {
      Pigeonhole(s, v);
    }
  }

  // ---------------------------------------------------------------- the shuffler

  /** The positions, among the tests, of those the name filters let through. */
  function Matching(tests: seq<bool>): (s: seq<nat>)
    ensures |s| <= |tests|
    ensures forall i :: 0 <= i < |s| ==> s[i] < |tests| && tests[s[i]]
  {
    if tests == [] then []
    else
      var n := |tests| - 1;
      if tests[n] then Matching(tests[..n]) + [n] else Matching(tests[..n])
  }

  lemma {:induction false} MatchingExact(tests: seq<bool>)
    ensures Distinct(Matching(tests))
    ensures forall i :: 0 <= i < |tests| && tests[i] ==> i in Matching(tests)
  {
    if tests != [] {
      var n := |tests| - 1;
      MatchingExact(tests[..n]);
      forall i | 0 <= i < |tests| && tests[i]
        ensures i in Matching(tests)
      {
        if i < n { assert tests[..n][i]; }
      }
    }
  }

  class Prng {
    const bits: Width
    var randomOrder: bool
    var initialized: bool
    var state: nat
    var count: nat
    var countCeil: nat
    var countRun: nat
    var mod: nat
    var a: nat
    var c: nat

    /** All fields zero, as GREATEST_INIT leaves them. */
    constructor (bits: Width)
      ensures this.bits == bits && !initialized && !randomOrder
    {
      this.bits := bits;
      randomOrder, initialized := false, false;
      state, count, countCeil, countRun, mod, a, c := 0, 0, 0, 0, 0, 0, 0;
    }

    /** greatest_prng_init_first_pass. */
    method InitFirstPass()
      modifies `randomOrder, `countRun
      ensures randomOrder && countRun == 0
    {
      randomOrder, countRun := true, 0;
    }

    /** greatest_prng_init_second_pass. */
    method InitSecondPass(seed: nat) returns (ok: bool, ghost k: nat)
      requires seed < Pow2(bits) && count <= Pow2(bits - 1)
      modifies `mod, `countCeil, `state, `a, `c, `initialized
      ensures ok <==> count > 0
      ensures !ok ==> initialized == old(initialized)
      ensures ok ==> initialized && countCeil == count && k < bits && mod == Pow2(k) && count <= mod
      ensures ok ==> a % 4 == 1 && c % 2 == 1 && IsCeil(k, count)
      ensures ok ==> Seeded(bits, seed, state, a, c)
    {
      hide Wrap, Pow2, And, PrimeIndex, Seeded, IsCeil;
      k := 0;
      assert Pow2(0) == 1 by { PowSmall(bits); }
      if count == 0 {
        return false, k;
      }
      mod := 1;
      countCeil := count;
      while mod < count
        invariant k < bits && mod == Pow2(k) && countCeil == count && (k > 0 ==> Pow2(k - 1) < count)
        decreases count - mod
      {
        KeepDoubling(bits, k, count);
        mod := Wrap(bits, mod * 2);
        k := k + 1;
      }
      state := And(seed, 0x1fffffff);
      a := Wrap(bits, 4 * state + 1);
      c := PRIMES[PrimeIndex(bits, Wrap(bits, seed * 16451))];
      SeededIs(bits, seed, state, a, c);
      CeilIs(k, count);
      initialized := true;
      return true, k;
    }

    /** greatest_prng_step: t is the number of the state before the call, u after it. */
    method Step(ghost x: nat, ghost k: nat, ghost t: nat) returns (ghost u: nat)
      requires k <= bits && mod == Pow2(k) && Agrees(a, c, x, k, t, state)
      requires exists v :: t < v <= Pow2(k) && Orbit(a, c, x, k, v) < countCeil
      modifies `state
      ensures t < u <= Pow2(k) && state == Orbit(a, c, x, k, u) && state < countCeil
      ensures Agrees(a, c, x, k, u, state)
      ensures forall i :: t < i < u ==> Orbit(a, c, x, k, i) >= countCeil
    {
      hide Pow2, Iter, And, Wrap, Orbit, StepValue, Agrees;
      ghost var v :| t < v <= Pow2(k) && Orbit(a, c, x, k, v) < countCeil;
      StepFollowsOrbit(bits, a, c, x, k, t, state);
      OrbitAgrees(a, c, x, k, t + 1);
      state := StepValue(bits, a, c, state, mod);
      u := t + 1;
      while state >= countCeil
        invariant t < u <= v && state == Orbit(a, c, x, k, u) && Agrees(a, c, x, k, u, state)
        invariant forall i :: t < i < u ==> Orbit(a, c, x, k, i) >= countCeil
        decreases v - u
      {
        StepFollowsOrbit(bits, a, c, x, k, u, state);
        OrbitAgrees(a, c, x, k, u + 1);
        state := StepValue(bits, a, c, state, mod);
        u := u + 1;
      }
    }

    /** The ordering part of greatest_test_pre: does this test run in this pass? */
    method TestPre(matches: bool) returns (run: bool)
      requires randomOrder && count < Pow2(bits) - 1 && countRun < Pow2(bits) - 1
      modifies `count, `countRun
      ensures count == old(count) + (if matches then 1 else 0)
      ensures run <==> matches && initialized && old(count) == state
      ensures countRun == old(countRun) + (if run then 1 else 0)
    {
      hide Pow2;
      if !matches {
        return false;
      }
      count := count + 1;
      if !initialized || count - 1 != state {
        return false;
      }
      countRun := countRun + 1;
      return true;
    }

    /** One evaluation of the shuffle's body: each test asks in turn whether to run. */
    method Pass(tests: seq<bool>) returns (ran: seq<nat>)
      requires randomOrder && count == 0
      requires |tests| <= Pow2(bits - 1) && countRun <= |tests|
      modifies `count, `countRun
      ensures count == |Matching(tests)|
      ensures ran == if initialized && state < count then [Matching(tests)[state]] else []
      ensures countRun == old(countRun) + |ran|
    {
      hide Pow2;
      PowSmall(bits);
      ran := [];
      var i := 0;
      while i < |tests|
        invariant 0 <= i <= |tests| && count == |Matching(tests[..i])|
        invariant ran == if initialized && state < count then [Matching(tests[..i])[state]] else []
        invariant countRun == old(countRun) + |ran|
      {
        assert tests[..i + 1][..i] == tests[..i];
        var run := TestPre(tests[i]);
        if run {
          ran := ran + [i];
        }
        i := i + 1;
      }
      assert tests[..|tests|] == tests;
    }

    /** GREATEST_SHUFFLE, when no failure aborts it: ran lists the tests in the order they
        ran, passes counts the evaluations of the body. */
    method ShuffleTests(seed: nat, tests: seq<bool>) returns (ran: seq<nat>, passes: nat)
      requires !initialized && seed < Pow2(bits) && |tests| <= Pow2(bits - 1)
      modifies this
      ensures !initialized && !randomOrder
      ensures |ran| == |Matching(tests)| && passes == 1 + |ran|
      ensures Distinct(ran)
      ensures forall i :: i in ran <==> 0 <= i < |tests| && tests[i]
      ensures InOrder(bits, seed, Matching(tests), ran)
    {
      ghost var m := Matching(tests);
      MatchingExact(tests);
      hide Pow2, Agrees, Visited, Runs, Distinct, Orbit, Matching, InOrder, IsCeil, Seeded;
      PowSmall(bits);
      InitFirstPass();
      count := 0;
      ran := Pass(tests);
      passes := 1;
      var more, k := InitSecondPass(seed);
      if more {
        ghost var x, t, order := state, 0, [];
        ghost var n, a0, c0 := |m|, a, c;
        NothingYet(a0, c0, x, k, n, m);
        while true
          invariant randomOrder && initialized && a == a0 && c == c0 && countCeil == n
          invariant k < bits && mod == Pow2(k) && n <= mod && t <= Pow2(k)
          invariant Agrees(a0, c0, x, k, t, state)
          invariant order == Visited(a0, c0, x, k, n, t)
          invariant Runs(m, order, ran) && |order| == |ran| < n && countRun == |ran| && passes == 1 + |ran|
          decreases n - |ran|
        {
          count := 0;
          NextExists(a0, c0, x, k, n, t);
          ghost var u := Step(x, k, t);
          VisitedNext(a0, c0, x, k, n, t, u);
          RunsMore(m, order, ran, state);
          order := order + [state];
          t := u;
          var now := Pass(tests);
          ran, passes := ran + now, passes + 1;
          if countRun == countCeil {
            break;
          }
          VisitedDistinct(a0, c0, x, k, n, t);
          DistinctBelow(order, n);
        }
        VisitedDistinct(a0, c0, x, k, n, t);
        AllRan(tests, order, ran);
        OrderIs(bits, seed, m, order, ran, a0, c0, x, k, t);
      } else {
        NoOrder(bits, seed, m, ran);
      }
      countRun, randomOrder, initialized := 0, false, false;
    }
  }

  /** The tests that ran are those the visited numbers stand for. */
  ghost predicate Runs(m: seq<nat>, order: seq<nat>, ran: seq<nat>) {
    |ran| == |order| && forall i :: 0 <= i < |order| ==> order[i] < |m| && ran[i] == m[order[i]]
  }

  /** The tests ran in the order in which the seed's states meet their numbers, modulo the least power of two that
      reaches the count. */
  ghost predicate InOrder(bits: Width, seed: nat, m: seq<nat>, ran: seq<nat>) {
    forall k: nat, x: nat, a: nat, c: nat :: IsCeil(k, |m|) && Seeded(bits, seed, x, a, c) ==>
      Runs(m, Visited(a, c, x, k, |m|, Pow2(k)), ran)
  }

  lemma OneSeeding(bits: Width, seed: nat, x: nat, a: nat, c: nat, x': nat, a': nat, c': nat)
    requires Seeded(bits, seed, x, a, c) && Seeded(bits, seed, x', a', c')
    ensures x == x' && a == a' && c == c'
  {
  }

  lemma OrderIs(bits: Width, seed: nat, m: seq<nat>, order: seq<nat>, ran: seq<nat>,
                a: nat, c: nat, x: nat, k: nat, t: nat)
    requires Seeded(bits, seed, x, a, c) && IsCeil(k, |m|) && t <= Pow2(k) && a % 4 == 1 && c % 2 == 1
    requires order == Visited(a, c, x, k, |m|, t) && Runs(m, order, ran) && |order| == |m|
    ensures InOrder(bits, seed, m, ran)
  {
    hide Visited, Runs, Pow2, Seeded, IsCeil;
    VisitedPrefix(a, c, x, k, |m|, t, Pow2(k));
    CeilBound(k, |m|);
    VisitedAll(a, c, x, k, |m|);
    assert order == Visited(a, c, x, k, |m|, Pow2(k));
    forall k': nat, x': nat, a': nat, c': nat | IsCeil(k', |m|) && Seeded(bits, seed, x', a', c')
      ensures k' == k && x' == x && a' == a && c' == c
    {
      OneCeil(k, k', |m|);
      OneSeeding(bits, seed, x, a, c, x', a', c');
    }
  }

  lemma CeilBound(k: nat, n: nat)
    requires IsCeil(k, n)
    ensures n <= Pow2(k)
  {
  }

  lemma NoOrder(bits: Width, seed: nat, m: seq<nat>, ran: seq<nat>)
    requires m == [] && ran == []
    ensures InOrder(bits, seed, m, ran)
  {
    hide Pow2, Seeded, IsCeil;
    forall k: nat, x: nat, a: nat, c: nat
      ensures Visited(a, c, x, k, 0, Pow2(k)) == []
    {
      VisitedGrows(a, c, x, k, 0, 0, Pow2(k));
      assert Visited(a, c, x, k, 0, 0) == [];
    }
  }

  lemma NothingYet(a: nat, c: nat, x: nat, k: nat, n: nat, m: seq<nat>)
    ensures Visited(a, c, x, k, n, 0) == [] && Agrees(a, c, x, k, 0, x) && Runs(m, [], [])
  {
  }

  lemma RunsMore(m: seq<nat>, order: seq<nat>, ran: seq<nat>, v: nat)
    requires Runs(m, order, ran) && v < |m|
    ensures Runs(m, order + [v], ran + [m[v]])
  {
  }

  lemma DistinctBelow(s: seq<nat>, n: nat)
    requires Distinct(s) && forall i :: 0 <= i < |s| ==> s[i] < n
    ensures |s| <= n
  {
    DistinctSize(s);
    SubsetSize(SetOf(s), Below(n));
  }

  lemma AllRan(tests: seq<bool>, order: seq<nat>, ran: seq<nat>)
    requires Runs(Matching(tests), order, ran) && Distinct(order) && |order| == |Matching(tests)|
    ensures Distinct(ran)
    ensures forall i :: i in ran <==> 0 <= i < |tests| && tests[i]
  {
    var m := Matching(tests);
    MatchingExact(tests);
    DistinctComplete(order, |m|);
    forall i
      ensures i in ran <==> 0 <= i < |tests| && tests[i]
    {
      if 0 <= i < |tests| && tests[i] {
        var p :| 0 <= p < |m| && m[p] == i;
        assert p in order;
        var q :| 0 <= q < |order| && order[q] == p;
        assert ran[q] == i;
      }
    }
  }

  lemma {:induction false} PowMonotone(i: nat, j: nat)
    requires i <= j
    ensures Pow2(i) <= Pow2(j)
    decreases j - i
  {
    if i < j {
      PowMonotone(i + 1, j);
    }
  }

  /** While the modulus is below a count that half a word can hold, doubling does not wrap. */
  lemma KeepDoubling(bits: Width, k: nat, count: nat)
    requires Pow2(k) < count <= Pow2(bits - 1)
    ensures k + 1 < bits && Wrap(bits, Pow2(k) * 2) == Pow2(k + 1) > Pow2(k)
  {
    if k >= bits - 1 {
      PowMonotone(bits - 1, k);
    }
    FitsWord(bits, k + 1);
  }

  lemma FitsWord(bits: Width, k: nat)
    requires k < bits
    ensures Wrap(bits, Pow2(k)) == Pow2(k)
  {
    PowMonotone(k + 1, bits);
    Remainder(Pow2(k), Pow2(bits), 0, Pow2(k));
  }

  lemma PowSmall(bits: Width)
    ensures Pow2(0) == 1 && Pow2(2) == 4
    ensures 2 < Pow2(bits - 1) && Pow2(bits) == 2 * Pow2(bits - 1)
  {
    PowMonotone(2, bits - 1);
    assert Pow2(1) == 2 && Pow2(2) == 2 * Pow2(1);
  }

  /** The generator's state, multiplier and increment, from the seed: its lower 29 bits, four times that and one,
      and the table's entry. */
  ghost predicate Seeded(bits: Width, seed: nat, x: nat, a: nat, c: nat) {
    && x == seed % 0x2000_0000 && a == (4 * x + 1) % Pow2(bits)
    && c == PRIMES[PrimeIndex(bits, seed * 16451 % Pow2(bits))]
  }

  lemma SeededIs(bits: Width, seed: nat, x: nat, a: nat, c: nat)
    requires x == And(seed, 0x1fffffff) && a == Wrap(bits, 4 * x + 1)
    requires c == PRIMES[PrimeIndex(bits, Wrap(bits, seed * 16451))]
    ensures Seeded(bits, seed, x, a, c) && a % 4 == 1 && c % 2 == 1
  {
    hide Pow2, PrimeIndex, Wrap;
    Mask29(seed);
    WrapIs(bits, 4 * x + 1);
    WrapIs(bits, seed * 16451);
    MultiplierOne(bits, x);
    PrimesOdd(PrimeIndex(bits, Wrap(bits, seed * 16451)));
  }

  lemma WrapIs(bits: Width, y: nat)
    ensures Wrap(bits, y) == y % Pow2(bits)
  {
  }

  lemma MultiplierOne(bits: Width, x: nat)
    ensures Wrap(bits, 4 * x + 1) % 4 == 1
  {
    hide Pow2, Wrap;
    PowSmall(bits);
    WrapHarmless(bits, 4 * x + 1, 2);
  }

  lemma CeilIs(k: nat, n: nat)
    requires n <= Pow2(k) && (k > 0 ==> Pow2(k - 1) < n)
    ensures IsCeil(k, n)
  {
  }

  /** The lower 29 bits. */
  lemma Mask29(x: nat)
    ensures And(x, 0x1fffffff) == x % 0x2000_0000
  {
    hide And;
    MaskIsMod(x, 29);
    assert Pow2(29) == 0x2000_0000 by {
      assert Pow2(5) == 32 && Pow2(10) == 1024 && Pow2(15) == 0x8000 && Pow2(20) == 0x10_0000 by {
        assert Pow2(1) == 2 && Pow2(2) == 4 && Pow2(3) == 8 && Pow2(4) == 16;
        assert Pow2(6) == 64 && Pow2(7) == 128 && Pow2(8) == 256 && Pow2(9) == 512;
        assert Pow2(11) == 2048 && Pow2(12) == 4096 && Pow2(13) == 8192 && Pow2(14) == 16384;
        assert Pow2(16) == 0x1_0000 && Pow2(17) == 0x2_0000 && Pow2(18) == 0x4_0000 && Pow2(19) == 0x8_0000;
      }
      assert Pow2(21) == 0x20_0000 && Pow2(22) == 0x40_0000 && Pow2(23) == 0x80_0000 && Pow2(24) == 0x100_0000;
      assert Pow2(25) == 0x200_0000 && Pow2(26) == 0x400_0000 && Pow2(27) == 0x800_0000 && Pow2(28) == 0x1000_0000;
    }
  }

  lemma PrimesOdd(i: nat)
    requires i < |PRIMES|
    ensures PRIMES[i] % 2 == 1
  {
    var odd := seq(|PRIMES|, j requires 0 <= j < |PRIMES| => PRIMES[j] % 2);
    assert odd == [1, 1, 1, 1, 1, 1, 1, 1, 1, 1, 1, 1, 1];
    assert odd[i] == 1;
  }

  // ---------------------------------------------------------------- an example

  lemma Pow15()
    ensures Pow2(15) == 0x8000
  {
    assert Pow2(5) == 32 && Pow2(10) == 1024 by {
      assert Pow2(1) == 2 && Pow2(2) == 4 && Pow2(3) == 8 && Pow2(4) == 16;
      assert Pow2(6) == 64 && Pow2(7) == 128 && Pow2(8) == 256 && Pow2(9) == 512;
    }
    assert Pow2(11) == 2048 && Pow2(12) == 4096 && Pow2(13) == 8192 && Pow2(14) == 16384;
  }

  lemma SmallWord(y: nat)
    requires y < 0x8000
    ensures y % Pow2(64) == y
  {
    hide Pow2;
    Pow15();
    PowMonotone(15, 64);
    Remainder(y, Pow2(64), 0, y);
  }

  lemma FourIndex()
    ensures PrimeIndex(64, 16451) == 2
  {
    assert 16451 % 104 == 19;
  }

  lemma FourSeeded()
    ensures Seeded(64, 1, 1, 5, 1009)
  {
    hide Pow2, PrimeIndex;
    SmallWord(5);
    SmallWord(16451);
    FourIndex();
    assert 1 * 16451 == 16451 && 4 * 1 + 1 == 5;
  }

  lemma FourVisited()
    ensures Visited(5, 1009, 1, 2, 4, 4) == [2, 3, 0, 1] && IsCeil(2, 4)
  {
    hide Orbit;
    assert Pow2(1) == 2 && Pow2(2) == 4;
    OrbitMeans(5, 1009, 1, 2, 0);
    assert Orbit(5, 1009, 1, 2, 1) == 1014 % 4 == 2;
    OrbitMeans(5, 1009, 1, 2, 1);
    assert Orbit(5, 1009, 1, 2, 2) == 1019 % 4 == 3;
    OrbitMeans(5, 1009, 1, 2, 2);
    assert Orbit(5, 1009, 1, 2, 3) == 1024 % 4 == 0;
    OrbitMeans(5, 1009, 1, 2, 3);
    assert Orbit(5, 1009, 1, 2, 4) == 1009 % 4 == 1;
    assert Visited(5, 1009, 1, 2, 4, 0) == [] && Visited(5, 1009, 1, 2, 4, 1) == [2];
    assert Visited(5, 1009, 1, 2, 4, 2) == [2, 3] && Visited(5, 1009, 1, 2, 4, 3) == [2, 3, 0];
  }

  lemma FourMatch()
    ensures Matching([true, true, true, true]) == [0, 1, 2, 3]
  {
    var t := [true, true, true, true];
    assert t[..3] == [true, true, true] && t[..3][..2] == [true, true] && t[..3][..2][..1] == [true];
    assert [true][..0] == [] && Matching([]) == [] && Matching([true]) == [0];
    assert [true, true][..1] == [true] && Matching([true, true]) == [0, 1];
    assert [true, true, true][..2] == [true, true] && Matching([true, true, true]) == [0, 1, 2];
  }

  /** Four tests, the seed 1 and longs of 64 bits: the third runs first, then the fourth, the first and the second. */
  method FourTests() returns (ran: seq<nat>)
    ensures ran == [2, 3, 0, 1]
  {
    hide Pow2, Visited, Seeded, IsCeil, Matching, Distinct;
    var tests := [true, true, true, true];
    var prng := new Prng(64);
    PowSmall(64);
    PowMonotone(2, 63);
    var passes;
    ran, passes := prng.ShuffleTests(1, tests);
    FourMatch();
    FourSeeded();
    FourVisited();
    assert Runs([0, 1, 2, 3], Visited(5, 1009, 1, 2, 4, Pow2(2)), ran);
  }
}
