/** The full-period theorem for linear congruential generators with a power-of-two
    modulus: with a multiplier that is 1 modulo 4 and an odd increment, the generator
    visits every residue once before repeating (Knuth, The Art of Computer Programming,
    volume 2, section 3.2.1). */
module FullPeriod {
  import opened Common

  function Pow2(k: nat): (p: nat)
    ensures p > 0
  {
    if k == 0 then 1 else 2 * Pow2(k - 1)
  }

  /** A product, named so that proofs can use its laws without the solver multiplying out. */
  function Mul(a: int, b: int): int {
    a * b
  }

  function Pow(a: nat, i: nat): nat {
    if i == 0 then 1 else a * Pow(a, i - 1)
  }

  /** 1 + a + ... + a^(j-1). */
  function Geo(a: nat, j: nat): nat {
    if j == 0 then 0 else 1 + a * Geo(a, j - 1)
  }

  /** The generator run j times from x, without reducing. */
  function Iter(a: nat, c: nat, x: nat, j: nat): nat {
    if j == 0 then x else a * Iter(a, c, x, j - 1) + c
  }

  // ---------------------------------------------------------------- products

  lemma Dist(a: int, b: int, c: int)
    ensures Mul(a, b + c) == Mul(a, b) + Mul(a, c)
  {
  }

  lemma Assoc(a: int, b: int, c: int)
    ensures Mul(a, Mul(b, c)) == Mul(Mul(a, b), c)
  {
  }

  lemma Comm(a: int, b: int)
    ensures Mul(a, b) == Mul(b, a)
  {
  }

  lemma Twice(u: int, v: int)
    ensures Mul(u, 2 * v) == 2 * Mul(u, v) && Mul(2 * u, v) == 2 * Mul(u, v)
  {
  }

  lemma TwicePlus(u: int, v: int)
    ensures Mul(2 * u + 1, v) == 2 * Mul(u, v) + v
  {
  }

  lemma FourPlus(u: int, v: int)
    ensures Mul(4 * u + 1, v) == 4 * Mul(u, v) + v
  {
  }

  lemma PlusOne(u: int, v: int)
    ensures Mul(1 + u, v) == v + Mul(u, v)
  {
  }

  lemma MulNat(u: nat, v: nat)
    ensures Mul(u, v) >= 0
  {
  }

  lemma Larger(q: int, q': int, p: int)
    requires p > 0 && Mul(q, p) < Mul(q' + 1, p)
    ensures q <= q'
  {
    assert q >= q' + 1 ==> q * p >= (q' + 1) * p;
  }

  lemma DivMod(u: nat, p: nat)
    requires p > 0
    ensures u == Mul(u / p, p) + u % p && 0 <= u % p < p
  {
  }

  lemma PowStep(a: nat, i: nat)
    requires i > 0
    ensures Pow(a, i) == Mul(a, Pow(a, i - 1))
  {
  }

  lemma Bases(a: nat, c: nat, x: int)
    ensures Pow(a, 0) == 1 && Geo(a, 0) == 0 && (x >= 0 ==> Iter(a, c, x, 0) == x)
    ensures Mul(0, x) == 0 && Mul(1, x) == x
  {
  }

  lemma GeoStep(a: nat, j: nat)
    requires j > 0
    ensures Geo(a, j) == 1 + Mul(a, Geo(a, j - 1))
  {
  }

  lemma IterStep(a: nat, c: nat, x: nat, j: nat)
    requires j > 0
    ensures Iter(a, c, x, j) == Mul(a, Iter(a, c, x, j - 1)) + c
  {
  }

  // ---------------------------------------------------------------- divisibility by powers of two

  /** 2^k divides z. */
  predicate Divides(k: nat, z: nat) {
    k == 0 || (z % 2 == 0 && Divides(k - 1, z / 2))
  }

  lemma DividesTwice(k: nat, y: nat)
    requires k > 0
    ensures Divides(k, 2 * y) <==> Divides(k - 1, y)
  {
  }

  lemma DividesOdd(k: nat, z: nat)
    requires k > 0 && z % 2 == 1
    ensures !Divides(k, z)
  {
  }

  lemma DividesZero(z: nat)
    ensures Divides(0, z)
  {
  }

  lemma {:induction false} MultipleDivides(k: nat, q: nat)
    ensures Mul(q, Pow2(k)) >= 0 && Divides(k, Mul(q, Pow2(k)))
    decreases k
  {
    hide Mul, Divides;
    MulNat(q, Pow2(k));
    if k == 0 {
      DividesZero(Mul(q, Pow2(k)));
    } else {
      Twice(q, Pow2(k - 1));
      MultipleDivides(k - 1, q);
      DividesTwice(k, Mul(q, Pow2(k - 1)));
    }
  }

  lemma {:induction false} DividesAtMost(k: nat, z: nat)
    requires Divides(k, z) && z > 0
    ensures z >= Pow2(k)
    decreases k
  {
    if k > 0 {
      DividesAtMost(k - 1, z / 2);
    }
  }

  /** An odd factor does not help a power of two divide. */
  lemma {:induction false} OddCancels(k: nat, odd: nat, x: nat)
    requires odd % 2 == 1
    ensures Mul(odd, x) >= 0
    ensures Divides(k, Mul(odd, x)) <==> Divides(k, x)
    decreases k
  {
    hide Mul, Divides;
    MulNat(odd, x);
    if k == 0 {
      DividesZero(x);
      DividesZero(Mul(odd, x));
    } else if x % 2 == 0 {
      var y := x / 2;
      Twice(odd, y);
      OddCancels(k - 1, odd, y);
      DividesTwice(k, y);
      DividesTwice(k, Mul(odd, y));
    } else {
      TwicePlus(odd / 2, x);
      DividesOdd(k, x);
      DividesOdd(k, Mul(odd, x));
    }
  }

  // ---------------------------------------------------------------- the geometric sum

  lemma {:induction false} GeoSplit(a: nat, i: nat, j: nat)
    ensures Geo(a, i + j) == Geo(a, i) + Mul(Pow(a, i), Geo(a, j))
    decreases i
  {
    hide Mul, Geo, Pow;
    if i == 0 {
      Bases(a, 0, Geo(a, j));
    } else {
      GeoSplit(a, i - 1, j);
      GeoStep(a, i + j);
      GeoStep(a, i);
      PowStep(a, i);
      Dist(a, Geo(a, i - 1), Mul(Pow(a, i - 1), Geo(a, j)));
      Assoc(a, Pow(a, i - 1), Geo(a, j));
    }
  }

  lemma OneMod4(a: nat, b: nat)
    requires a % 4 == 1 && b % 4 == 1
    ensures Mul(a, b) % 4 == 1
  {
    hide Mul;
    var u := a / 4;
    FourPlus(u, b);
  }

  lemma {:induction false} PowOneMod4(a: nat, i: nat)
    requires a % 4 == 1
    ensures Pow(a, i) % 4 == 1
  {
    hide Mul, Pow;
    if i == 0 {
      Bases(a, 0, 0);
    } else {
      PowOneMod4(a, i - 1);
      PowStep(a, i);
      OneMod4(a, Pow(a, i - 1));
    }
  }

  lemma SameParity(a: nat, g: nat)
    requires a % 4 == 1
    ensures Mul(a, g) % 2 == g % 2
  {
    hide Mul;
    var u := a / 4;
    FourPlus(u, g);
    EvenPlus(2 * Mul(u, g), g);
  }

  lemma EvenPlus(e: int, g: int)
    ensures (2 * e + g) % 2 == g % 2
  {
  }

  lemma {:induction false} GeoParity(a: nat, j: nat)
    requires a % 4 == 1
    ensures Geo(a, j) % 2 == j % 2
  {
    hide Mul, Geo;
    if j == 0 {
      Bases(a, 0, 0);
    } else {
      GeoParity(a, j - 1);
      GeoStep(a, j);
      SameParity(a, Geo(a, j - 1));
    }
  }

  lemma GeoTwice(a: nat, i: nat) returns (odd: nat)
    requires a % 4 == 1
    ensures odd % 2 == 1 && Mul(odd, Geo(a, i)) >= 0
    ensures Geo(a, 2 * i) == 2 * Mul(odd, Geo(a, i))
  {
    hide Mul, Geo, Pow;
    GeoSplit(a, i, i);
    PowOneMod4(a, i);
    FourPlus(Pow(a, i) / 4, Geo(a, i));
    TwicePlus(Pow(a, i) / 4, Geo(a, i));
    odd := 2 * (Pow(a, i) / 4) + 1;
    MulNat(odd, Geo(a, i));
  }

  /** The sum of j powers is divisible by 2^k exactly when j is. */
  lemma {:induction false} GeoDivides(a: nat, j: nat, k: nat)
    requires a % 4 == 1
    ensures Divides(k, Geo(a, j)) <==> Divides(k, j)
    decreases k
  {
    hide Mul, Geo, Pow, Divides;
    if k == 0 {
      DividesZero(j);
      DividesZero(Geo(a, j));
    } else if j % 2 == 0 {
      var i := j / 2;
      var odd := GeoTwice(a, i);
      OddCancels(k - 1, odd, Geo(a, i));
      GeoDivides(a, i, k - 1);
      DividesTwice(k, i);
      DividesTwice(k, Mul(odd, Geo(a, i)));
    } else {
      GeoParity(a, j);
      DividesOdd(k, j);
      DividesOdd(k, Geo(a, j));
    }
  }

  // ---------------------------------------------------------------- the orbit

  lemma {:induction false} IterAdd(a: nat, c: nat, x: nat, i: nat, j: nat)
    ensures Iter(a, c, x, i + j) == Iter(a, c, Iter(a, c, x, i), j)
    decreases j
  {
    if j > 0 {
      IterAdd(a, c, x, i, j - 1);
    }
  }

  /** The first move from x, and why later moves are multiples of it. */
  function FirstMove(a: nat, c: nat, x: nat): int {
    Mul(a, x) - x + c
  }

  lemma MoveOnce(a: nat, c: nat, x: nat, g: nat, t: int)
    requires t == FirstMove(a, c, x)
    ensures Mul(a, x + Mul(g, t)) + c == x + Mul(1 + Mul(a, g), t)
  {
    hide Mul;
    Dist(a, x, Mul(g, t));
    Assoc(a, g, t);
    PlusOne(Mul(a, g), t);
  }

  /** Running the generator j times moves by the geometric sum times the first move. */
  lemma {:induction false} IterMoves(a: nat, c: nat, x: nat, j: nat)
    ensures Iter(a, c, x, j) == x + Mul(Geo(a, j), FirstMove(a, c, x))
    decreases j
  {
    hide Mul, Geo, Iter, FirstMove;
    if j == 0 {
      Bases(a, c, x);
      Bases(a, c, FirstMove(a, c, x));
    } else {
      IterMoves(a, c, x, j - 1);
      IterStep(a, c, x, j);
      GeoStep(a, j);
      MoveOnce(a, c, x, Geo(a, j - 1), FirstMove(a, c, x));
    }
  }

  lemma FirstMoveOdd(a: nat, c: nat, y: nat)
    requires a % 4 == 1 && c % 2 == 1
    ensures FirstMove(a, c, y) >= 0 && FirstMove(a, c, y) % 2 == 1
  {
    hide Mul;
    FourPlus(a / 4, y);
    MulNat(a / 4, y);
  }

  /** The states of the generator: the iterates reduced modulo the modulus. */
  function Orbit(a: nat, c: nat, x: nat, k: nat, t: nat): (s: nat)
    ensures s < Pow2(k)
  {
    Iter(a, c, x, t) % Pow2(k)
  }

  lemma SameModDivides(k: nat, u: nat, d: nat)
    requires u % Pow2(k) == (u + d) % Pow2(k)
    ensures Divides(k, d)
  {
    hide Mul, Pow2;
    var p := Pow2(k);
    var q, q' := u / p, (u + d) / p;
    DivMod(u, p);
    DivMod(u + d, p);
    PlusOne(q', p);
    Larger(q, q', p);
    Comm(q, p);
    Comm(q', p);
    Comm(q' - q, p);
    Dist(p, q, q' - q);
    MultipleDivides(k, q' - q);
  }

  /** Within one period no state repeats. */
  lemma OrbitInjective(a: nat, c: nat, x: nat, k: nat, i: nat, j: nat)
    requires a % 4 == 1 && c % 2 == 1 && i < j < i + Pow2(k)
    ensures Orbit(a, c, x, k, i) != Orbit(a, c, x, k, j)
  {
    hide Mul, Geo, Iter, FirstMove, Divides;
    var y, d := Iter(a, c, x, i), j - i;
    IterAdd(a, c, x, i, d);
    IterMoves(a, c, y, d);
    var t := FirstMove(a, c, y);
    FirstMoveOdd(a, c, y);
    Comm(Geo(a, d), t);
    OddCancels(k, t, Geo(a, d));
    if Orbit(a, c, x, k, i) == Orbit(a, c, x, k, j) {
      SameModDivides(k, y, Mul(t, Geo(a, d)));
      GeoDivides(a, d, k);
      DividesAtMost(k, d);
    }
  }

  /** The states numbered 1 to n. */
  function States(a: nat, c: nat, x: nat, k: nat, n: nat): (s: seq<nat>)
    ensures |s| == n
    ensures forall i :: 0 <= i < n ==> s[i] == Orbit(a, c, x, k, i + 1)
  {
    seq(n, i requires 0 <= i < n => Orbit(a, c, x, k, i + 1))
  }

  function SetOf(s: seq<nat>): set<nat> {
    set v | v in s
  }

  lemma {:induction false} DistinctSize(s: seq<nat>)
    requires Distinct(s)
    ensures |SetOf(s)| == |s|
  {
    if s != [] {
      var n := |s| - 1;
      DistinctSize(s[..n]);
      assert SetOf(s) == SetOf(s[..n]) + {s[n]} by {
        assert s == s[..n] + [s[n]];
      }
      assert s[n] !in s[..n];
    }
  }

  function Below(n: nat): (r: set<nat>)
    ensures |r| == n && forall v: nat :: v in r <==> v < n
  {
    if n == 0 then {} else Below(n - 1) + {n - 1}
  }

  /** n different numbers below n are all the numbers below n. */
  lemma Pigeonhole(s: seq<nat>, v: nat)
    requires Distinct(s) && (forall i :: 0 <= i < |s| ==> s[i] < |s|) && v < |s|
    ensures v in s
  {
    DistinctSize(s);
    if v !in s {
      assert SetOf(s) <= Below(|s|) - {v};
      SubsetSize(SetOf(s), Below(|s|) - {v});
    }
  }

  lemma {:induction false} SubsetSize(a: set<nat>, b: set<nat>)
    requires a <= b
    ensures |a| <= |b|
    decreases a
  {
    if a != {} {
      var v :| v in a;
      SubsetSize(a - {v}, b - {v});
    }
  }

  /** The full-period theorem: among the states numbered 1 to 2^k, every residue appears
      at exactly one number. */
  lemma VisitsOnce(a: nat, c: nat, x: nat, k: nat, v: nat)
    requires a % 4 == 1 && c % 2 == 1 && v < Pow2(k)
    ensures exists t :: 0 < t <= Pow2(k) && Orbit(a, c, x, k, t) == v
    ensures forall t, u :: 0 < t < u <= Pow2(k) ==> !(Orbit(a, c, x, k, t) == v == Orbit(a, c, x, k, u))
  {
    var m := Pow2(k);
    var s := States(a, c, x, k, m);
    forall i, j | 0 <= i < j < |s|
      ensures s[i] != s[j]
    {
      OrbitInjective(a, c, x, k, i + 1, j + 1);
    }
    Pigeonhole(s, v);
    var i :| 0 <= i < |s| && s[i] == v;
    assert Orbit(a, c, x, k, i + 1) == v;
    forall t, u | 0 < t < u <= m
      ensures !(Orbit(a, c, x, k, t) == v == Orbit(a, c, x, k, u))
    {
      OrbitInjective(a, c, x, k, t, u);
    }
  }
}
