// The generator behind probabilistic points of failure in libfiu/fiu.c: a linear congruential
// generator on 32-bit words, and the comparison that decides a PF_PROB point.
module Prng {
  import opened Arithmetic

  const A: nat := 1103515245
  const C: nat := 12345
  const WORDS: nat := 0x1_0000_0000
  const UINT_MAX: nat := 0xffff_ffff

  function Step(x: nat): (y: nat)
    ensures y < WORDS
  {
    (A * x + C) % WORDS
  }

  // The state after `n` draws from seed `x`; the n-th draw (from 1) returns this state over UINT_MAX.
  function State(x: nat, n: nat): (y: nat)
    requires x < WORDS
    ensures y < WORDS
  {
    if n == 0 then x else Step(State(x, n - 1))
  }

  // The first draws from seeds 0 and 1, over 4294967295.
  lemma FirstDraws()
    ensures State(0, 1) == 12345 && State(0, 2) == 3554416254 && State(0, 3) == 2802067423
    ensures State(1, 1) == 1103527590 && State(1, 2) == 2524885223 && State(1, 3) == 662824084
  {
    hide Step;
    FirstSteps();
    ThreeDraws(0);
    ThreeDraws(1);
  }

  lemma FirstSteps()
    ensures Step(0) == 12345 && Step(12345) == 3554416254 && Step(3554416254) == 2802067423
    ensures Step(1) == 1103527590 && Step(1103527590) == 2524885223 && Step(2524885223) == 662824084
  {
  }

  lemma ThreeDraws(x: nat)
    requires x < WORDS
    ensures State(x, 1) == Step(x) && State(x, 2) == Step(Step(x)) && State(x, 3) == Step(Step(Step(x)))
  {
    hide Step;
    assert State(x, 0) == x && State(x, 1) == Step(x) && State(x, 2) == Step(Step(x));
  }

  function Pow2(k: nat): (r: nat)
    ensures r > 0
  {
    if k == 0 then 1 else 2 * Pow2(k - 1)
  }

  // randd_xn and randd().
  class Generator {
    var xn: nat
    ghost var seed: nat
    ghost var draws: nat

    ghost predicate Valid()
      reads this
    {
      seed < WORDS && xn == State(seed, draws)
    }

    // fiu_set_prng_seed, or any other way the seed is chosen.
    constructor (seed: nat)
      requires seed < WORDS
      ensures Valid() && this.seed == seed && draws == 0
    {
      xn := seed;
      this.seed, draws := seed, 0;
    }

    method Randd() returns (r: real)
      requires Valid()
      modifies this
      ensures Valid() && seed == old(seed) && draws == old(draws) + 1
      ensures r == xn as real / UINT_MAX as real
    {
      xn := (A * xn + C) % WORDS;
      r := xn as real / UINT_MAX as real;
      draws := draws + 1;
    }

    // The PF_PROB case of fiu_fail.
    method ProbFails(probability: real) returns (fails: bool)
      requires Valid()
      modifies this
      ensures Valid() && seed == old(seed) && draws == old(draws) + 1
      ensures fails == Fails(probability, State(seed, draws))
    {
      var r := Randd();
      fails := probability > r;
    }
  }

  // `pf->minfo.probability > randd()`, in real arithmetic.
  predicate Fails(probability: real, x: nat) {
    probability > x as real / UINT_MAX as real
  }

  // ---- divisibility by 2^k, by halving ----

  predicate Divisible(k: nat, x: int) {
    k == 0 || (x % 2 == 0 && Divisible(k - 1, x / 2))
  }

  lemma {:induction false} DivisibleSum(k: nat, x: int, y: int)
    requires Divisible(k, y)
    ensures Divisible(k, x + y) <==> Divisible(k, x)
  {
    if k == 0 {
    } else if x % 2 == 0 {
      assert (x + y) / 2 == x / 2 + y / 2;
      DivisibleSum(k - 1, x / 2, y / 2);
    }
  }

  lemma DivisibleTwice(k: nat, x: int)
    requires k > 0
    ensures Divisible(k, 2 * x) <==> Divisible(k - 1, x)
  {
    assert 2 * x / 2 == x;
  }

  lemma PowStep(j: nat)
    requires j > 0
    ensures Pow2(j) == 2 * Pow2(j - 1)
  {
  }

  lemma {:induction false} DivisibleByHighPower(k: nat, j: nat, q: int)
    requires k <= j
    ensures Divisible(k, q * Pow2(j))
  {
    if k == 0 {
    } else {
      PowStep(j);
      DivisibleByHighPower(k - 1, j - 1, q);
      HighPowerStep(k, q, Pow2(j - 1));
    }
  }

  lemma HighPowerStep(k: nat, q: int, z: int)
    requires k > 0 && Divisible(k - 1, q * z)
    ensures Divisible(k, q * (2 * z))
  {
    hide Divisible;
    Regroup(q, 2, z);
    DivisibleTwice(k, q * z);
  }

  lemma Regroup(x: int, y: int, z: int)
    ensures x * (y * z) == y * (x * z)
  {
  }

  lemma EvenPlus(x: int, y: int)
    ensures (2 * x + y) % 2 == y % 2
  {
  }

  lemma Spread(x: int, half: int)
    ensures x * (2 * half + 1) == 2 * (x * half) + x
  {
  }

  lemma Assoc(x: int, y: int, z: int)
    ensures x * y * z == x * (y * z)
  {
  }

  // An odd factor changes nothing.
  lemma {:induction false} DivisibleOddFactor(k: nat, x: int, half: int)
    ensures Divisible(k, x * (2 * half + 1)) <==> Divisible(k, x)
  {
    if k == 0 {
    } else if x % 2 == 0 {
      DivisibleOddFactor(k - 1, x / 2, half);
      OddFactorStep(k, x / 2, 2 * half + 1);
    } else {
      OddFactorOdd(k, x, half);
    }
  }

  lemma OddFactorStep(k: nat, y: int, o: int)
    requires k > 0 && (Divisible(k - 1, y * o) <==> Divisible(k - 1, y))
    ensures Divisible(k, 2 * y * o) <==> Divisible(k, 2 * y)
  {
    hide Divisible;
    Assoc(2, y, o);
    DivisibleTwice(k, y * o);
    DivisibleTwice(k, y);
  }

  lemma OddFactorOdd(k: nat, x: int, half: int)
    requires k > 0 && x % 2 != 0
    ensures !Divisible(k, x * (2 * half + 1)) && !Divisible(k, x)
  {
    Spread(x, half);
    EvenPlus(x * half, x);
  }

  // ---- remainders ----

  lemma RemainderDouble(a: int, d: nat)
    requires d > 0
    ensures a % (2 * d) == 2 * (a / 2 % d) + a % 2
  {
    var h := a / 2;
    var q, s := h / d, h % d;
    assert h == q * d + s;
    assert q * (2 * d) == 2 * (q * d) by {
      Regroup(q, 2, d);
    }
    RemainderUnique(a, 2 * d, q, 2 * s + a % 2);
  }

  // Equal residues modulo 2^k are differences divisible by 2^k.
  lemma {:induction false} SameResidue(k: nat, a: int, b: int)
    ensures a % Pow2(k) == b % Pow2(k) <==> Divisible(k, a - b)
  {
    if k > 0 {
      RemainderDouble(a, Pow2(k - 1));
      RemainderDouble(b, Pow2(k - 1));
      SameResidue(k - 1, a / 2, b / 2);
      if a % 2 == b % 2 {
        assert (a - b) / 2 == a / 2 - b / 2;
      }
    }
  }

  // ---- the orbit without reduction ----

  function Orbit(x: int, n: nat): int {
    if n == 0 then x else A * Orbit(x, n - 1) + C
  }

  // 1 + A + ... + A^(m-1).
  function Geometric(m: nat): nat {
    if m == 0 then 0 else A * Geometric(m - 1) + 1
  }

  lemma {:induction false} OrbitLeap(x: int, i: nat, m: nat)
    ensures Orbit(x, i + m) - Orbit(x, i) == Geometric(m) * ((A - 1) * Orbit(x, i) + C)
  {
    if m > 0 {
      OrbitLeap(x, i, m - 1);
      var d := (A - 1) * Orbit(x, i) + C;
      OneMoreTerm(Geometric(m - 1), d);
    }
  }

  lemma OneMoreTerm(s: int, d: int)
    ensures (A * s + 1) * d == A * (s * d) + d
  {
  }

  lemma {:induction false} GeometricSum(a: nat, b: nat)
    ensures Geometric(a + b) == Geometric(a) + Geometric(b) + (A - 1) * (Geometric(a) * Geometric(b))
  {
    if b > 0 {
      GeometricSum(a, b - 1);
      var s, t := Geometric(a), Geometric(b - 1);
      assert s * (A * t + 1) == A * (s * t) + s by {
        OneMoreTerm(t, s);
      }
    }
  }

  lemma {:induction false} GeometricParity(m: nat)
    ensures Geometric(m) % 2 == m % 2
  {
    hide Geometric;
    if m == 0 {
      GeometricEmpty();
    } else {
      GeometricStep(m);
      GeometricParity(m - 1);
      ParityStep(m, Geometric(m), Geometric(m - 1));
    }
  }

  lemma GeometricEmpty()
    ensures Geometric(0) == 0
  {
  }

  lemma ParityStep(m: nat, g: nat, s: nat)
    requires m > 0 && g == A * s + 1 && s % 2 == (m - 1) % 2
    ensures g % 2 == m % 2
  {
    OddTimes(s);
  }

  lemma GeometricStep(m: nat)
    requires m > 0
    ensures Geometric(m) == A * Geometric(m - 1) + 1
  {
  }

  lemma OddTimes(s: nat)
    ensures (A * s + 1) % 2 == (s + 1) % 2
  {
    EvenPlus((A - 1) / 2 * s, s + 1);
  }

  lemma DoubleTerms(s: int, c: int)
    ensures s + s + 4 * c * (s * s) == 2 * (s * (2 * (c * s) + 1))
  {
    Spread(s, c * s);
    Regroup(s, c, s);
    Assoc(4, c, s * s);
  }

  lemma GeometricDouble(j: nat)
    ensures Geometric(2 * j) == 2 * (Geometric(j) * (2 * ((A - 1) / 4 * Geometric(j)) + 1))
  {
    hide Geometric;
    GeometricSum(j, j);
    DoubleTerms(Geometric(j), (A - 1) / 4);
  }

  // Because the multiplier is 1 modulo 4, the sum of m powers has as many factors 2 as m.
  lemma {:induction false} GeometricDivisible(k: nat, m: nat)
    ensures Divisible(k, Geometric(m)) <==> Divisible(k, m)
    decreases k
  {
    hide Geometric;
    GeometricParity(m);
    if k > 0 && m % 2 == 0 {
      var j := m / 2;
      GeometricDouble(j);
      var half := (A - 1) / 4 * Geometric(j);
      var odd := Geometric(j) * (2 * half + 1);
      assert Geometric(m) == 2 * odd;
      DivisibleOddFactor(k - 1, Geometric(j), half);
      GeometricDivisible(k - 1, j);
    }
  }

  lemma OrbitReturns(k: nat, x: int, i: nat, m: nat)
    ensures Divisible(k, Orbit(x, i + m) - Orbit(x, i)) <==> Divisible(k, m)
  {
    hide Orbit, Geometric, Divisible;
    var y := Orbit(x, i);
    OrbitLeap(x, i, m);
    OddSum((A - 1) / 2, C / 2, y);
    DivisibleOddFactor(k, Geometric(m), (A - 1) / 2 * y + C / 2);
    GeometricDivisible(k, m);
  }

  lemma OddSum(a: int, c: int, y: int)
    ensures 2 * a * y + (2 * c + 1) == 2 * (a * y + c) + 1
  {
    Assoc(2, a, y);
  }

  // ---- the reduced states ----

  lemma {:induction false} StateIsOrbit(x: nat, n: nat) returns (q: int)
    requires x < WORDS
    ensures Orbit(x, n) == State(x, n) + q * WORDS
  {
    if n == 0 {
      q := 0;
    } else {
      var p := StateIsOrbit(x, n - 1);
      q := A * p + (A * State(x, n - 1) + C) / WORDS;
    }
  }

  // Modulo 2^k the state returns after exactly the multiples of 2^k.
  lemma StateReturns(k: nat, x: nat, i: nat, m: nat)
    requires x < WORDS && k <= 32
    ensures State(x, i + m) % Pow2(k) == State(x, i) % Pow2(k) <==> Divisible(k, m)
  {
    var q := StateIsOrbit(x, i);
    var q' := StateIsOrbit(x, i + m);
    OrbitReturns(k, x, i, m);
    PowWords();
    DivisibleByHighPower(k, 32, q' - q);
    var d := State(x, i + m) - State(x, i);
    assert Orbit(x, i + m) - Orbit(x, i) == d + (q' - q) * WORDS;
    DivisibleSum(k, d, (q' - q) * Pow2(32));
    SameResidue(k, State(x, i + m), State(x, i));
  }

  lemma PowWords()
    ensures Pow2(32) == WORDS
  {
    assert Pow2(8) == 256;
    assert Pow2(16) == 0x1_0000;
    assert Pow2(24) == 0x100_0000;
  }

  // ---- full period ----

  // The residues of the 2^k states from index `start` on.
  ghost function Residues(k: nat, x: nat, start: nat, n: nat): set<nat>
    requires x < WORDS
  {
    set i: nat | start <= i < start + n :: State(x, i) % Pow2(k)
  }

  ghost function Below(n: nat): (r: set<nat>)
    ensures forall v: nat :: v in r <==> v < n
    ensures |r| == n
  {
    if n == 0 then {} else Below(n - 1) + {n - 1}
  }

  lemma SmallNotDivisible(k: nat, m: nat)
    requires 0 < m < Pow2(k)
    ensures !Divisible(k, m)
  {
    SameResidue(k, m, 0);
    RemainderUnique(m, Pow2(k), 0, m);
    RemainderUnique(0, Pow2(k), 0, 0);
  }

  // Within one period no residue repeats.
  lemma NoRepeat(k: nat, x: nat, i: nat, j: nat)
    requires x < WORDS && k <= 32 && i < j < i + Pow2(k)
    ensures State(x, i) % Pow2(k) != State(x, j) % Pow2(k)
  {
    hide State, Pow2, Divisible;
    StateReturns(k, x, i, j - i);
    SmallNotDivisible(k, j - i);
  }

  lemma ResiduesGrow(k: nat, x: nat, start: nat, n: nat)
    requires x < WORDS && k <= 32 && 0 < n <= Pow2(k)
    ensures Residues(k, x, start, n) == Residues(k, x, start, n - 1) + {State(x, start + n - 1) % Pow2(k)}
    ensures State(x, start + n - 1) % Pow2(k) !in Residues(k, x, start, n - 1)
  {
    hide State, Pow2;
    var last := start + n - 1;
    forall i: nat | start <= i < last ensures State(x, i) % Pow2(k) != State(x, last) % Pow2(k) {
      NoRepeat(k, x, i, last);
    }
  }

  lemma {:induction false} ResiduesSize(k: nat, x: nat, start: nat, n: nat)
    requires x < WORDS && k <= 32 && n <= Pow2(k)
    ensures |Residues(k, x, start, n)| == n
  {
    if n == 0 {
      assert Residues(k, x, start, 0) == {};
    } else {
      hide Residues, State, Pow2;
      ResiduesSize(k, x, start, n - 1);
      ResiduesGrow(k, x, start, n);
    }
  }

  lemma FullSubset(s: set<nat>, n: nat)
    requires s <= Below(n) && |s| == n
    ensures s == Below(n)
  {
    if exists v :: v in Below(n) && v !in s {
      var v :| v in Below(n) && v !in s;
      Proper(s, Below(n), v);
    }
  }

  lemma Proper(s: set<nat>, t: set<nat>, v: nat)
    requires s <= t && v in t && v !in s
    ensures |s| < |t|
  {
    assert |t - s| + |s| == |t| by {
      assert t == (t - s) + s;
    }
  }

  lemma AllResidues(k: nat, x: nat, start: nat)
    requires x < WORDS && k <= 32
    ensures Residues(k, x, start, Pow2(k)) == Below(Pow2(k))
  {
    ResiduesSize(k, x, start, Pow2(k));
    FullSubset(Residues(k, x, start, Pow2(k)), Pow2(k));
  }

  // Full period: modulo 2^k, for every k up to 32, any 2^k consecutive states reach every residue,
  // each at exactly one draw.
  lemma FullPeriod(k: nat, x: nat, start: nat, r: nat) returns (i: nat)
    requires x < WORDS && k <= 32 && r < Pow2(k)
    ensures start <= i < start + Pow2(k) && State(x, i) % Pow2(k) == r
    ensures forall j: nat :: start <= j < start + Pow2(k) && State(x, j) % Pow2(k) == r ==> j == i
  {
    AllResidues(k, x, start);
    assert r in Residues(k, x, start, Pow2(k));
    i :| start <= i < start + Pow2(k) && State(x, i) % Pow2(k) == r;
    forall j: nat | start <= j < start + Pow2(k) && j != i ensures State(x, j) % Pow2(k) != r {
      if i < j {
        NoRepeat(k, x, i, j);
      } else {
        NoRepeat(k, x, j, i);
      }
    }
  }

  // ---- exact failure counts ----

  function Ceiling(r: real): (c: int)
    ensures (c - 1) as real < r <= c as real
  {
    if r.Floor as real == r then r.Floor else r.Floor + 1
  }

  // The failing draws among draws `start`, ..., `start + n - 1`.
  ghost function FailingDraws(p: real, x: nat, start: nat, n: nat): set<nat>
    requires x < WORDS
  {
    set i: nat | start <= i < start + n && Fails(p, State(x, i))
  }

  ghost function FailingWords(p: real, words: set<nat>): set<nat> {
    set v | v in words && Fails(p, v)
  }

  // As many draws fail as there are failing words, for any part of a period.
  lemma {:induction false} DrawsAndWords(p: real, x: nat, start: nat, n: nat)
    requires x < WORDS && n <= WORDS
    ensures |FailingDraws(p, x, start, n)| == |FailingWords(p, Residues(32, x, start, n))|
  {
    if n == 0 {
      assert FailingDraws(p, x, start, 0) == {};
      assert FailingWords(p, Residues(32, x, start, 0)) == {};
    } else {
      DrawsAndWords(p, x, start, n - 1);
      OneMoreDraw(p, x, start, n);
    }
  }

  lemma DrawsGrow(p: real, x: nat, start: nat, n: nat)
    requires x < WORDS && n > 0
    ensures var last := start + n - 1;
            && last !in FailingDraws(p, x, start, n - 1)
            && FailingDraws(p, x, start, n)
               == if Fails(p, State(x, last)) then FailingDraws(p, x, start, n - 1) + {last}
                  else FailingDraws(p, x, start, n - 1)
  {
    hide Fails, State;
  }

  lemma WordsGrow(p: real, words: set<nat>, v: nat)
    requires v !in words
    ensures v !in FailingWords(p, words)
    ensures FailingWords(p, words + {v}) == if Fails(p, v) then FailingWords(p, words) + {v} else FailingWords(p, words)
  {
    hide Fails;
  }

  lemma OneMoreDraw(p: real, x: nat, start: nat, n: nat)
    requires x < WORDS && 0 < n <= WORDS
    ensures |FailingDraws(p, x, start, n)| - |FailingDraws(p, x, start, n - 1)|
            == |FailingWords(p, Residues(32, x, start, n))| - |FailingWords(p, Residues(32, x, start, n - 1))|
  {
    hide Fails, Pow2, State, Residues, FailingDraws, FailingWords;
    PowWords();
    ResiduesGrow(32, x, start, n);
    assert State(x, start + n - 1) % WORDS == State(x, start + n - 1);
    DrawsGrow(p, x, start, n);
    WordsGrow(p, Residues(32, x, start, n - 1), State(x, start + n - 1));
  }

  function Clamp(c: int): nat {
    if c < 0 then 0 else if c > WORDS then WORDS else c
  }

  // Over any 2^32 consecutive draws, from any seed, a point with probability p fails exactly
  // ceil(p * (2^32 - 1)) times; outside [0,1] the count is cut off at 0 and at 2^32.
  lemma FailureCount(p: real, x: nat, start: nat)
    requires x < WORDS
    ensures |FailingDraws(p, x, start, 0x1_0000_0000)| == Clamp(Ceiling(p * 4294967295.0))
    ensures 0.0 <= p <= 1.0 ==> |FailingDraws(p, x, start, 0x1_0000_0000)| == Ceiling(p * 4294967295.0)
  {
    hide Fails, State, Residues, FailingDraws, FailingWords, Pow2, Ceiling, Below;
    PowWords();
    DrawsAndWords(p, x, start, WORDS);
    AllResidues(32, x, start);
    WordsBelow(p);
    if 0.0 <= p <= 1.0 {
      CeilingInUnit(p);
    }
  }

  lemma WordsBelow(p: real)
    ensures FailingWords(p, Below(WORDS)) == Below(Clamp(Ceiling(p * UINT_MAX as real)))
  {
    hide Fails;
    forall v: nat | v < WORDS ensures Fails(p, v) <==> v < Clamp(Ceiling(p * UINT_MAX as real)) {
      FailsBelow(p, v);
    }
  }

  lemma CeilingInUnit(p: real)
    requires 0.0 <= p <= 1.0
    ensures 0 <= Ceiling(p * UINT_MAX as real) <= UINT_MAX
  {
  }

  lemma FailsBelow(p: real, v: nat)
    ensures Fails(p, v) <==> v < Ceiling(p * UINT_MAX as real)
  {
    assert v as real / UINT_MAX as real * UINT_MAX as real == v as real;
  }

  // The comparison is strict: a point fails on every possible draw only above 1, and on none
  // exactly from 0 down, the documented special value -1 included.
  lemma AlwaysAndNever(p: real)
    ensures (forall v: nat :: v < WORDS ==> Fails(p, v)) <==> p > 1.0
    ensures (forall v: nat :: v < WORDS ==> !Fails(p, v)) <==> p <= 0.0
    ensures forall v: nat :: v < WORDS ==> !Fails(-1.0, v)
  {
    assert Fails(p, UINT_MAX) <==> p > 1.0;
    assert Fails(p, 0) <==> p > 0.0;
    forall v: nat | v < WORDS ensures (p > 1.0 ==> Fails(p, v)) && (p <= 0.0 ==> !Fails(p, v)) && !Fails(-1.0, v) {
      UnitInterval(v);
    }
  }

  lemma UnitInterval(v: nat)
    requires v < WORDS
    ensures 0.0 <= v as real / UINT_MAX as real <= 1.0
  {
  }
}
