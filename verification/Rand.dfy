/** The example's random numbers: a 32-bit linear congruential generator with 15-bit outputs. */
module Rand {
  import opened Arithmetic

  const MULTIPLIER: nat := 0x015a4e35
  const MODULUS: int := 0x1_0000_0000

  /** A number of the generator's unsigned 32-bit type. */
  type Word = x: int | 0 <= x < MODULUS

  /** The assignment to `ulNextRand`, with the wrap-around of unsigned arithmetic. */
  function Next(x: Word): Word {
    (MULTIPLIER * x + 1) % MODULUS
  }

  /** `(x >> 16) & 0x7fff`. */
  function Output(x: nat): nat {
    (x / 0x1_0000) % 0x8000
  }

  /** The state after `n` calls from `seed`. */
  function State(seed: Word, n: nat): Word {
    if n == 0 then seed else Next(State(seed, n - 1))
  }

  /** What call number `n`, counted from 0, returns. */
  function Drawn(seed: Word, n: nat): nat {
    Output(State(seed, n + 1))
  }

  /** The numbers drawn first from the seed 1. */
  lemma FirstNumbers()
    ensures Drawn(1, 0) == 346 && Drawn(1, 1) == 130 && Drawn(1, 2) == 10982 && Drawn(1, 3) == 1090
  {
    assert State(1, 1) == 22695478;
    assert State(1, 2) == 2156045615;
    assert State(1, 3) == 2867233980;
    assert State(1, 4) == 71484141;
    hide State, Next;
  }

  class Generator {
    var ulNextRand: Word

    /** The last seed, and the calls made since. */
    ghost var seed: Word
    ghost var calls: nat

    ghost predicate Valid()
      reads this
    {
      ulNextRand == State(seed, calls)
    }

    constructor ()
      ensures Valid() && seed == 0 && calls == 0
    {
      ulNextRand, seed, calls := 0, 0, 0;
    }

    method UxRand() returns (r: nat)
      requires Valid()
      modifies this
      ensures Valid() && seed == old(seed) && calls == old(calls) + 1
      ensures r == Drawn(seed, old(calls))
    {
      ulNextRand := (MULTIPLIER * ulNextRand + 1) % MODULUS;
      r := (ulNextRand / 0x1_0000) % 0x8000;
      calls := calls + 1;
    }

    method PrvSRand(ulSeed: Word)
      modifies this
      ensures Valid() && seed == ulSeed && calls == 0
    {
      ulNextRand := ulSeed;
      seed, calls := ulSeed, 0;
    }
  }

  // ----- Powers of two -----

  function Pow2(k: nat): nat
    ensures Pow2(k) > 0
  {
    if k == 0 then 1 else 2 * Pow2(k - 1)
  }

  /** `a` is a multiple of 2^k. */
  predicate Multiple(a: int, k: nat) {
    a % Pow2(k) == 0
  }

  lemma MultipleZero(a: int)
    ensures Multiple(a, 0)
  {
  }

  lemma DoubleMod(a: int, m: nat)
    requires m > 0
    ensures (2 * a) % (2 * m) == 0 <==> a % m == 0
  {
    if a % m == 0 {
      assert 2 * a == (2 * m) * (a / m);
      ProductMod(2 * m, a / m);
    }
    if (2 * a) % (2 * m) == 0 {
      var q := (2 * a) / (2 * m);
      assert 2 * a == (2 * m) * q;
      assert a == m * q by { assert (2 * m) * q == 2 * (m * q); }
      ProductMod(m, q);
    }
  }

  lemma ProductMod(m: nat, q: int)
    requires m > 0
    ensures (m * q) % m == 0
  {
    ModUnique(m * q, m, q, 0);
  }

  lemma MultipleDouble(a: int, k: nat)
    ensures Multiple(2 * a, k + 1) <==> Multiple(a, k)
  {
    DoubleMod(a, Pow2(k));
  }

  lemma MultipleIsEven(a: int, k: nat)
    requires Multiple(a, k + 1)
    ensures a % 2 == 0
  {
    var m := Pow2(k);
    assert Pow2(k + 1) == 2 * m;
    hide Pow2;
    DoubleIsEven(a, m, a / (2 * m));
  }

  lemma DoubleIsEven(a: int, m: nat, q: int)
    requires a == (2 * m) * q
    ensures a % 2 == 0
  {
    assert a == 2 * (m * q);
    ProductMod(2, m * q);
  }

  /** Odd factors do not matter. */
  lemma {:induction false} OddCancels(a: int, odd: int, k: nat)
    requires odd % 2 == 1
    ensures Multiple(a * odd, k) <==> Multiple(a, k)
    decreases k
  {
    if k == 0 {
    } else {
      if a % 2 == 0 {
        var b := a / 2;
        assert a == 2 * b && a * odd == 2 * (b * odd);
        OddCancels(b, odd, k - 1);
        MultipleDouble(b, k - 1);
        MultipleDouble(b * odd, k - 1);
      } else {
        OddTimesOdd(a, odd);
        if Multiple(a, k) { MultipleIsEven(a, k - 1); }
        if Multiple(a * odd, k) { MultipleIsEven(a * odd, k - 1); }
      }
    }
  }

  lemma OddTimesOdd(a: int, b: int)
    requires a % 2 == 1 && b % 2 == 1
    ensures (a * b) % 2 == 1
  {
    var c, d := a / 2, b / 2;
    assert a == 2 * c + 1 && b == 2 * d + 1;
    assert a * b == 2 * (2 * (c * d) + c + d) + 1;
  }

  lemma MultipleSum(a: int, b: int, k: nat)
    requires Multiple(a, k)
    ensures Multiple(a + b, k) <==> Multiple(b, k)
    ensures Multiple(a - b, k) <==> Multiple(b, k)
    ensures Multiple(-a, k)
  {
    var m, q := Pow2(k), a / Pow2(k);
    assert a == m * q;
    ModShift(b, m, q);
    ModShift(-b, m, q);
    ModNegate(b, m);
    ModNegate(a, m);
  }

  lemma ModShift(b: int, m: nat, q: int)
    requires m > 0
    ensures (m * q + b) % m == b % m
  {
    var r := b % m;
    assert b == m * (b / m) + r;
    assert m * q + b == m * (q + b / m) + r;
    ModUnique(m * q + b, m, q + b / m, r);
  }

  lemma ModNegate(b: int, m: nat)
    requires m > 0
    ensures (-b) % m == 0 <==> b % m == 0
  {
    if b % m == 0 {
      assert -b == m * -(b / m);
      ProductMod(m, -(b / m));
    }
    if (-b) % m == 0 {
      assert b == m * -((-b) / m);
      ProductMod(m, -((-b) / m));
    }
  }

  // ----- The orbit before reduction -----

  /** 1 + a + ... + a^(n-1) for the multiplier a. */
  ghost function Sum(n: nat): nat {
    if n == 0 then 0 else MULTIPLIER * Sum(n - 1) + 1
  }

  /** a^n, by way of the sum. */
  ghost function Power(n: nat): nat {
    (MULTIPLIER - 1) * Sum(n) + 1
  }

  /** How far `n` calls move the state `x`, before reduction. */
  ghost function Move(x: int, n: nat): int {
    Sum(n) * ((MULTIPLIER - 1) * x + 1)
  }

  lemma SumStep(n: nat)
    ensures Sum(n + 1) == MULTIPLIER * Sum(n) + 1
  {
  }

  /** One more term in front of a sum, when the rest is split already. */
  lemma Splice(a: int, s: int, t: int, p: int)
    requires p == (a - 1) * t + 1
    ensures a * (s * p + t) + 1 == (a * s + 1) * p + t
  {
    assert a * (s * p + t) == (a * s) * p + a * t;
    assert (a * s + 1) * p == (a * s) * p + p;
  }

  lemma {:induction false} SumSplits(m: nat, n: nat)
    ensures Sum(m + n) == Sum(m) * Power(n) + Sum(n)
  {
    if m > 0 {
      var s, t, p := Sum(m - 1), Sum(n), Power(n);
      assert p == (MULTIPLIER - 1) * t + 1;
      hide Sum, Power;
      SumSplits(m - 1, n);
      SumStep(m - 1);
      SumStep(m - 1 + n);
      Splice(MULTIPLIER, s, t, p);
    }
  }

  lemma FourTimesPlusTwo(q: int, s: int)
    ensures ((4 * q) * s + 2) % 4 == 2
  {
    assert (4 * q) * s == 4 * (q * s);
    ModUnique((4 * q) * s + 2, 4, q * s, 2);
  }

  lemma PowerPlusOne(n: nat)
    ensures (Power(n) + 1) % 4 == 2
  {
    assert MULTIPLIER - 1 == 4 * 0x56938d;
    hide Sum;
    FourTimesPlusTwo(0x56938d, Sum(n));
  }

  lemma OddTimesPlusOne(half: int, s: int)
    ensures ((2 * half + 1) * s + 1) % 2 == (s + 1) % 2
  {
    assert (2 * half + 1) * s + 1 == 2 * (half * s) + (s + 1);
    ModShift(s + 1, 2, half * s);
  }

  lemma {:induction false} SumParity(n: nat)
    ensures Sum(n) % 2 == n % 2
  {
    if n > 0 {
      SumStep(n - 1);
      hide Sum;
      SumParity(n - 1);
      assert MULTIPLIER == 2 * 0xad271a + 1;
      OddTimesPlusOne(0xad271a, Sum(n - 1));
      NextParity(Sum(n - 1), n - 1);
    }
  }

  lemma NextParity(s: int, n: int)
    requires s % 2 == n % 2
    ensures (s + 1) % 2 == (n + 1) % 2
  {
  }

  lemma SumDouble(h: nat) returns (odd: int)
    ensures odd % 2 == 1 && Sum(2 * h) == 2 * (Sum(h) * odd)
  {
    hide Sum;
    SumSplits(h, h);
    PowerPlusOne(h);
    hide Power;
    odd := (Power(h) + 1) / 2;
    assert Power(h) + 1 == 2 * odd;
    TimesPlusOne(Sum(h), Power(h), odd);
  }

  lemma TimesPlusOne(s: int, p: int, odd: int)
    requires p + 1 == 2 * odd
    ensures s * p + s == 2 * (s * odd)
  {
    assert s * p + s == s * (p + 1);
    assert s * (2 * odd) == 2 * (s * odd);
  }

  /** The sum of n powers is divisible by exactly the powers of two that divide n. */
  lemma {:induction false} SumMultiple(n: nat, k: nat)
    ensures Multiple(Sum(n), k) <==> Multiple(n, k)
    decreases k
  {
    if k == 0 {
    } else if n % 2 == 1 {
      SumParity(n);
      if Multiple(n, k) { MultipleIsEven(n, k - 1); }
      if Multiple(Sum(n), k) { MultipleIsEven(Sum(n), k - 1); }
    } else {
      hide Sum, Multiple;
      var h := n / 2;
      var odd := SumDouble(h);
      MultipleDouble(Sum(h) * odd, k - 1);
      MultipleDouble(h, k - 1);
      OddCancels(Sum(h), odd, k - 1);
      SumMultiple(h, k - 1);
    }
  }

  lemma EvenTimesPlusOne(half: int, x: int)
    ensures ((2 * half) * x + 1) % 2 == 1
  {
    assert (2 * half) * x == 2 * (half * x);
    ModUnique((2 * half) * x + 1, 2, half * x, 1);
  }

  lemma FactorOdd(x: int)
    ensures ((MULTIPLIER - 1) * x + 1) % 2 == 1
  {
    assert MULTIPLIER - 1 == 2 * 0xad271a;
    EvenTimesPlusOne(0xad271a, x);
  }

  lemma MoveMultiple(x: int, n: nat, k: nat)
    ensures Multiple(Move(x, n), k) <==> Multiple(n, k)
  {
    hide Sum, Multiple;
    FactorOdd(x);
    OddCancels(Sum(n), (MULTIPLIER - 1) * x + 1, k);
    SumMultiple(n, k);
  }

  lemma MoveAlgebra(a: int, x: int, s: int, f: int)
    requires f == a * x + 1
    ensures (a + 1) * (x + s * f) + 1 == x + ((a + 1) * s + 1) * f
  {
    var sf := s * f;
    assert (a + 1) * (x + sf) == (a + 1) * x + (a + 1) * sf;
    assert (a + 1) * x + 1 == x + f;
    assert ((a + 1) * s) * f == (a + 1) * sf;
    assert ((a + 1) * s + 1) * f == ((a + 1) * s) * f + f;
  }

  lemma MoveStep(x: int, n: nat)
    ensures MULTIPLIER * (x + Move(x, n)) + 1 == x + Move(x, n + 1)
  {
    SumStep(n);
    hide Sum;
    MoveAlgebra(MULTIPLIER - 1, x, Sum(n), (MULTIPLIER - 1) * x + 1);
  }

  // ----- From the reduced state to the orbit -----

  lemma ModulusIsPower()
    ensures Pow2(16) == 0x1_0000 && Pow2(15) == 0x8000 && Pow2(31) == 0x8000_0000 && Pow2(32) == MODULUS
  {
    assert Pow2(8) == 256;
    assert Pow2(15) == 0x8000;
    assert Pow2(16) == 0x1_0000;
    assert Pow2(24) == 0x100_0000;
    assert Pow2(31) == 0x8000_0000;
  }

  lemma NextReduces(x: int, y: Word)
    requires x % MODULUS == y
    ensures (MULTIPLIER * x + 1) % MODULUS == Next(y)
  {
    var q := x / MODULUS;
    assert MULTIPLIER * x + 1 == MODULUS * (MULTIPLIER * q) + (MULTIPLIER * y + 1);
    ModShift(MULTIPLIER * y + 1, MODULUS, MULTIPLIER * q);
  }

  lemma {:induction false} StateIsOrbit(seed: Word, n: nat)
    ensures State(seed, n) == (seed + Move(seed, n)) % MODULUS
  {
    if n > 0 {
      StateIsOrbit(seed, n - 1);
      NextReduces(seed + Move(seed, n - 1), State(seed, n - 1));
      MoveStep(seed, n - 1);
    }
  }

  lemma {:induction false} StateSplits(seed: Word, m: nat, n: nat)
    ensures State(seed, m + n) == State(State(seed, m), n)
  {
    if n > 0 {
      StateSplits(seed, m, n - 1);
    }
  }

  lemma StateDifference(seed: Word, n: nat, k: nat)
    requires k <= 32
    ensures Multiple(State(seed, n) - seed, k) <==> Multiple(n, k)
  {
    StateIsOrbit(seed, n);
    MoveMultiple(seed, n, k);
    var x := seed + Move(seed, n);
    ReducedMultiple(x, k);
    MultipleSum(x - State(seed, n), State(seed, n) - seed, k);
  }

  lemma ReducedMultiple(x: int, k: nat)
    requires k <= 32
    ensures Multiple(x - x % MODULUS, k)
  {
    ModulusIsPower();
    PowerSplits(k, 32 - k);
    FactorMultiple(x - x % MODULUS, k, Pow2(32 - k), x / MODULUS);
  }

  lemma FactorMultiple(d: int, k: nat, p: nat, q: int)
    requires d == (Pow2(k) * p) * q
    ensures Multiple(d, k)
  {
    assert d == Pow2(k) * (p * q);
    ProductMod(Pow2(k), p * q);
  }

  lemma {:induction false} PowerSplits(j: nat, k: nat)
    ensures Pow2(j + k) == Pow2(j) * Pow2(k)
  {
    if j > 0 {
      PowerSplits(j - 1, k);
    }
  }

  // ----- Full period -----

  lemma MultipleOfModulus(d: int)
    ensures Multiple(d, 32) <==> d % MODULUS == 0
    ensures -MODULUS < d < MODULUS ==> (d % MODULUS == 0 <==> d == 0)
  {
    ModulusIsPower();
  }

  /** Two states of a run agree exactly when the calls between them are a multiple of 2^32. */
  lemma StatesRepeat(seed: Word, i: nat, j: nat)
    requires i <= j
    ensures State(seed, i) == State(seed, j) <==> (j - i) % MODULUS == 0
  {
    hide Multiple;
    var x, d := State(seed, i), State(seed, j) - State(seed, i);
    StateSplits(seed, i, j - i);
    StateDifference(x, j - i, 32);
    MultipleOfModulus(d);
    MultipleOfModulus(j - i);
  }

  /** 2^k calls flip bit `k` and keep the lower ones. */
  lemma BitFlips(x: Word, k: nat)
    requires k < 32
    ensures exists f: int :: State(x, Pow2(k)) - x == Pow2(k) * f && f % 2 == 1
  {
    hide Pow2, State, Multiple;
    var m, step := Pow2(k), State(x, Pow2(k)) - x;
    SelfMultiple(k);
    StateDifference(x, m, k);
    StateDifference(x, m, k + 1);
    var f := OddQuotient(step, k);
  }

  lemma OddQuotient(d: int, k: nat) returns (f: int)
    requires Multiple(d, k) && !Multiple(d, k + 1)
    ensures d == Pow2(k) * f && f % 2 == 1
  {
    f := d / Pow2(k);
    assert d == Pow2(k) * f;
    hide Pow2, Multiple;
    if f % 2 == 0 {
      EvenMultiple(d, f, k + 1);
    }
  }

  lemma Distribute(m: int, e: int, f: int)
    ensures m * e + m * f == m * (e + f)
  {
  }

  lemma SumOfOddsIsEven(e: int, f: int)
    requires e % 2 == 1 && f % 2 == 1
    ensures (e + f) % 2 == 0
  {
  }

  /** If a state agrees with `y` on its lower k - 1 bits, but not on bit k - 1, 2^(k - 1) calls mend that. */
  lemma FlipBit(seed: Word, n: nat, y: int, k: nat)
    requires 0 < k <= 32 && Multiple(State(seed, n) - y, k - 1) && !Multiple(State(seed, n) - y, k)
    ensures Multiple(State(seed, n + Pow2(k - 1)) - y, k)
  {
    var m, x := Pow2(k - 1), State(seed, n);
    var e := OddMultiple(x - y, k);
    hide Pow2, State, Next, Multiple;
    BitFlips(x, k - 1);
    var f: int :| State(x, m) - x == m * f && f % 2 == 1;
    StateSplits(seed, n, m);
    SumOfOddMultiples(x - y, State(x, m) - x, e, f, k);
  }

  lemma OddMultiple(d: int, k: nat) returns (e: int)
    requires k > 0 && Multiple(d, k - 1) && !Multiple(d, k)
    ensures d == Pow2(k - 1) * e && e % 2 == 1
  {
    e := d / Pow2(k - 1);
    assert d == Pow2(k - 1) * e;
    hide Pow2, Multiple;
    if e % 2 == 0 {
      EvenMultiple(d, e, k);
    }
  }

  lemma SumOfOddMultiples(a: int, b: int, e: int, f: int, k: nat)
    requires k > 0 && a == Pow2(k - 1) * e && b == Pow2(k - 1) * f && e % 2 == 1 && f % 2 == 1
    ensures Multiple(a + b, k)
  {
    hide Pow2, Multiple;
    Distribute(Pow2(k - 1), e, f);
    SumOfOddsIsEven(e, f);
    EvenMultiple(a + b, e + f, k);
  }

  /** A number of calls below 2^k after which the state agrees with `y` modulo 2^k. */
  lemma {:induction false} Reach(seed: Word, y: int, k: nat) returns (n: nat)
    requires k <= 32
    ensures n < Pow2(k) && Multiple(State(seed, n) - y, k)
    decreases k
  {
    if k == 0 {
      n := 0;
    } else {
      n := Reach(seed, y, k - 1);
      if !Multiple(State(seed, n) - y, k) {
        FlipBit(seed, n, y, k);
        n := n + Pow2(k - 1);
      }
    }
  }

  lemma EvenMultiple(d: int, e: int, k: nat)
    requires k > 0 && d == Pow2(k - 1) * e && e % 2 == 0
    ensures Multiple(d, k)
  {
    var m, h := Pow2(k - 1), e / 2;
    assert e == 2 * h;
    assert d == m * (2 * h) == (2 * m) * h;
    ProductMod(2 * m, h);
  }

  lemma SelfMultiple(k: nat)
    ensures Multiple(Pow2(k), k) && !Multiple(Pow2(k), k + 1)
  {
  }

  /** From any seed every 32-bit state is reached within 2^32 calls. */
  lemma EveryStateReached(seed: Word, y: Word) returns (n: nat)
    ensures n < MODULUS && State(seed, n) == y
  {
    n := Reach(seed, y, 32);
    ModulusIsPower();
    MultipleOfModulus(State(seed, n) - y);
  }

  // ----- Outputs -----

  /** An output depends on the low 31 bits of the state, and with the low 16 bits determines them. */
  lemma OutputDetermines(x: Word, y: Word)
    requires Multiple(x - y, 16)
    ensures Output(x) == Output(y) <==> Multiple(x - y, 31)
  {
    ModulusIsPower();
    hide Pow2;
    HighHalves(x, y);
  }

  lemma HighHalves(x: nat, y: nat)
    requires (x - y) % 0x1_0000 == 0
    ensures (x / 0x1_0000) % 0x8000 == (y / 0x1_0000) % 0x8000 <==> (x - y) % 0x8000_0000 == 0
  {
    var a, b := x / 0x1_0000, y / 0x1_0000;
    assert (a - b) * 0x1_0000 == x - y;
    SameRemainder(a, b);
    Scaled(a - b);
  }

  lemma SameRemainder(a: nat, b: nat)
    ensures a % 0x8000 == b % 0x8000 <==> (a - b) % 0x8000 == 0
  {
  }

  lemma Scaled(d: int)
    ensures (d * 0x1_0000) % 0x8000_0000 == 0 <==> d % 0x8000 == 0
  {
  }

  ghost predicate HasOutputPeriod(seed: Word, p: nat) {
    forall n: nat :: Drawn(seed, n + p) == Drawn(seed, n)
  }

  lemma LowBitsOfMultiple(a: int, j: nat, k: nat)
    requires j <= k && Multiple(a, k)
    ensures Multiple(a, j)
  {
    PowerSplits(j, k - j);
    assert a == Pow2(k) * (a / Pow2(k));
    FactorMultiple(a, j, Pow2(k - j), a / Pow2(k));
  }

  /** Calls that are a multiple of 2^16 apart return the same value exactly when 2^31 divides their distance. */
  lemma DrawnAfter(seed: Word, n: nat, p: nat)
    requires Multiple(p, 16)
    ensures Drawn(seed, n + p) == Drawn(seed, n) <==> Multiple(p, 31)
  {
    hide Multiple, Pow2, State, Next, Output;
    var x := State(seed, n + 1);
    StateSplits(seed, n + 1, p);
    assert n + 1 + p == n + p + 1;
    StateDifference(x, p, 16);
    StateDifference(x, p, 31);
    OutputDetermines(State(x, p), x);
  }

  lemma DoublePeriod(seed: Word, p: nat)
    requires HasOutputPeriod(seed, p)
    ensures HasOutputPeriod(seed, 2 * p)
  {
    forall n: nat
      ensures Drawn(seed, n + 2 * p) == Drawn(seed, n)
    {
      assert Drawn(seed, (n + p) + p) == Drawn(seed, n + p) == Drawn(seed, n);
      assert n + 2 * p == (n + p) + p;
    }
  }

  lemma {:induction false} NoShorterPeriod(seed: Word, p: nat, j: nat)
    requires j <= 16 && Multiple(p, j) && HasOutputPeriod(seed, p)
    ensures Multiple(p, 31)
    decreases 16 - j
  {
    if j == 16 {
      DrawnAfter(seed, 0, p);
      assert Drawn(seed, 0 + p) == Drawn(seed, 0);
    } else if Multiple(p, j + 1) {
      NoShorterPeriod(seed, p, j + 1);
    } else {
      hide Multiple, Drawn;
      DoublePeriod(seed, p);
      MultipleDouble(p, j);
      NoShorterPeriod(seed, 2 * p, j + 1);
      MultipleDouble(p, 30);
      LowBitsOfMultiple(p, j + 1, 30);
    }
  }

  /** The numbers drawn repeat with period exactly 2^31, from every seed. */
  lemma OutputPeriod(seed: Word, p: nat)
    ensures HasOutputPeriod(seed, p) <==> p % 0x8000_0000 == 0
  {
    ModulusIsPower();
    if HasOutputPeriod(seed, p) {
      MultipleZero(p);
      NoShorterPeriod(seed, p, 0);
    }
    if p % 0x8000_0000 == 0 {
      assert Multiple(p, 31);
      LowBitsOfMultiple(p, 16, 31);
      forall n: nat
        ensures Drawn(seed, n + p) == Drawn(seed, n)
      {
        DrawnAfter(seed, n, p);
      }
    }
  }

  // ----- Uniform outputs -----

  ghost function Range(a: int, length: nat): (r: set<int>)
    ensures |r| == length && forall x :: x in r <==> a <= x < a + length
  {
    if length == 0 then {} else Range(a, length - 1) + {a + length - 1}
  }

  /** The states visited by the calls in `calls`, each counted from 0. */
  ghost function StatesAfter(seed: Word, calls: set<nat>): set<int> {
    set n: nat | n in calls :: State(seed, n + 1)
  }

  lemma StatesDiffer(seed: Word, m: nat, n: nat)
    requires m < MODULUS && n < MODULUS && m != n
    ensures State(seed, m + 1) != State(seed, n + 1)
  {
    hide State;
    var i, j := if m < n then m + 1 else n + 1, if m < n then n + 1 else m + 1;
    StatesRepeat(seed, i, j);
    MultipleOfModulus(j - i);
  }

  lemma {:induction false} StatesAfterSize(seed: Word, calls: set<nat>)
    requires forall n | n in calls :: n < MODULUS
    ensures |StatesAfter(seed, calls)| == |calls|
  {
    hide State;
    if calls == {} {
      assert StatesAfter(seed, calls) == {};
    } else {
      var n :| n in calls;
      var rest := calls - {n};
      StatesAfterSize(seed, rest);
      var x: int := State(seed, n + 1);
      if x in StatesAfter(seed, rest) {
        var m :| m in rest && State(seed, m + 1) == x;
        StatesDiffer(seed, m, n);
      }
      var all, fewer := StatesAfter(seed, calls), StatesAfter(seed, rest);
      forall y: int
        ensures y in all <==> y in fewer + {x}
      {
        if y in all {
          var m :| m in calls && State(seed, m + 1) == y;
          assert m == n || m in rest;
        }
      }
      assert all == fewer + {x};
    }
  }

  ghost function CallsDrawing(seed: Word, v: nat): set<nat> {
    set n: nat | n < MODULUS && Drawn(seed, n) == v
  }

  ghost function StatesShowing(v: nat): set<int> {
    set x: int | 0 <= x < MODULUS && Output(x) == v
  }

  /** The states with the output `v` fill two ranges, one for each value of the top bit. */
  lemma OutputRanges(x: int, v: nat)
    requires 0 <= x < MODULUS && v < 0x8000
    ensures Output(x) == v <==>
            || v * 0x1_0000 <= x < v * 0x1_0000 + 0x1_0000
            || v * 0x1_0000 + 0x8000_0000 <= x < v * 0x1_0000 + 0x8000_0000 + 0x1_0000
  {
    var q := x / 0x1_0000;
    assert q * 0x1_0000 <= x < q * 0x1_0000 + 0x1_0000;
    assert q % 0x8000 == if q < 0x8000 then q else q - 0x8000;
  }

  lemma StatesShowingSize(v: nat)
    requires v < 0x8000
    ensures |StatesShowing(v)| == 0x2_0000
  {
    var low := Range(v * 0x1_0000, 0x1_0000);
    var high := Range(v * 0x1_0000 + 0x8000_0000, 0x1_0000);
    hide Range;
    forall x: int
      ensures x in StatesShowing(v) <==> x in low + high
    {
      if 0 <= x < MODULUS {
        OutputRanges(x, v);
        hide Output;
      }
    }
    assert StatesShowing(v) == low + high;
    assert low !! high;
  }

  lemma StatesAfterCallsDrawing(seed: Word, v: nat)
    ensures StatesAfter(seed, CallsDrawing(seed, v)) == StatesShowing(v)
  {
    forall x: int | x in StatesShowing(v)
      ensures x in StatesAfter(seed, CallsDrawing(seed, v))
    {
      var n := EveryStateReached(State(seed, 1), x);
      StateSplits(seed, 1, n);
      assert n in CallsDrawing(seed, v);
      assert State(seed, n + 1) == x;
    }
  }

  /** Over 2^32 calls from any seed each 15-bit number is drawn exactly 2^17 times. */
  lemma OutputsUniform(seed: Word, v: nat)
    requires v < 0x8000
    ensures |CallsDrawing(seed, v)| == 0x2_0000
  {
    StatesAfterSize(seed, CallsDrawing(seed, v));
    StatesAfterCallsDrawing(seed, v);
    StatesShowingSize(v);
  }
}
