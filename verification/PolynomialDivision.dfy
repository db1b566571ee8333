/**
 * The reference definition of the probe id: the remainder of a polynomial division over GF(2).
 * A polynomial is the set of exponents whose coefficient is 1.
 */
module PolynomialDivision {
  import opened ProbeIdHash

  type Poly = set<nat>

  /** Addition over GF(2): the symmetric difference. */
  ghost function Plus(p: Poly, q: Poly): Poly {
    (p - q) + (q - p)
  }

  /** Multiplication by x^k. */
  ghost function Shift(p: Poly, k: nat): (r: Poly)
    ensures forall e: nat {:trigger e in r} :: e in r <==> e >= k && (e - k) as nat in p
  {
    var r := set e: nat | e in p :: e + k;
    assert forall e: nat :: e >= k && (e - k) as nat in p ==> e in r by {
      forall e: nat | e >= k && (e - k) as nat in p
        ensures e in r
      {
        var d: nat := e - k;
        assert d + k == e;
      }
    }
    r
  }

  /** Multiplication by the generator x^16 + x^12 + x^5 + 1. */
  ghost function TimesGenerator(q: Poly): Poly {
    Plus(Plus(Shift(q, 16), Shift(q, 12)), Plus(Shift(q, 5), q))
  }

  /** `a` and `b` differ by a multiple of the generator. */
  ghost predicate Congruent(a: Poly, b: Poly) {
    exists q: Poly :: a == Plus(TimesGenerator(q), b)
  }

  ghost predicate IsRemainder(a: Poly, r: Poly) {
    Congruent(a, r) && forall e | e in r :: e < 16
  }

  lemma PlusMember(p: Poly, q: Poly, e: nat)
    ensures e in Plus(p, q) <==> ((e in p) != (e in q))
  {
  }

  lemma TimesMember(q: Poly, e: nat)
    ensures e in TimesGenerator(q) <==>
            ((((e >= 16 && (e - 16) as nat in q) != (e >= 12 && (e - 12) as nat in q))
             != (e >= 5 && (e - 5) as nat in q)) != (e in q))
  {
    hide Plus, Shift;
    PlusMember(Plus(Shift(q, 16), Shift(q, 12)), Plus(Shift(q, 5), q), e);
    PlusMember(Shift(q, 16), Shift(q, 12), e);
    PlusMember(Shift(q, 5), q, e);
  }

  lemma TimesPlus(p: Poly, q: Poly)
    ensures TimesGenerator(Plus(p, q)) == Plus(TimesGenerator(p), TimesGenerator(q))
  {
    hide TimesGenerator;
    forall e: nat
      ensures e in TimesGenerator(Plus(p, q)) <==> e in Plus(TimesGenerator(p), TimesGenerator(q))
    {
      TimesMember(p, e);
      TimesMember(q, e);
      TimesMember(Plus(p, q), e);
    }
  }

  lemma TimesShift(q: Poly, k: nat)
    ensures TimesGenerator(Shift(q, k)) == Shift(TimesGenerator(q), k)
  {
    hide TimesGenerator;
    forall e: nat
      ensures e in TimesGenerator(Shift(q, k)) <==> e in Shift(TimesGenerator(q), k)
    {
      TimesMember(Shift(q, k), e);
      if e >= k {
        TimesMember(q, e - k);
      }
    }
  }

  lemma PlusLaws(p: Poly, q: Poly, r: Poly)
    ensures Plus(p, q) == Plus(q, p)
    ensures Plus(Plus(p, q), r) == Plus(p, Plus(q, r))
    ensures Plus(p, Plus(p, q)) == q
    ensures Plus(p, {}) == p
  {
  }

  lemma PlusSwap(p: Poly, q: Poly, r: Poly)
    ensures Plus(Plus(p, q), r) == Plus(Plus(p, r), q)
  {
  }

  lemma ShiftPlus(p: Poly, q: Poly, k: nat)
    ensures Shift(Plus(p, q), k) == Plus(Shift(p, k), Shift(q, k))
  {
  }

  lemma ShiftShift(p: Poly, j: nat, k: nat)
    ensures Shift(Shift(p, j), k) == Shift(p, j + k)
    ensures Shift(p, 0) == p
  {
  }

  // ----- Congruence -----

  lemma CongruentTransitive(a: Poly, b: Poly, c: Poly)
    requires Congruent(a, b) && Congruent(b, c)
    ensures Congruent(a, c)
  {
    var p: Poly :| a == Plus(TimesGenerator(p), b);
    var q: Poly :| b == Plus(TimesGenerator(q), c);
    TimesPlus(p, q);
    hide TimesGenerator;
    PlusLaws(TimesGenerator(p), TimesGenerator(q), c);
    assert a == Plus(TimesGenerator(Plus(p, q)), c);
  }

  lemma CongruentShift(a: Poly, b: Poly, k: nat)
    requires Congruent(a, b)
    ensures Congruent(Shift(a, k), Shift(b, k))
  {
    var q: Poly :| a == Plus(TimesGenerator(q), b);
    TimesShift(q, k);
    hide TimesGenerator;
    ShiftPlus(TimesGenerator(q), b, k);
    assert Shift(a, k) == Plus(TimesGenerator(Shift(q, k)), Shift(b, k));
  }

  lemma CongruentPlus(a: Poly, b: Poly, c: Poly)
    requires Congruent(a, b)
    ensures Congruent(Plus(a, c), Plus(b, c))
  {
    var q: Poly :| a == Plus(TimesGenerator(q), b);
    hide TimesGenerator;
    PlusLaws(TimesGenerator(q), b, c);
    assert Plus(a, c) == Plus(TimesGenerator(q), Plus(b, c));
  }

  lemma Leading(q: Poly) returns (m: nat)
    requires q != {}
    ensures m in q && forall e | e in q :: e <= m
  {
    var e :| e in q;
    if q == {e} {
      m := e;
    } else {
      var rest := Leading(q - {e});
      m := if rest < e then e else rest;
      assert forall d | d in q :: d == e || d in q - {e};
    }
  }

  lemma HighTerm(q: Poly, m: nat)
    requires m in q && forall e | e in q :: e <= m
    ensures m + 16 in TimesGenerator(q)
  {
    hide TimesGenerator;
    TimesMember(q, m + 16);
    assert m + 4 !in q && m + 11 !in q && m + 16 !in q;
  }

  /** A nonzero multiple of the generator has a term of degree 16 or more. */
  lemma MultipleHasHighTerm(q: Poly)
    requires forall e | e in TimesGenerator(q) :: e < 16
    ensures q == {}
  {
    hide TimesGenerator;
    if q != {} {
      var m := Leading(q);
      HighTerm(q, m);
    }
  }

  lemma RemainderUnique(a: Poly, r: Poly, s: Poly)
    requires IsRemainder(a, r) && IsRemainder(a, s)
    ensures r == s
  {
    var p: Poly :| a == Plus(TimesGenerator(p), r);
    var q: Poly :| a == Plus(TimesGenerator(q), s);
    TimesPlus(p, q);
    hide TimesGenerator;
    assert Plus(TimesGenerator(p), TimesGenerator(q)) == Plus(r, s);
    MultipleHasHighTerm(Plus(p, q));
    assert p == q;
  }

  // ----- Registers and messages as polynomials -----

  function Mask(i: nat): bv16
    requires i < 16
  {
    if i < 8 then
      if i < 4 then (if i < 2 then (if i == 0 then 0x0001 else 0x0002) else if i == 2 then 0x0004 else 0x0008)
      else if i < 6 then (if i == 4 then 0x0010 else 0x0020) else if i == 6 then 0x0040 else 0x0080
    else if i < 12 then
      if i < 10 then (if i == 8 then 0x0100 else 0x0200) else if i == 10 then 0x0400 else 0x0800
    else if i < 14 then (if i == 12 then 0x1000 else 0x2000) else if i == 14 then 0x4000 else 0x8000
  }

  /** Bit `i` of a register. */
  predicate Bit(word: bv16, i: nat) {
    i < 16 && word & Mask(i) != 0
  }

  ghost function ToPoly(word: bv16): Poly {
    set i: nat | i < 16 && Bit(word, i)
  }

  lemma MaskXor(a: bv16, b: bv16, i: nat, mask: bv16, x: bv16)
    requires i < 16 && mask == Mask(i) && x == a ^ b
    ensures (x & mask != 0) == ((a & mask != 0) != (b & mask != 0))
  {
    OneBit(i, mask);
    hide Mask;
    AndXor(a, b, mask);
    OneBitOrNone(a, mask);
    OneBitOrNone(b, mask);
    XorOfOneBit(a & mask, b & mask, mask);
  }

  lemma OneBit(i: nat, mask: bv16)
    requires i < 16 && mask == Mask(i)
    ensures mask != 0 && mask & (mask - 1) == 0
  {
  }

  lemma AndXor(a: bv16, b: bv16, mask: bv16)
    ensures (a ^ b) & mask == (a & mask) ^ (b & mask)
  {
  }

  lemma OneBitOrNone(a: bv16, mask: bv16)
    requires mask & (mask - 1) == 0
    ensures a & mask == 0 || a & mask == mask
  {
  }

  lemma XorOfOneBit(c: bv16, d: bv16, mask: bv16)
    requires (c == 0 || c == mask) && (d == 0 || d == mask) && mask != 0
    ensures (c ^ d != 0) == ((c != 0) != (d != 0))
  {
  }

  lemma BitIsMasked(word: bv16, i: nat, mask: bv16)
    requires i < 16 && mask == Mask(i)
    ensures Bit(word, i) == (word & mask != 0)
  {
    hide Mask;
  }

  lemma BitXor(a: bv16, b: bv16, i: nat)
    requires i < 16
    ensures Bit(Xor(a, b), i) == (Bit(a, i) != Bit(b, i))
  {
    hide Bit, Mask;
    var x, mask := Xor(a, b), Mask(i);
    MaskXor(a, b, i, mask, x);
    BitIsMasked(a, i, mask);
    BitIsMasked(b, i, mask);
    BitIsMasked(x, i, mask);
  }

  lemma BitShiftOne(a: bv16, i: nat)
    requires i < 16
    ensures Bit(a << 1, i) == (i > 0 && Bit(a, i - 1))
  {
  }

  lemma BitShiftEight(b: bv8, i: nat)
    requires i < 16
    ensures Bit((b as bv16) << 8, i) == (i >= 8 && Bit(b as bv16, i - 8))
    ensures i >= 8 ==> !Bit(b as bv16, i)
  {
  }

  lemma ToPolyXor(a: bv16, b: bv16)
    ensures ToPoly(Xor(a, b)) == Plus(ToPoly(a), ToPoly(b))
  {
    hide Bit, Xor;
    forall i: nat
      ensures i in ToPoly(Xor(a, b)) <==> i in Plus(ToPoly(a), ToPoly(b))
    {
      if i < 16 {
        BitXor(a, b, i);
      }
    }
  }

  lemma ToPolyShiftEight(b: bv8)
    ensures ToPoly((b as bv16) << 8) == Shift(ToPoly(b as bv16), 8)
  {
    hide Bit;
    var shifted, byte := ToPoly((b as bv16) << 8), Shift(ToPoly(b as bv16), 8);
    forall i: nat
      ensures i in shifted <==> i in byte
    {
      if i < 16 {
        BitShiftEight(b, i);
      } else if i < 24 {
        BitShiftEight(b, i - 8);
      }
    }
  }

  lemma GeneratorPoly()
    ensures ToPoly(GENERATOR) == {0, 5, 12}
    ensures ToPoly(0) == {}
    ensures TimesGenerator({0}) == {0, 5, 12, 16}
    ensures TimesGenerator({}) == {}
  {
    var expected: Poly := {0, 5, 12, 16};
    forall e: nat
      ensures e in TimesGenerator({0}) <==> e in expected
    {
      TimesMember({0}, e);
    }
  }

  lemma TopBit(word: bv16)
    ensures Bit(word, 15) == (word & 0x8000 != 0)
  {
  }

  lemma ToPolyShiftOne(word: bv16)
    ensures Shift(ToPoly(word), 1) == Plus(ToPoly(word << 1), if word & 0x8000 != 0 then {16} else {})
  {
    TopBit(word);
    hide Bit;
    forall i: nat
      ensures i in Shift(ToPoly(word), 1)
          <==> i in Plus(ToPoly(word << 1), if word & 0x8000 != 0 then {16} else {})
    {
      if i < 16 {
        BitShiftOne(word, i);
      }
    }
  }

  /** One bitwise step multiplies by x and reduces by the generator. */
  lemma BitStepIsShift(word: bv16)
    ensures Congruent(Shift(ToPoly(word), 1), ToPoly(BitStep(word)))
  {
    hide TimesGenerator, ToPoly, Xor;
    var carry := Carry(word);
    assert BitStep(word) == Xor(word << 1, carry) by {
      BitStepIsXor(word);
    }
    ToPolyXor(word << 1, carry);
    ToPolyShiftOne(word);
    GeneratorPoly();
    var q: Poly := if word & 0x8000 != 0 then {0} else {};
    assert Shift(ToPoly(word), 1) == Plus(TimesGenerator(q), ToPoly(BitStep(word)));
  }

  lemma BitStepIsXor(word: bv16)
    ensures BitStep(word) == Xor(word << 1, Carry(word))
  {
    hide Carry;
  }

  lemma ShiftOnce(p: Poly, k: nat, word: bv16)
    requires Congruent(Shift(p, k), ToPoly(word))
    ensures Congruent(Shift(p, k + 1), ToPoly(BitStep(word)))
  {
    hide Congruent, ToPoly, BitStep;
    CongruentShift(Shift(p, k), ToPoly(word), 1);
    ShiftShift(p, k, 1);
    BitStepIsShift(word);
    CongruentTransitive(Shift(p, k + 1), Shift(ToPoly(word), 1), ToPoly(BitStep(word)));
  }

  lemma CongruentReflexive(p: Poly)
    ensures Congruent(p, p)
  {
    GeneratorPoly();
    assert p == Plus(TimesGenerator({}), p);
  }

  lemma EightBitStepsAreShift(word: bv16)
    ensures Congruent(Shift(ToPoly(word), 8), ToPoly(EightBitSteps(word)))
  {
    hide Congruent, ToPoly, BitStep, Shift;
    var p := ToPoly(word);
    ShiftShift(p, 0, 0);
    CongruentReflexive(p);
    var w1 := BitStep(word);
    ShiftOnce(p, 0, word);
    var w2 := BitStep(w1);
    ShiftOnce(p, 1, w1);
    var w3 := BitStep(w2);
    ShiftOnce(p, 2, w2);
    var w4 := BitStep(w3);
    ShiftOnce(p, 3, w3);
    var w5 := BitStep(w4);
    ShiftOnce(p, 4, w4);
    var w6 := BitStep(w5);
    ShiftOnce(p, 5, w5);
    var w7 := BitStep(w6);
    ShiftOnce(p, 6, w6);
    ShiftOnce(p, 7, w7);
  }

  /** The bits of the message, first byte first and high bit first, as coefficients from the leading one down. */
  ghost function MessagePoly(s: Bytes): Poly {
    if s == [] then {} else Plus(Shift(MessagePoly(s[..|s| - 1]), 8), ToPoly(s[|s| - 1] as bv16))
  }

  /** The message augmented by 16 zero bits, with the initial value added to its first 16 bits. */
  ghost function Dividend(s: Bytes): Poly {
    Plus(Shift(MessagePoly(s), 16), Shift(ToPoly(INITIAL), 8 * |s|))
  }

  lemma DividendAppend(s: Bytes, b: bv8)
    ensures Dividend(s + [b]) == Plus(Shift(Dividend(s), 8), Shift(ToPoly(b as bv16), 16))
  {
    hide ToPoly, Plus, Shift;
    var m, byte, start := MessagePoly(s), ToPoly(b as bv16), ToPoly(INITIAL);
    assert (s + [b])[..|s|] == s;
    assert MessagePoly(s + [b]) == Plus(Shift(m, 8), byte);
    ShiftPlus(Shift(m, 8), byte, 16);
    ShiftShift(m, 8, 16);
    ShiftPlus(Shift(m, 16), Shift(start, 8 * |s|), 8);
    ShiftShift(m, 16, 8);
    ShiftShift(start, 8 * |s|, 8);
    PlusSwap(Shift(m, 24), Shift(byte, 16), Shift(start, 8 * |s| + 8));
  }

  /** What one byte step does to a register congruent to `p`. */
  lemma ByteStepReduces(p: Poly, crc: bv16, b: bv8)
    requires Congruent(p, ToPoly(crc))
    ensures Congruent(Plus(Shift(p, 8), Shift(ToPoly(b as bv16), 16)), ToPoly(ByteStep(crc, b)))
  {
    hide Congruent, ToPoly, EightBitSteps, ByteStep, Plus, Shift;
    var byte, high, word := ToPoly(b as bv16), (b as bv16) << 8, Xor(crc, (b as bv16) << 8);
    CongruentShift(p, ToPoly(crc), 8);
    CongruentPlus(Shift(p, 8), Shift(ToPoly(crc), 8), Shift(byte, 16));
    ToPolyShiftEight(b);
    ShiftShift(byte, 8, 8);
    ToPolyXor(crc, high);
    ShiftPlus(ToPoly(crc), ToPoly(high), 8);
    assert Plus(Shift(ToPoly(crc), 8), Shift(byte, 16)) == Shift(ToPoly(word), 8);
    EightBitStepsAreShift(word);
    ByteStepIsEightBitSteps(crc, b);
    CongruentTransitive(Plus(Shift(p, 8), Shift(byte, 16)), Shift(ToPoly(word), 8), ToPoly(ByteStep(crc, b)));
  }

  lemma {:induction false} HashIsCongruent(s: Bytes)
    ensures Congruent(Dividend(s), ToPoly(HashBytes(s)))
  {
    if s == [] {
      ShiftShift(ToPoly(INITIAL), 0, 0);
      assert Shift(MessagePoly([]), 16) == {};
      PlusLaws(ToPoly(INITIAL), {}, {});
      CongruentReflexive(ToPoly(INITIAL));
    } else {
      hide Congruent, ToPoly, ByteStep, Dividend;
      var front, b := s[..|s| - 1], s[|s| - 1];
      HashIsCongruent(front);
      ByteStepReduces(Dividend(front), HashBytes(front), b);
      DividendAppend(front, b);
      assert s == front + [b];
    }
  }

  /**
   * The hash of a byte string is the remainder of dividing its polynomial by the generator,
   * and no other polynomial is.
   */
  lemma HashIsRemainder(s: Bytes, r: Poly)
    ensures IsRemainder(Dividend(s), r) <==> r == ToPoly(HashBytes(s))
  {
    hide Congruent, Dividend, HashBytes, Bit;
    HashIsCongruent(s);
    assert IsRemainder(Dividend(s), ToPoly(HashBytes(s)));
    if IsRemainder(Dividend(s), r) {
      RemainderUnique(Dividend(s), r, ToPoly(HashBytes(s)));
    }
  }

  // ----- Parity -----

  ghost predicate Odd(p: Poly) {
    |p| % 2 == 1
  }

  /** Whether a string has an odd number of one bits. */
  ghost predicate OddOnes(s: Bytes) {
    s != [] && OddOnes(s[..|s| - 1]) != Odd(ToPoly(s[|s| - 1] as bv16))
  }

  lemma PlusParity(p: Poly, q: Poly)
    ensures Odd(Plus(p, q)) == (Odd(p) != Odd(q))
  {
    assert |p - q| == |p| - |p * q| && |q - p| == |q| - |q * p|;
    assert p * q == q * p && (p - q) * (q - p) == {};
  }

  lemma {:induction false} ShiftCardinality(p: Poly, k: nat)
    ensures |Shift(p, k)| == |p|
  {
    if p == {} {
      assert Shift(p, k) == {};
    } else {
      var e :| e in p;
      ShiftCardinality(p - {e}, k);
      assert Shift(p, k) == Shift(p - {e}, k) + {e + k};
    }
  }

  lemma ShiftParity(p: Poly, k: nat)
    ensures Odd(Shift(p, k)) == Odd(p)
  {
    ShiftCardinality(p, k);
  }

  lemma CongruentParity(a: Poly, b: Poly)
    requires Congruent(a, b)
    ensures Odd(a) == Odd(b)
  {
    hide Plus, Shift, Odd;
    var q: Poly :| a == Plus(TimesGenerator(q), b);
    ShiftParity(q, 16);
    ShiftParity(q, 12);
    ShiftParity(q, 5);
    PlusParity(Plus(Shift(q, 16), Shift(q, 12)), Plus(Shift(q, 5), q));
    PlusParity(Shift(q, 16), Shift(q, 12));
    PlusParity(Shift(q, 5), q);
    PlusParity(TimesGenerator(q), b);
  }

  lemma {:induction false} MessageParity(s: Bytes)
    ensures Odd(MessagePoly(s)) == OddOnes(s)
  {
    if s == [] {
    } else {
      hide ToPoly, Plus, Shift, Odd;
      var front, byte := s[..|s| - 1], ToPoly(s[|s| - 1] as bv16);
      MessageParity(front);
      ShiftParity(MessagePoly(front), 8);
      PlusParity(Shift(MessagePoly(front), 8), byte);
    }
  }

  lemma InitialParity()
    ensures !Odd(ToPoly(INITIAL))
  {
    hide Odd;
    var half: Poly := {0, 1, 2, 3, 4, 5, 6, 7};
    assert ToPoly(INITIAL) == Plus(Shift(half, 8), half);
    ShiftParity(half, 8);
    PlusParity(Shift(half, 8), half);
  }

  /** A hash has an odd number of ones exactly when its string has: flipping an odd number of bits changes the id. */
  lemma HashParity(s: Bytes)
    ensures Odd(ToPoly(HashBytes(s))) == OddOnes(s)
  {
    hide Congruent, ToPoly, Plus, Shift, HashBytes, MessagePoly, OddOnes, Odd;
    HashIsCongruent(s);
    CongruentParity(Dividend(s), ToPoly(HashBytes(s)));
    MessageParity(s);
    InitialParity();
    ShiftParity(MessagePoly(s), 16);
    ShiftParity(ToPoly(INITIAL), 8 * |s|);
    PlusParity(Shift(MessagePoly(s), 16), Shift(ToPoly(INITIAL), 8 * |s|));
  }
}
