/** Which changes to a name always change its id: bursts of up to 16 bits, and up to three bits anywhere. */
module ErrorDetection {
  import opened PolynomialDivision
  import opened PowersOfX
  import opened ProbeIdHash

  // ----- Bits of a string -----

  /** Bit `e` of a string, counted from its last bit on. */
  predicate BitOf(s: Bytes, e: nat) {
    e < 8 * |s| && Bit(s[|s| - 1 - e / 8] as bv16, e % 8)
  }

  /** Where two strings of equal length differ. */
  function DifferingBits(s: Bytes, t: Bytes): set<nat> {
    set e: nat | e < 8 * |s| && BitOf(s, e) != BitOf(t, e)
  }

  lemma {:induction false} MessageHasBits(s: Bytes, e: nat)
    ensures e in MessagePoly(s) <==> BitOf(s, e)
  {
    if s == [] {
    } else {
      hide Bit;
      var front, b := s[..|s| - 1], s[|s| - 1];
      if e >= 8 {
        MessageHasBits(front, e - 8);
        assert (e - 8) / 8 == e / 8 - 1 && (e - 8) % 8 == e % 8;
      }
      if e < 16 {
        BitShiftEight(b, e);
      }
    }
  }

  lemma DifferenceIsSum(s: Bytes, t: Bytes)
    requires |s| == |t|
    ensures DifferingBits(s, t) == Plus(MessagePoly(s), MessagePoly(t))
  {
    hide BitOf, MessagePoly;
    forall e: nat
      ensures e in DifferingBits(s, t) <==> e in Plus(MessagePoly(s), MessagePoly(t))
    {
      MessageHasBits(s, e);
      MessageHasBits(t, e);
      BitInside(s, e);
      BitInside(t, e);
    }
  }

  lemma BitInside(s: Bytes, e: nat)
    ensures BitOf(s, e) ==> e < 8 * |s|
  {
    hide Bit;
  }

  // ----- Multiples of the generator -----

  ghost predicate Divides(p: Poly) {
    Congruent(p, {})
  }

  lemma CongruentSymmetric(a: Poly, b: Poly)
    requires Congruent(a, b)
    ensures Congruent(b, a)
  {
    var q: Poly :| a == Plus(TimesGenerator(q), b);
    hide TimesGenerator;
    PlusLaws(TimesGenerator(q), b, {});
    assert b == Plus(TimesGenerator(q), a);
  }

  lemma PlusItself(p: Poly)
    ensures Plus(p, p) == {}
  {
  }

  lemma CongruentIffDivides(a: Poly, b: Poly)
    ensures Congruent(a, b) <==> Divides(Plus(a, b))
  {
    hide Congruent, Plus;
    PlusItself(b);
    PlusLaws(b, a, {});
    PlusLaws(a, b, b);
    PlusLaws(b, {}, {});
    if Congruent(a, b) {
      CongruentPlus(a, b, b);
    }
    if Congruent(Plus(a, b), {}) {
      CongruentPlus(Plus(a, b), {}, b);
    }
  }

  /** The quotient by x^k of a multiple of x^k. */
  function Lower(p: Poly, k: nat): Poly {
    set e: nat | e in p && e >= k :: (e - k) as nat
  }

  lemma LowerShifts(p: Poly, k: nat)
    requires forall e | e in p :: e >= k
    ensures Shift(Lower(p, k), k) == p
  {
    forall e: nat
      ensures e in Shift(Lower(p, k), k) <==> e in p
    {
      if e in p {
        assert (e - k) as nat in Lower(p, k);
      }
    }
  }

  /** The generator has a constant term, so that a power of x cancels. */
  lemma CancelX(p: Poly)
    requires Divides(Shift(p, 1))
    ensures Divides(p)
  {
    var q: Poly :| Shift(p, 1) == Plus(TimesGenerator(q), {});
    hide TimesGenerator;
    PlusLaws(TimesGenerator(q), {}, {});
    TimesMember(q, 0);
    assert 0 !in Shift(p, 1);
    LowerShifts(q, 1);
    hide Lower;
    TimesShift(Lower(q, 1), 1);
    forall e: nat
      ensures e in p <==> e in TimesGenerator(Lower(q, 1))
    {
      assert e + 1 in Shift(p, 1) <==> e in p;
      assert e + 1 in Shift(TimesGenerator(Lower(q, 1)), 1) <==> e in TimesGenerator(Lower(q, 1));
    }
    PlusLaws(TimesGenerator(Lower(q, 1)), {}, {});
    assert p == Plus(TimesGenerator(Lower(q, 1)), {});
  }

  lemma {:induction false} CancelPower(p: Poly, k: nat)
    requires Divides(Shift(p, k))
    ensures Divides(p)
  {
    hide Divides, Shift;
    if k == 0 {
      ShiftShift(p, 0, 0);
    } else {
      ShiftShift(p, k - 1, 1);
      CancelX(Shift(p, k - 1));
      CancelPower(p, k - 1);
    }
  }

  /** Two strings of equal length have the same hash exactly when the generator divides their difference. */
  lemma CollisionIffDivides(s: Bytes, t: Bytes)
    requires |s| == |t|
    ensures HashBytes(s) == HashBytes(t) <==> Divides(DifferingBits(s, t))
  {
    hide Congruent, HashBytes, ToPoly, MessagePoly, DifferingBits, Shift, Plus;
    var d := DifferingBits(s, t);
    DifferenceIsSum(s, t);
    DividendsDiffer(s, t);
    CongruentIffDivides(Dividend(s), Dividend(t));
    hide Divides, Dividend;
    if Divides(d) {
      DividesShift(d, 16);
      SameRemainder(s, t);
    }
    if HashBytes(s) == HashBytes(t) {
      SameRemainder(s, t);
      CancelPower(d, 16);
    }
  }

  lemma DividendsDiffer(s: Bytes, t: Bytes)
    requires |s| == |t|
    ensures Plus(Dividend(s), Dividend(t)) == Shift(Plus(MessagePoly(s), MessagePoly(t)), 16)
  {
    hide Shift, ToPoly, MessagePoly;
    ShiftPlus(MessagePoly(s), MessagePoly(t), 16);
  }

  lemma DividesShift(p: Poly, k: nat)
    requires Divides(p)
    ensures Divides(Shift(p, k))
  {
    CongruentShift(p, {}, k);
    assert Shift({}, k) == {};
    hide Congruent;
  }

  lemma SameRemainder(s: Bytes, t: Bytes)
    ensures HashBytes(s) == HashBytes(t) <==> Congruent(Dividend(s), Dividend(t))
  {
    hide Congruent, Dividend, HashBytes, ToPoly, Bit;
    var r, q := ToPoly(HashBytes(s)), ToPoly(HashBytes(t));
    HashIsRemainder(s, r);
    HashIsRemainder(t, q);
    if HashBytes(s) == HashBytes(t) {
      CongruentSymmetric(Dividend(t), r);
      CongruentTransitive(Dividend(s), r, Dividend(t));
    }
    if Congruent(Dividend(s), Dividend(t)) {
      CongruentTransitive(Dividend(s), Dividend(t), q);
      HashIsRemainder(s, q);
      ToPolyDetermines(HashBytes(s), HashBytes(t));
    }
  }

  /** A register is determined by its bits. */
  lemma ToPolyDetermines(a: bv16, b: bv16)
    ensures ToPoly(a) == ToPoly(b) ==> a == b
  {
    hide Bit;
    if ToPoly(a) == ToPoly(b) {
      forall i: nat | i < 16
        ensures Bit(a, i) == Bit(b, i)
      {
        assert i in ToPoly(a) <==> i in ToPoly(b);
      }
      BitsDetermine(a, b);
    }
  }

  predicate Has(word: bv16, mask: bv16) {
    word & mask != 0
  }

  lemma BitsDetermine(a: bv16, b: bv16)
    requires forall i: nat :: i < 16 ==> Bit(a, i) == Bit(b, i)
    ensures a == b
  {
    hide Bit, Mask, Has;
    Masks();
    SameMasked(a, b, 0, 0x0001);
    SameMasked(a, b, 1, 0x0002);
    SameMasked(a, b, 2, 0x0004);
    SameMasked(a, b, 3, 0x0008);
    SameMasked(a, b, 4, 0x0010);
    SameMasked(a, b, 5, 0x0020);
    SameMasked(a, b, 6, 0x0040);
    SameMasked(a, b, 7, 0x0080);
    SameMasked(a, b, 8, 0x0100);
    SameMasked(a, b, 9, 0x0200);
    SameMasked(a, b, 10, 0x0400);
    SameMasked(a, b, 11, 0x0800);
    SameMasked(a, b, 12, 0x1000);
    SameMasked(a, b, 13, 0x2000);
    SameMasked(a, b, 14, 0x4000);
    SameMasked(a, b, 15, 0x8000);
    MaskedBitsDetermine(a, b);
  }

  lemma SameMasked(a: bv16, b: bv16, i: nat, mask: bv16)
    requires i < 16 && mask == Mask(i) && Bit(a, i) == Bit(b, i)
    ensures Has(a, mask) == Has(b, mask)
  {
    hide Bit, Mask;
    BitIsMasked(a, i, mask);
    BitIsMasked(b, i, mask);
  }

  lemma MaskedBitsDetermine(a: bv16, b: bv16)
    requires Has(a, 0x0001) == Has(b, 0x0001) && Has(a, 0x0002) == Has(b, 0x0002)
    requires Has(a, 0x0004) == Has(b, 0x0004) && Has(a, 0x0008) == Has(b, 0x0008)
    requires Has(a, 0x0010) == Has(b, 0x0010) && Has(a, 0x0020) == Has(b, 0x0020)
    requires Has(a, 0x0040) == Has(b, 0x0040) && Has(a, 0x0080) == Has(b, 0x0080)
    requires Has(a, 0x0100) == Has(b, 0x0100) && Has(a, 0x0200) == Has(b, 0x0200)
    requires Has(a, 0x0400) == Has(b, 0x0400) && Has(a, 0x0800) == Has(b, 0x0800)
    requires Has(a, 0x1000) == Has(b, 0x1000) && Has(a, 0x2000) == Has(b, 0x2000)
    requires Has(a, 0x4000) == Has(b, 0x4000) && Has(a, 0x8000) == Has(b, 0x8000)
    ensures a == b
  {
  }

  lemma Masks()
    ensures Mask(0) == 0x0001 && Mask(1) == 0x0002 && Mask(2) == 0x0004 && Mask(3) == 0x0008
    ensures Mask(4) == 0x0010 && Mask(5) == 0x0020 && Mask(6) == 0x0040 && Mask(7) == 0x0080
    ensures Mask(8) == 0x0100 && Mask(9) == 0x0200 && Mask(10) == 0x0400 && Mask(11) == 0x0800
    ensures Mask(12) == 0x1000 && Mask(13) == 0x2000 && Mask(14) == 0x4000 && Mask(15) == 0x8000
  {
  }

  // ----- Bursts -----

  /** Strings of equal length that differ, and differ only within 16 consecutive bits, hash differently. */
  lemma NoCollisionInBurst(s: Bytes, t: Bytes, e: nat)
    requires |s| == |t| && DifferingBits(s, t) != {} && forall d | d in DifferingBits(s, t) :: e <= d < e + 16
    ensures HashBytes(s) != HashBytes(t)
  {
    hide HashBytes, DifferingBits, Divides, Shift;
    var burst := DifferingBits(s, t);
    var low := Lower(burst, e);
    LowerShifts(burst, e);
    assert forall d | d in low :: d < 16;
    hide Lower;
    if HashBytes(s) == HashBytes(t) {
      CollisionIffDivides(s, t);
      CancelPower(low, e);
      LowMultipleIsZero(low);
      ShiftZero(e);
    }
  }

  lemma ShiftZero(k: nat)
    ensures Shift({}, k) == {}
  {
  }

  lemma LowMultipleIsZero(p: Poly)
    requires Divides(p) && forall e | e in p :: e < 16
    ensures p == {}
  {
    var q: Poly :| p == Plus(TimesGenerator(q), {});
    hide TimesGenerator;
    PlusLaws(TimesGenerator(q), {}, {});
    MultipleHasHighTerm(q);
    GeneratorPoly();
  }

  // ----- Single bits, pairs and triples -----

  lemma ToPolyOne()
    ensures ToPoly(1) == {0}
  {
    hide Mask;
    Masks();
  }

  lemma ShiftedOne(n: nat)
    ensures Shift({0}, n) == {n}
  {
  }

  lemma {:induction false} PowerIsRemainder(n: nat)
    ensures Congruent({n}, ToPoly(PowerOfX(n)))
  {
    hide Congruent, ToPoly, BitStep, Shift;
    if n == 0 {
      ToPolyOne();
      CongruentReflexive({0});
    } else {
      PowerIsRemainder(n - 1);
      ShiftedOne(n - 1);
      ShiftedOne(n);
      ShiftOnce({0}, n - 1, PowerOfX(n - 1));
    }
  }

  lemma PairNotDivided(i: nat, j: nat)
    requires i < j <= i + 2048
    ensures !Divides({i, j})
  {
    hide Congruent, ToPoly, PowerOfX;
    if Divides({i, j}) {
      var n := j - i;
      assert Shift({0, n}, i) == {i, j};
      CancelPower({0, n}, i);
      assert Plus({n}, {0}) == {0, n};
      CongruentIffDivides({n}, {0});
      PowerIsRemainder(n);
      ToPolyLow(PowerOfX(n));
      RemaindersEqual({n}, ToPoly(PowerOfX(n)));
      ToPolyOne();
      ToPolyDetermines(PowerOfX(n), 1);
      NoShortOrder(n);
    }
  }

  lemma ToPolyLow(w: bv16)
    ensures forall e | e in ToPoly(w) :: e < 16
  {
  }

  lemma RemaindersEqual(a: Poly, r: Poly)
    requires Congruent(a, {0}) && Congruent(a, r) && forall e | e in r :: e < 16
    ensures r == {0}
  {
    RemainderUnique(a, r, {0});
  }

  lemma PairOf(p: Poly) returns (i: nat, j: nat)
    requires |p| == 2
    ensures i < j && p == {i, j}
  {
    var a :| a in p;
    var rest := p - {a};
    assert |rest| == 1;
    var b :| b in rest;
    assert rest - {b} == {} by {
      assert |rest - {b}| == 0;
    }
    assert p == {a, b};
    i, j := if a < b then a else b, if a < b then b else a;
  }

  lemma OddNotDivided(p: Poly)
    requires |p| % 2 == 1
    ensures !Divides(p)
  {
    hide Congruent;
    if Divides(p) {
      CongruentParity(p, {});
    }
  }

  /** Names of up to 255 bytes and of equal length that differ in one, two or three bits hash differently. */
  lemma NoCollisionUpToThreeBits(s: Bytes, t: Bytes)
    requires 1 <= |s| == |t| <= 255 && 1 <= |DifferingBits(s, t)| <= 3
    ensures HashName(s) != HashName(t)
  {
    hide Divides, HashBytes, BitOf;
    var d := DifferingBits(s, t);
    assert forall e | e in d :: e < 2040;
    hide DifferingBits;
    ShortName(s);
    ShortName(t);
    CollisionIffDivides(s, t);
    if |d| == 2 {
      var i, j := PairOf(d);
      assert i in d && j in d;
      PairNotDivided(i, j);
    } else {
      OddNotDivided(d);
    }
  }

  lemma HashThree(a: bv8, b: bv8, c: bv8)
    ensures HashName([a, b, c]) == ByteStep(ByteStep(ByteStep(0xFFFF, a), b), c)
  {
    hide ByteStep;
    HashAppend([], a);
    HashAppend([a], b);
    HashAppend([a, b], c);
    assert [] + [a] == [a] && [a] + [b] == [a, b] && [a, b] + [c] == [a, b, c];
    ShortName([a, b, c]);
  }

  /** With four bits the ids may be the same: here the two names differ by the generator itself. */
  lemma FourBitsMayCollide()
    ensures HashName([0x41, 0x41, 0x41]) == HashName([0x40, 0x51, 0x60])
    ensures DifferingBits([0x41, 0x41, 0x41], [0x40, 0x51, 0x60]) == {0, 5, 12, 16}
  {
    HashThree(0x41, 0x41, 0x41);
    HashThree(0x40, 0x51, 0x60);
    hide HashName;
    FourDifferingBits();
    hide DifferingBits;
  }

  lemma FourDifferingBits()
    ensures DifferingBits([0x41, 0x41, 0x41], [0x40, 0x51, 0x60]) == {0, 5, 12, 16}
  {
    var s: Bytes, t: Bytes := [0x41, 0x41, 0x41], [0x40, 0x51, 0x60];
    forall e: nat
      ensures e in DifferingBits(s, t) <==> e == 0 || e == 5 || e == 12 || e == 16
    {
      if e < 24 {
        assert e == 8 * (e / 8) + e % 8;
      }
    }
  }
}
