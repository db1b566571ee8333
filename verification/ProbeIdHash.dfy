/** The probe id of a task: CRC-16/IBM-3740 of its name, one byte at a time and without a table. */
module ProbeIdHash {

  type Bytes = seq<bv8>

  const INITIAL: bv16 := 0xFFFF

  /** The generator x^16 + x^12 + x^5 + 1, without its leading term. */
  const GENERATOR: bv16 := 0x1021

  /** `x = crc >> 8 ^ byte`: the byte meets the top half of the register. */
  function Index(crc: bv16, b: bv8): bv8 {
    ((crc >> 8) as bv8) ^ b
  }

  /** `x ^= x >> 4`. */
  function Fold(z: bv8): bv8 {
    z ^ (z >> 4)
  }

  /** The assignment to the register that ends the loop body. */
  function Shuffle(crc: bv16, x: bv8): bv16 {
    (crc << 8) ^ ((x as bv16) << 12) ^ ((x as bv16) << 5) ^ (x as bv16)
  }

  /** One pass through the loop body. */
  function ByteStep(crc: bv16, b: bv8): bv16 {
    Shuffle(crc, Fold(Index(crc, b)))
  }

  function HashBytes(s: Bytes): bv16 {
    if s == [] then INITIAL else ByteStep(HashBytes(s[..|s| - 1]), s[|s| - 1])
  }

  lemma HashAppend(s: Bytes, b: bv8)
    ensures HashBytes(s + [b]) == ByteStep(HashBytes(s), b)
  {
    hide ByteStep;
    assert (s + [b])[..|s|] == s;
  }

  /** The length reaches the hash as a `uint8_t`, so it is taken modulo 256. */
  function HashedLength(name: Bytes): nat {
    |name| % 256
  }

  /** The id of `name`; 0 when the length assertion fails. */
  function HashName(name: Bytes): bv16 {
    if HashedLength(name) == 0 then 0 else HashBytes(name[..HashedLength(name)])
  }

  /** A name longer than 255 bytes has the id of what is left when 256 bytes are taken off its end. */
  lemma LengthWraps(name: Bytes)
    requires |name| >= 256
    ensures HashName(name) == HashName(name[..|name| - 256])
  {
    var shorter := name[..|name| - 256];
    assert HashedLength(shorter) == HashedLength(name);
    assert shorter[..HashedLength(name)] == name[..HashedLength(name)];
    hide HashBytes;
  }

  /** The `while(length-- != 0)` loop, its shifts and xors written as in the C source. */
  method HashLoop(name: Bytes, length: nat) returns (crc: bv16)
    requires length <= |name|
    ensures crc == HashBytes(name[..length])
  {
    crc := 0xFFFF;
    var next := 0;
    var left := length;
    while left != 0
      invariant next + left == length
      invariant crc == HashBytes(name[..next])
    {
      var x: bv8 := ((crc >> 8) as bv8) ^ name[next];
      LoopBodyIsByteStep(crc, name[next], x, x ^ (x >> 4));
      HashAppend(name[..next], name[next]);
      hide ByteStep;
      assert name[..next + 1] == name[..next] + [name[next]];
      x := x ^ (x >> 4);
      crc := (crc << 8) ^ ((x as bv16) << 12) ^ ((x as bv16) << 5) ^ (x as bv16);
      next := next + 1;
      left := left - 1;
    }
  }

  lemma LoopBodyIsByteStep(crc: bv16, b: bv8, z: bv8, x: bv8)
    requires z == ((crc >> 8) as bv8) ^ b && x == z ^ (z >> 4)
    ensures ByteStep(crc, b) == (crc << 8) ^ ((x as bv16) << 12) ^ ((x as bv16) << 5) ^ (x as bv16)
  {
    hide Index, Fold;
    IndexInC(crc, b, z);
    FoldInC(z, x);
  }

  lemma IndexInC(crc: bv16, b: bv8, z: bv8)
    requires z == ((crc >> 8) as bv8) ^ b
    ensures z == Index(crc, b)
  {
  }

  lemma FoldInC(z: bv8, x: bv8)
    requires x == z ^ (z >> 4)
    ensures x == Fold(z)
  {
  }

  // ----- A byte step is eight shift-and-conditional-xor steps -----

  function Xor(a: bv16, b: bv16): bv16 {
    a ^ b
  }

  /** What a byte, already folded, adds to the shifted register. */
  function Spread(x: bv8): bv16 {
    ((x as bv16) << 12) ^ ((x as bv16) << 5) ^ (x as bv16)
  }

  function Feedback(z: bv8): bv16 {
    Spread(Fold(z))
  }

  lemma ShuffleIsShiftAndSpread(crc: bv16, x: bv8)
    ensures Shuffle(crc, x) == Xor(crc << 8, Spread(x))
  {
  }

  lemma ByteStepIsShiftAndFeedback(crc: bv16, b: bv8)
    ensures ByteStep(crc, b) == Xor(crc << 8, Feedback(Index(crc, b)))
  {
    hide Shuffle, Spread, Fold, Index, Xor;
    ShuffleIsShiftAndSpread(crc, Fold(Index(crc, b)));
  }

  /** What shifting a one out of the register xors back in. */
  function Carry(crc: bv16): bv16 {
    if crc & 0x8000 != 0 then GENERATOR else 0
  }

  /** The bitwise definition of the code: one shift, and a xor when a one falls out. */
  function BitStep(crc: bv16): bv16 {
    (crc << 1) ^ Carry(crc)
  }

  function EightBitSteps(crc: bv16): bv16 {
    BitStep(BitStep(BitStep(BitStep(BitStep(BitStep(BitStep(BitStep(crc))))))))
  }

  lemma CarryLinear(a: bv16, b: bv16)
    ensures Carry(a ^ b) == Carry(a) ^ Carry(b)
  {
  }

  lemma BitStepXor(a: bv16, b: bv16)
    ensures BitStep(a ^ b) == BitStep(a) ^ BitStep(b)
  {
    CarryLinear(a, b);
    hide Carry;
  }

  lemma BitStepLinear(a: bv16, b: bv16)
    ensures BitStep(Xor(a, b)) == Xor(BitStep(a), BitStep(b))
  {
    BitStepXor(a, b);
    hide BitStep;
  }

  lemma EightBitStepsLinear(a: bv16, b: bv16)
    ensures EightBitSteps(Xor(a, b)) == Xor(EightBitSteps(a), EightBitSteps(b))
  {
    hide BitStep, Xor;
    BitStepLinear(a, b);
    var a1, b1 := BitStep(a), BitStep(b);
    BitStepLinear(a1, b1);
    var a2, b2 := BitStep(a1), BitStep(b1);
    BitStepLinear(a2, b2);
    var a3, b3 := BitStep(a2), BitStep(b2);
    BitStepLinear(a3, b3);
    var a4, b4 := BitStep(a3), BitStep(b3);
    BitStepLinear(a4, b4);
    var a5, b5 := BitStep(a4), BitStep(b4);
    BitStepLinear(a5, b5);
    var a6, b6 := BitStep(a5), BitStep(b5);
    BitStepLinear(a6, b6);
    var a7, b7 := BitStep(a6), BitStep(b6);
    BitStepLinear(a7, b7);
  }

  lemma EightBitStepsOfHighByte(z: bv8)
    ensures EightBitSteps((z as bv16) << 8) == Feedback(z)
  {
  }

  lemma EightBitStepsOfLowByte(z: bv8)
    ensures EightBitSteps(z as bv16) == (z as bv16) << 8
  {
  }

  lemma SplitRegister(crc: bv16, b: bv8, low: bv8)
    requires low == (crc & 0xFF) as bv8
    ensures crc ^ ((b as bv16) << 8) == Xor(low as bv16, (Index(crc, b) as bv16) << 8)
    ensures crc << 8 == (low as bv16) << 8
  {
  }

  /** The shift-12/shift-5 trick computes exactly the bitwise code, for every register and byte. */
  lemma ByteStepIsEightBitSteps(crc: bv16, b: bv8)
    ensures ByteStep(crc, b) == EightBitSteps(crc ^ ((b as bv16) << 8))
  {
    hide Feedback, EightBitSteps, ByteStep, Xor, Index;
    var low: bv8 := (crc & 0xFF) as bv8;
    SplitRegister(crc, b, low);
    EightBitStepsLinear(low as bv16, (Index(crc, b) as bv16) << 8);
    EightBitStepsOfHighByte(Index(crc, b));
    EightBitStepsOfLowByte(low);
    ByteStepIsShiftAndFeedback(crc, b);
  }

  // ----- Collisions -----

  /** Recovers a byte from the low half of its feedback. */
  function Unfeed(low: bv8): bv8 {
    var x: bv8 := low ^ (low << 5);
    x ^ (x >> 4)
  }

  function LowByte(crc: bv16): bv8 {
    (crc & 0xFF) as bv8
  }

  lemma UnfeedInverts(z: bv8)
    ensures Unfeed(LowByte(Feedback(z))) == z
  {
  }

  lemma LowByteOfShift(crc: bv16, f: bv16)
    ensures LowByte(Xor(crc << 8, f)) == LowByte(f)
  {
  }

  lemma XorCancels(a: bv16, b: bv16, c: bv16)
    ensures Xor(a, c) == Xor(b, c) ==> a == b
  {
  }

  lemma IndexCancels(c: bv16, a: bv8, b: bv8)
    ensures Index(c, a) == Index(c, b) ==> a == b
  {
  }

  lemma HalvesDetermineRegister(a: bv16, b: bv16, x: bv8)
    ensures a << 8 == b << 8 && Index(a, x) == Index(b, x) ==> a == b
    ensures a << 8 == b << 8 ==> LowByte(a) == LowByte(b)
  {
  }

  /** The index that went into a step can be read off its low byte. */
  lemma IndexFromLowByte(crc: bv16, b: bv8)
    ensures Unfeed(LowByte(ByteStep(crc, b))) == Index(crc, b)
  {
    hide Feedback, Unfeed, LowByte, Xor, ByteStep, Index;
    ByteStepIsShiftAndFeedback(crc, b);
    LowByteOfShift(crc, Feedback(Index(crc, b)));
    UnfeedInverts(Index(crc, b));
  }

  /** Equal registers after a step had equal low halves before it, and equal indices. */
  lemma ByteStepDetermines(c: bv16, x: bv8, d: bv16, y: bv8)
    requires ByteStep(c, x) == ByteStep(d, y)
    ensures Index(c, x) == Index(d, y)
    ensures c << 8 == d << 8
  {
    hide Feedback, Unfeed, LowByte, Xor, ByteStep, Index;
    IndexFromLowByte(c, x);
    IndexFromLowByte(d, y);
    ByteStepIsShiftAndFeedback(c, x);
    ByteStepIsShiftAndFeedback(d, y);
    XorCancels(c << 8, d << 8, Feedback(Index(c, x)));
  }

  /** For a fixed byte, a step is injective in the register. */
  lemma ByteStepInjective(c: bv16, d: bv16, b: bv8)
    requires ByteStep(c, b) == ByteStep(d, b)
    ensures c == d
  {
    hide ByteStep, Index;
    ByteStepDetermines(c, b, d, b);
    HalvesDetermineRegister(c, d, b);
  }

  /** For a fixed register, two steps are injective in their two bytes together. */
  lemma TwoByteStepsInjective(c: bv16, a: bv8, b: bv8, x: bv8, y: bv8)
    requires ByteStep(ByteStep(c, a), b) == ByteStep(ByteStep(c, x), y)
    ensures a == x && b == y
  {
    hide Unfeed, LowByte, ByteStep, Index;
    var r, s := ByteStep(c, a), ByteStep(c, x);
    ByteStepDetermines(r, b, s, y);
    HalvesDetermineRegister(r, s, 0);
    IndexFromLowByte(c, a);
    IndexFromLowByte(c, x);
    IndexCancels(c, a, x);
    IndexCancels(r, b, y);
  }

  /** Names of equal length that differ, and differ only in the two bytes at `i`, hash differently. */
  lemma {:induction false} NoCollisionInWindow(s: Bytes, t: Bytes, i: nat)
    requires |s| == |t| && s != t
    requires forall j :: 0 <= j < |s| && j != i && j != i + 1 ==> s[j] == t[j]
    ensures HashBytes(s) != HashBytes(t)
  {
    hide ByteStep;
    var n := |s| - 1;
    var s', t' := s[..n], t[..n];
    assert s == s' + [s[n]] && t == t' + [t[n]];
    if n > i + 1 {
      NoCollisionInWindow(s', t', i);
      if HashBytes(s) == HashBytes(t) {
        ByteStepInjective(HashBytes(s'), HashBytes(t'), s[n]);
      }
    } else if n == i + 1 {
      var start := s'[..i];
      assert t'[..i] == start;
      if HashBytes(s) == HashBytes(t) {
        assert s' == start + [s[i]] && t' == start + [t[i]];
        HashAppend(start, s[i]);
        HashAppend(start, t[i]);
        TwoByteStepsInjective(HashBytes(start), s[i], s[n], t[i], t[n]);
      }
    } else {
      assert s' == t';
      if HashBytes(s) == HashBytes(t) {
        TwoByteStepsInjective(HashBytes(s'), s[n], 0, t[n], 0);
      }
    }
  }

  /** A name of at most 255 bytes is hashed whole. */
  lemma ShortName(name: Bytes)
    requires 1 <= |name| <= 255
    ensures HashedLength(name) == |name| && HashName(name) == HashBytes(name)
  {
    hide HashBytes;
    assert name[..|name|] == name;
  }

  /** So do the ids of tasks with such names. */
  lemma IdsDiffer(s: Bytes, t: Bytes, i: nat)
    requires 1 <= |s| == |t| <= 255 && s != t
    requires forall j :: 0 <= j < |s| && j != i && j != i + 1 ==> s[j] == t[j]
    ensures HashName(s) != HashName(t)
  {
    hide *;
    NoCollisionInWindow(s, t, i);
    ShortName(s);
    ShortName(t);
  }

  // ----- Residue -----

  function HighByte(crc: bv16): bv8 {
    (crc >> 8) as bv8
  }

  lemma OwnBytesClearRegister(crc: bv16)
    ensures ByteStep(ByteStep(crc, HighByte(crc)), LowByte(crc)) == 0
  {
  }

  /** Hashing a string followed by its own hash, high byte first, gives 0. */
  lemma Residue(s: Bytes)
    ensures HashBytes(s + [HighByte(HashBytes(s)), LowByte(HashBytes(s))]) == 0
  {
    hide ByteStep, HighByte, LowByte;
    var crc := HashBytes(s);
    HashAppend(s, HighByte(crc));
    HashAppend(s + [HighByte(crc)], LowByte(crc));
    assert s + [HighByte(crc), LowByte(crc)] == (s + [HighByte(crc)]) + [LowByte(crc)];
    OwnBytesClearRegister(crc);
  }

  // ----- Known values -----

  lemma OneLetter(b: bv8)
    ensures HashName([b]) == ByteStep(0xFFFF, b)
  {
    HashAppend([], b);
    hide ByteStep;
    assert [b][..1] == [] + [b];
  }

  /** The ids the repository's own tasks "A", "B", "C" and "D" are expected to have. */
  lemma KnownIds()
    ensures HashName([0x41]) == 0xB915 && HashName([0x42]) == 0x8976
    ensures HashName([0x43]) == 0x9957 && HashName([0x44]) == 0xE9B0
  {
    OneLetter(0x41);
    OneLetter(0x42);
    OneLetter(0x43);
    OneLetter(0x44);
    hide HashName;
  }
}
