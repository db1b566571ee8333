/** The remainders of the powers of x: none of the first 2048 comes back to 1. */
module PowersOfX {
  import opened ProbeIdHash

  /** The register after `n` bit steps from 1: the remainder of x^n. */
  function PowerOfX(n: nat): bv16 {
    if n == 0 then 1 else BitStep(PowerOfX(n - 1))
  }

  /** The last assignment of the hash loop, with its `x` as wide as the register. */
  function WideShuffle(w: bv16, x: bv16): bv16 {
    (w << 8) ^ (x << 12) ^ (x << 5) ^ x
  }

  /** Eight bit steps at once, on the register alone. */
  function Jump(w: bv16): bv16 {
    WideShuffle(w, (w >> 8) ^ (w >> 12))
  }

  /** None of the next seven bit steps reaches 1, nor is `w` itself 1. */
  predicate Clear(w: bv16) {
    && w != 0x0001 && w != 0x8810 && w != 0x4408 && w != 0x2204
    && w != 0x1102 && w != 0x0881 && w != 0x8C50 && w != 0x4628
  }

  lemma FoldedIndex(w: bv16)
    ensures Fold(Index(w, 0)) as bv16 == (w >> 8) ^ (w >> 12)
  {
  }

  lemma ShuffleIsWide(w: bv16, x: bv8, y: bv16)
    requires x as bv16 == y
    ensures Shuffle(w, x) == WideShuffle(w, y)
  {
  }

  lemma JumpIsByteStep(w: bv16)
    ensures Jump(w) == ByteStep(w, 0)
  {
    FoldedIndex(w);
    hide Fold, Index, Shuffle, WideShuffle;
    ShuffleIsWide(w, Fold(Index(w, 0)), (w >> 8) ^ (w >> 12));
  }

  lemma XorZero(w: bv16)
    ensures Xor(w, (0 as bv8 as bv16) << 8) == w
  {
  }

  lemma JumpIsEightSteps(w: bv16)
    ensures Jump(w) == EightBitSteps(w)
  {
    hide Jump, ByteStep, EightBitSteps, Xor;
    JumpIsByteStep(w);
    ByteStepIsEightBitSteps(w, 0);
    XorZero(w);
  }

  /** The registers from which bit steps lead to 1. */
  lemma StepsBack(w: bv16)
    ensures BitStep(w) == 0x0001 ==> w == 0x8810
    ensures BitStep(w) == 0x8810 ==> w == 0x4408
    ensures BitStep(w) == 0x4408 ==> w == 0x2204
    ensures BitStep(w) == 0x2204 ==> w == 0x1102
    ensures BitStep(w) == 0x1102 ==> w == 0x0881
    ensures BitStep(w) == 0x0881 ==> w == 0x8C50
    ensures BitStep(w) == 0x8C50 ==> w == 0x4628
  {
  }

  /** No power from `from` on, and below `to`, leaves the remainder 1. */
  ghost predicate NoOne(from: nat, to: nat) {
    forall n: nat :: from <= n < to ==> PowerOfX(n) != 1
  }

  lemma ClearSteps(w: bv16)
    requires Clear(w)
    ensures w != 1 && BitStep(w) != 1 && BitStep(BitStep(w)) != 1 && BitStep(BitStep(BitStep(w))) != 1
    ensures var v := BitStep(BitStep(BitStep(BitStep(w))));
            v != 1 && BitStep(v) != 1 && BitStep(BitStep(v)) != 1 && BitStep(BitStep(BitStep(v))) != 1
  {
    hide BitStep;
    var w1 := BitStep(w);
    var w2 := BitStep(w1);
    var w3 := BitStep(w2);
    var w4 := BitStep(w3);
    var w5 := BitStep(w4);
    var w6 := BitStep(w5);
    StepsBack(w);
    StepsBack(w1);
    StepsBack(w2);
    StepsBack(w3);
    StepsBack(w4);
    StepsBack(w5);
    StepsBack(w6);
  }

  lemma PowerStep(n: nat)
    ensures PowerOfX(n + 1) == BitStep(PowerOfX(n))
  {
    hide BitStep;
  }

  lemma ClearPowers(n: nat, w: bv16)
    requires w == PowerOfX(n) && Clear(w)
    ensures Jump(w) == PowerOfX(n + 8) && NoOne(n, n + 8)
  {
    JumpIsEightSteps(w);
    ClearSteps(w);
    hide BitStep, Jump, Clear, PowerOfX;
    PowerStep(n);
    PowerStep(n + 1);
    PowerStep(n + 2);
    PowerStep(n + 3);
    PowerStep(n + 4);
    PowerStep(n + 5);
    PowerStep(n + 6);
    PowerStep(n + 7);
    forall i: nat | n <= i < n + 8
      ensures PowerOfX(i) != 1
    {
      assert i == n || i == n + 1 || i == n + 2 || i == n + 3 || i == n + 4 || i == n + 5 || i == n + 6 || i == n + 7;
    }
  }

  /** The next 128 powers leave remainders other than 1, and then comes `v`. */
  predicate ClearUpTo(w: bv16, v: bv16) {
    var w1 := Jump(w); var w2 := Jump(w1); var w3 := Jump(w2); var w4 := Jump(w3);
    var w5 := Jump(w4); var w6 := Jump(w5); var w7 := Jump(w6); var w8 := Jump(w7);
    var w9 := Jump(w8); var w10 := Jump(w9); var w11 := Jump(w10); var w12 := Jump(w11);
    var w13 := Jump(w12); var w14 := Jump(w13); var w15 := Jump(w14);
    && Clear(w) && Clear(w1) && Clear(w2) && Clear(w3) && Clear(w4) && Clear(w5) && Clear(w6) && Clear(w7)
    && Clear(w8) && Clear(w9) && Clear(w10) && Clear(w11) && Clear(w12) && Clear(w13) && Clear(w14) && Clear(w15)
    && Jump(w15) == v
  }

  /** `k` jumps. */
  function Jumps(w: bv16, k: nat): bv16 {
    if k == 0 then w else Jump(Jumps(w, k - 1))
  }

  lemma {:induction false} JumpsPowers(n: nat, w: bv16, k: nat)
    requires w == PowerOfX(n) && forall i: nat :: i < k ==> Clear(Jumps(w, i))
    ensures Jumps(w, k) == PowerOfX(n + 8 * k) && NoOne(n, n + 8 * k)
  {
    hide PowerOfX, Clear, Jump;
    if k > 0 {
      JumpsPowers(n, w, k - 1);
      ClearPowers(n + 8 * (k - 1), Jumps(w, k - 1));
    }
  }

  lemma SixteenJumps(w: bv16, v: bv16)
    requires ClearUpTo(w, v)
    ensures Jumps(w, 16) == v && forall i: nat :: i < 16 ==> Clear(Jumps(w, i))
  {
    hide Clear, Jump;
    assert Jumps(w, 1) == Jump(Jumps(w, 0)) && Jumps(w, 2) == Jump(Jumps(w, 1)) && Jumps(w, 3) == Jump(Jumps(w, 2));
    assert Jumps(w, 4) == Jump(Jumps(w, 3)) && Jumps(w, 5) == Jump(Jumps(w, 4)) && Jumps(w, 6) == Jump(Jumps(w, 5));
    assert Jumps(w, 7) == Jump(Jumps(w, 6)) && Jumps(w, 8) == Jump(Jumps(w, 7)) && Jumps(w, 9) == Jump(Jumps(w, 8));
    assert Jumps(w, 10) == Jump(Jumps(w, 9)) && Jumps(w, 11) == Jump(Jumps(w, 10));
    assert Jumps(w, 12) == Jump(Jumps(w, 11)) && Jumps(w, 13) == Jump(Jumps(w, 12));
    assert Jumps(w, 14) == Jump(Jumps(w, 13)) && Jumps(w, 15) == Jump(Jumps(w, 14));
    assert Jumps(w, 16) == Jump(Jumps(w, 15));
    hide Jumps;
    forall i: nat | i < 16
      ensures Clear(Jumps(w, i))
    {
      assert i == 0 || i == 1 || i == 2 || i == 3 || i == 4 || i == 5 || i == 6 || i == 7 || i == 8 || i == 9 || i == 10
             || i == 11 || i == 12 || i == 13 || i == 14 || i == 15;
    }
  }

  lemma ClearUpToPowers(n: nat, w: bv16, v: bv16)
    requires w == PowerOfX(n) && ClearUpTo(w, v)
    ensures v == PowerOfX(n + 128) && NoOne(n, n + 128)
  {
    hide ClearUpTo, PowerOfX, Jumps, Clear;
    SixteenJumps(w, v);
    JumpsPowers(n, w, 16);
  }

  lemma Clear512()
    ensures ClearUpTo(0x0002, 0x4DD9) && ClearUpTo(0x4DD9, 0x0C73) && ClearUpTo(0x0C73, 0x8BE5)
    ensures ClearUpTo(0x8BE5, 0x27F8)
  {
  }

  lemma Clear1024()
    ensures ClearUpTo(0x27F8, 0xA44B) && ClearUpTo(0xA44B, 0x20DE) && ClearUpTo(0x20DE, 0x87AB)
    ensures ClearUpTo(0x87AB, 0x6D88)
  {
  }

  lemma Clear1536()
    ensures ClearUpTo(0x6D88, 0x8018) && ClearUpTo(0x8018, 0x61BE) && ClearUpTo(0x61BE, 0x14BA)
    ensures ClearUpTo(0x14BA, 0x4EC8)
  {
  }

  lemma Clear2048()
    ensures ClearUpTo(0x4EC8, 0x0448) && ClearUpTo(0x0448, 0x8D9E) && ClearUpTo(0x8D9E, 0xDAB4)
    ensures ClearUpTo(0xDAB4, 0xEA81)
  {
  }

  lemma FourChunks(n: nat, a: bv16, b: bv16, c: bv16, d: bv16, e: bv16)
    requires a == PowerOfX(n) && ClearUpTo(a, b) && ClearUpTo(b, c) && ClearUpTo(c, d) && ClearUpTo(d, e)
    ensures e == PowerOfX(n + 512) && NoOne(n, n + 512)
  {
    hide ClearUpTo, PowerOfX;
    ClearUpToPowers(n, a, b);
    ClearUpToPowers(n + 128, b, c);
    ClearUpToPowers(n + 256, c, d);
    ClearUpToPowers(n + 384, d, e);
  }

  /** x^n leaves the remainder 1 for no n from 1 to 2048: no two bits of a name of 255 bytes are that far apart. */
  lemma NoShortOrder(n: nat)
    requires 1 <= n <= 2048
    ensures PowerOfX(n) != 1
  {
    assert PowerOfX(1) == 2;
    hide ClearUpTo, PowerOfX;
    Clear512();
    FourChunks(1, 0x0002, 0x4DD9, 0x0C73, 0x8BE5, 0x27F8);
    Clear1024();
    FourChunks(513, 0x27F8, 0xA44B, 0x20DE, 0x87AB, 0x6D88);
    Clear1536();
    FourChunks(1025, 0x6D88, 0x8018, 0x61BE, 0x14BA, 0x4EC8);
    Clear2048();
    FourChunks(1537, 0x4EC8, 0x0448, 0x8D9E, 0xDAB4, 0xEA81);
  }
}
