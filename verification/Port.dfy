/** The port layer's packing of a task's probe id and filter into its task number. */
module Port {

  /** The probe id: the lower half of the word. */
  function ReadLower16(word: bv32): bv16 {
    (word & 0x0000FFFF) as bv16
  }

  /** The event filter: the upper half of the word. */
  function ReadUpper16(word: bv32): bv16 {
    ((word >> 16) & 0x0000FFFF) as bv16
  }

  function WriteLower16(word: bv32, half: bv16): bv32 {
    (word & 0xFFFF0000) | (half as bv32)
  }

  function WriteUpper16(word: bv32, half: bv16): bv32 {
    (word & 0x0000FFFF) | ((half as bv32) << 16)
  }

  /** Writing one half is read back, and leaves the other half alone. */
  lemma WriteKeepsOtherHalf(word: bv32, half: bv16)
    ensures ReadLower16(WriteLower16(word, half)) == half
    ensures ReadUpper16(WriteLower16(word, half)) == ReadUpper16(word)
    ensures ReadUpper16(WriteUpper16(word, half)) == half
    ensures ReadLower16(WriteUpper16(word, half)) == ReadLower16(word)
  {
  }

  /** The two halves are the whole word. */
  lemma HalvesDetermineWord(word: bv32, other: bv32)
    ensures word == other <==> ReadLower16(word) == ReadLower16(other) && ReadUpper16(word) == ReadUpper16(other)
    ensures WriteUpper16(WriteLower16(other, ReadLower16(word)), ReadUpper16(word)) == word
  {
  }
}
