/** The thermocouple reading: the two bytes received over SPI become one 16-bit
    word, and the reading is a bit field of that word. The chip-select toggling,
    the delay and the SPI transfers themselves are hardware I/O and are not part of
    this model; the two received bytes are the inputs. */
module Thermocouple {

  /** The mask applied to the received word: bit 15 and bits 0 to 2 are dropped. */
  const MASK: bv16 := 0x7FF8

  /** `u16::from_le_bytes([a, b])`: the first byte received is the low byte. */
  function Word(first: bv8, second: bv8): bv16 {
    ((second as bv16) << 8) | (first as bv16)
  }

  /** The reading: mask the word, shift it right by 3, then by 2 more. The
      result is the 10-bit field of bits 5 to 14. */
  function Reading(first: bv8, second: bv8): (r: bv16)
    ensures r <= 1023
    ensures r == (Word(first, second) & MASK) >> 5
  {
    var c := Word(first, second) & MASK;
    var c3 := c >> 3;
    c3 >> 2
  }

  /** The first byte lands in the low half of the word and the second in the high
      half. */
  lemma ByteOrder(first: bv8, second: bv8)
    ensures Word(first, second) & 0xFF == first as bv16
    ensures Word(first, second) >> 8 == second as bv16
  {
  }

  /** Two words that agree after masking give the same reading. */
  lemma MaskedBitsOnly(a: bv8, b: bv8, a': bv8, b': bv8)
    requires Word(a, b) & MASK == Word(a', b') & MASK
    ensures Reading(a, b) == Reading(a', b')
  {
  }

  /** Changing bits 0 to 2 of the word (the low three bits of the first byte) or
      bit 15 (the top bit of the second byte) never changes the reading. */
  lemma IgnoredBits(first: bv8, second: bv8, low: bv8)
    requires low & 0x07 == low
    ensures Reading(first ^ low, second) == Reading(first, second)
    ensures Reading(first, second ^ 0x80) == Reading(first, second)
  {
  }

  /** A larger masked word never gives a smaller reading. */
  lemma Monotone(a: bv8, b: bv8, a': bv8, b': bv8)
    requires Word(a, b) & MASK <= Word(a', b') & MASK
    ensures Reading(a, b) <= Reading(a', b')
  {
  }
}
