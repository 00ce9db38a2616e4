/** Loading the profile store at power-on: the two header bytes give the payload
    length, the payload is copied byte by byte from EEPROM into a 1000-byte buffer,
    and a prefix of that buffer is handed to the decoder. The decoder itself is a
    foreign codec and is a parameter here. */
module Boot {
  import opened Types
  import opened Store

  /** The EEPROM of the ATmega328: 1024 bytes, selected by the low 10 bits of
      the address register pair EEARH:EEARL. */
  const EEPROM_SIZE := 1024
  /** The length of the stack buffer the payload is copied into. */
  const BUFFER_SIZE := 1000
  /** The first buffer index the copy loop fills. */
  const PAYLOAD_START := 3

  /** `num_bytes`: the byte read from address 0 is `low_byte` and the one from
      address 1 is `high_byte`, but they are passed to `u16::from_le_bytes` as
      `[high_byte, low_byte]`, so address 0 supplies the HIGH half. Three is added;
      the result must fit in a u16. */
  function PayloadEnd(lowByte: u8, highByte: u8): int {
    highByte + 256 * lowByte + 3
  }

  /** The address latched for loop index `addr`: `addr.to_le_bytes()` gives
      `[low, high]`, and the low byte is written to EEARH and the high byte to
      EEARL, so the two halves of the address are swapped. */
  function LatchedAddress(addr: u16): u16 {
    (addr % 256) * 256 + addr / 256
  }

  /** One EEPROM read at the latched address; the device ignores EEAR bits 10
      to 15. */
  function ReadAt(eeprom: seq<u8>, latched: u16): u8
    requires |eeprom| == EEPROM_SIZE
  {
    eeprom[latched % EEPROM_SIZE]
  }

  /** The slice the decoder receives when the payload end is `n`: buffer
      positions 0 to n - 4. Positions 0 to 2 are never written by the loop and
      keep their initial zero; every later position holds the byte read for that
      loop index. */
  function DecoderInput(eeprom: seq<u8>, n: nat): seq<u8>
    requires |eeprom| == EEPROM_SIZE && PAYLOAD_START <= n <= BUFFER_SIZE
  {
    seq(n - PAYLOAD_START, k requires 0 <= k < n - PAYLOAD_START =>
      if k < PAYLOAD_START then 0 else ReadAt(eeprom, LatchedAddress(k)))
  }

  /** The header read and the copy loop. A header whose length overflows u16
      panics before the loop; a payload end past the buffer panics when the loop
      reaches index 1000; otherwise the result is exactly `DecoderInput`. */
  method LoadPayload(eeprom: seq<u8>) returns (r: Result<seq<u8>>)
    requires |eeprom| == EEPROM_SIZE
    ensures var n := PayloadEnd(eeprom[0], eeprom[1]);
      (n > U16_MAX ==> r == Panic(LengthOverflow)) &&
      (U16_MAX >= n > BUFFER_SIZE ==> r == Panic(BufferIndexOutOfBounds)) &&
      (n <= BUFFER_SIZE ==> r == Ok(DecoderInput(eeprom, n)))
  {
    // EEARH and EEARL both 0, then EEARL set to 1.
    var lowByte := ReadAt(eeprom, 0);
    var highByte := ReadAt(eeprom, 1);
    if highByte + 256 * lowByte + 3 > U16_MAX {
      return Panic(LengthOverflow);
    }
    var numBytes: u16 := highByte + 256 * lowByte + 3;
    var data := new u8[BUFFER_SIZE](_ => 0);
    var addr: u16 := PAYLOAD_START;
    while addr < numBytes
      invariant PAYLOAD_START <= addr <= numBytes && addr <= BUFFER_SIZE
      invariant forall k | 0 <= k < PAYLOAD_START :: data[k] == 0
      invariant forall k | PAYLOAD_START <= k < addr :: data[k] == ReadAt(eeprom, LatchedAddress(k))
    {
      if addr >= BUFFER_SIZE {
        return Panic(BufferIndexOutOfBounds);
      }
      data[addr] := ReadAt(eeprom, LatchedAddress(addr));
      addr := addr + 1;
    }
    r := Ok(data[0..numBytes - PAYLOAD_START]);
    assert r.value == DecoderInput(eeprom, numBytes);
  }

  /** The whole boot step: a failed decode is an `unwrap` panic, so the store is
      either the decoder's value for `DecoderInput` or the boot panics. */
  method LoadProfiles(eeprom: seq<u8>, decode: seq<u8> -> Option<Profiles>) returns (r: Result<Profiles>)
    requires |eeprom| == EEPROM_SIZE
    ensures var n := PayloadEnd(eeprom[0], eeprom[1]);
      (n > BUFFER_SIZE ==> r.Panic? && r.fault != DecodeFailed) &&
      (n <= BUFFER_SIZE ==> match decode(DecoderInput(eeprom, n))
                            case Some(ps) => r == Ok(ps)
                            case None => r == Panic(DecodeFailed))
  {
    var payload := LoadPayload(eeprom);
    match payload
    case Panic(f) =>
      r := Panic(f);
    case Ok(bytes) =>
      match decode(bytes)
      case Some(ps) => r := Ok(ps);
      case None => r := Panic(DecodeFailed);
  }

  /** Header arithmetic: the payload end overflows u16 exactly when address 0
      holds 255 and address 1 holds 253 or more; it fits the buffer exactly when
      the big-endian 16-bit value at addresses 0 and 1 is at most 997. */
  lemma {:induction false} HeaderBounds(lowByte: u8, highByte: u8)
    ensures PayloadEnd(lowByte, highByte) > U16_MAX <==> lowByte == 255 && highByte >= 253
    ensures PayloadEnd(lowByte, highByte) <= BUFFER_SIZE <==> lowByte * 256 + highByte <= 997
  {
  }

  /** The latched address swaps the two bytes of the loop index, so latching twice
      gives the index back. */
  lemma {:induction false} LatchSwapsBytes(addr: u16)
    ensures LatchedAddress(addr) / 256 == addr % 256
    ensures LatchedAddress(addr) % 256 == addr / 256
    ensures LatchedAddress(LatchedAddress(addr)) == addr
  {
  }

  /** With only 10 address bits decoded, every buffer index below 1000 reads the
      cell (index mod 4) * 256 + index / 256: the whole payload comes from the
      sixteen cells whose address has both a row and a column below 4. */
  lemma {:induction false} CopiedCells(addr: u16)
    requires addr < BUFFER_SIZE
    ensures LatchedAddress(addr) % EEPROM_SIZE == (addr % 4) * 256 + addr / 256
    ensures (LatchedAddress(addr) % EEPROM_SIZE) / 256 < 4 && (LatchedAddress(addr) % EEPROM_SIZE) % 256 < 4
  {
    var lo, hi := addr % 256, addr / 256;
    var q, r := lo / 4, lo % 4;
    assert hi < 4;
    assert addr == 4 * (64 * hi + q) + r;
    assert addr % 4 == r;
    assert LatchedAddress(addr) == EEPROM_SIZE * q + (r * 256 + hi);
    assert LatchedAddress(addr) % EEPROM_SIZE == r * 256 + hi;
  }

  /** The decoder input starts with three zero bytes and is three bytes shorter
      than the copied range: the bytes copied for the last three loop indices are
      never handed to the decoder. */
  lemma {:induction false} DecoderInputShape(eeprom: seq<u8>, n: nat)
    requires |eeprom| == EEPROM_SIZE && PAYLOAD_START <= n <= BUFFER_SIZE
    ensures |DecoderInput(eeprom, n)| == n - PAYLOAD_START
    ensures forall k | 0 <= k < PAYLOAD_START && k < n - PAYLOAD_START :: DecoderInput(eeprom, n)[k] == 0
  {
  }
}
