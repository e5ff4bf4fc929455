/**
 * The `Mem` capability of src/cpu/memory.rs: two byte accessors supplied by an
 * implementor, and the default little-endian 16-bit accessors built on them.
 *
 * The implementor is left abstract: its state is a type parameter `S`, its
 * `read_mem_u8(&self, ..)` is a function of that state and its
 * `write_mem_u8(&mut self, ..)` returns the updated state.
 */
module Memory {
  import opened Num

  /** `(hi << 8) | lo`: the word whose low byte is `lo` and high byte is `hi`. */
  function Word(lo: u8, hi: u8): (w: u16)
    ensures w as int % 0x100 == lo as int && w as int / 0x100 == hi as int
  {
    (hi as int * 0x100 + lo as int) as u16
  }

  /** `(data & 0xff) as u8`. */
  function Low(w: u16): (lo: u8)
  {
    (w % 0x100) as u8
  }

  /** `(data >> 8) as u8`. */
  function High(w: u16): (hi: u8)
  {
    (w / 0x100) as u8
  }

  /** Splitting a word into its bytes and joining them again gives it back, and the converse. */
  lemma WordSplitJoin(w: u16, lo: u8, hi: u8)
    ensures Word(Low(w), High(w)) == w
    ensures Low(Word(lo, hi)) == lo && High(Word(lo, hi)) == hi
  {
  }

  /**
   * The default `read_mem_u16(pos)`: the byte at `pos` is the low byte and
   * the byte at `pos + 1` the high byte. `pos + 1` is an unchecked u16
   * addition, so `pos` must be below 0xFFFF.
   */
  function ReadU16<S>(read8: (S, u16) -> u8, s: S, pos: u16): (w: u16)
    requires pos < 0xFFFF
    ensures Low(w) == read8(s, pos) && High(w) == read8(s, pos + 1)
  {
    var lo := read8(s, pos);
    var hi := read8(s, pos + 1);
    Word(lo, hi)
  }

  /**
   * The default `write_mem_u16(pos, data)`: writes the low byte at `pos`,
   * then the high byte at `pos + 1`. Same bound on `pos` as ReadU16.
   */
  function WriteU16<S>(write8: (S, u16, u8) -> S, s: S, pos: u16, data: u16): (t: S)
    requires pos < 0xFFFF
  {
    var hi := High(data);
    var lo := Low(data);
    var afterLo := write8(s, pos, lo);
    write8(afterLo, pos + 1, hi)
  }

  /** One call of an implementor's `write_mem_u8`. */
  datatype ByteWrite = ByteWrite(addr: u16, data: u8)

  /** An implementor that only records the byte writes it receives, in order. */
  function Record(log: seq<ByteWrite>, addr: u16, data: u8): (r: seq<ByteWrite>)
  {
    log + [ByteWrite(addr, data)]
  }

  /** The default write_mem_u16 issues exactly two byte writes, the low byte at `pos` first. */
  lemma WriteU16IssuesTwoWrites(pos: u16, data: u16)
    requires pos < 0xFFFF
    ensures WriteU16(Record, [], pos, data) == [ByteWrite(pos, Low(data)), ByteWrite(pos + 1, High(data))]
  {
  }

  /** The implementor's byte accessors behave as a store: a read sees the last write to the same address. */
  ghost predicate IsStore<S(!new)>(read8: (S, u16) -> u8, write8: (S, u16, u8) -> S)
  {
    && (forall s, a, d :: read8(write8(s, a, d), a) == d)
    && (forall s, a, b, d :: a != b ==> read8(write8(s, a, d), b) == read8(s, b))
  }

  /**
   * For any implementor whose byte accessors behave as a store, the default
   * 16-bit accessors round-trip and leave every other address alone.
   */
  lemma WriteU16ThenReadU16<S(!new)>(read8: (S, u16) -> u8, write8: (S, u16, u8) -> S, s: S, pos: u16, data: u16)
    requires IsStore(read8, write8)
    requires pos < 0xFFFF
    ensures ReadU16(read8, WriteU16(write8, s, pos, data), pos) == data
    ensures forall a :: a != pos && a != pos + 1 ==> read8(WriteU16(write8, s, pos, data), a) == read8(s, a)
  {
    var afterLo := write8(s, pos, Low(data));
    var t := WriteU16(write8, s, pos, data);
    assert read8(t, pos + 1) == High(data);
    assert read8(t, pos) == read8(afterLo, pos) == Low(data);
    WordSplitJoin(data, 0, 0);
  }
}
