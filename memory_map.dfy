/**
 * The flat memory of src/cpu/memory_map.rs: an array of 0xFFFF bytes (so the
 * valid addresses are 0x0000 to 0xFFFE), with byte accessors and little-endian
 * 16-bit accessors built from two byte accesses.
 */
module MemMap {
  import opened Num
  import Memory

  /** The length of `[u8; 0xFFFF]`. */
  const MEMORY_SIZE: nat := 0xFFFF

  /** A byte access at `loc` indexes the array inside its bounds. */
  predicate ByteInBounds(loc: u16)
  {
    loc as int < MEMORY_SIZE
  }

  /** A 16-bit access at `loc` touches `loc` and `loc + 1`, both inside the array. */
  predicate WordInBounds(loc: u16)
  {
    loc as int + 1 < MEMORY_SIZE
  }

  class MemoryMap {
    var memory: array<u8>

    ghost predicate Valid()
      reads this
    {
      memory.Length == MEMORY_SIZE
    }

    /** `MemoryMap::new`: 0xFFFF cells, all zero. */
    constructor ()
      ensures Valid() && fresh(memory)
      ensures forall i :: 0 <= i < memory.Length ==> memory[i] == 0
    {
      memory := new u8[MEMORY_SIZE](_ => 0);
    }

    /** `read_mem_u8`: the cell at `loc`. */
    function ReadMemU8(loc: u16): (data: u8)
      reads this, memory
      requires Valid() && ByteInBounds(loc)
      ensures data == memory[loc as int]
    {
      memory[loc as int]
    }

    /** `read_mem_u16`: the cell at `loc` is the low byte, the cell after it the high byte. */
    function ReadMemU16(loc: u16): (data: u16)
      reads this, memory
      requires Valid() && WordInBounds(loc)
      ensures data as int == memory[loc as int] as int + 0x100 * memory[loc as int + 1] as int
    {
      var lo := ReadMemU8(loc);
      var hi := ReadMemU8(loc + 1);
      Memory.Word(lo, hi)
    }

    /** `write_mem_u8`: cell `loc` becomes `data`; no other cell changes. */
    method WriteMemU8(loc: u16, data: u8)
      requires Valid() && ByteInBounds(loc)
      modifies memory
      ensures Valid()
      ensures memory[..] == old(memory[..])[loc as int := data]
      ensures ReadMemU8(loc) == data
    {
      memory[loc as int] := data;
    }

    /**
     * `write_mem_u16`: the low byte goes to `loc`, then the high byte to
     * `loc + 1`; no other cell changes, and ReadMemU16 gives `data` back.
     */
    method WriteMemU16(loc: u16, data: u16)
      requires Valid() && WordInBounds(loc)
      modifies memory
      ensures Valid()
      ensures memory[..] == old(memory[..])[loc as int := Memory.Low(data)][loc as int + 1 := Memory.High(data)]
      ensures ReadMemU16(loc) == data
    {
      var hi := Memory.High(data);
      var lo := Memory.Low(data);
      WriteMemU8(loc, lo);
      WriteMemU8(loc + 1, hi);
    }
  }

  /** The test `read_write_u8` of memory_map.rs. */
  method ReadWriteU8Example() returns (read: u8)
    ensures read == 2
  {
    var memMap := new MemoryMap();
    memMap.WriteMemU8(0x0000, 2);
    read := memMap.ReadMemU8(0x0000);
  }

  /** The test `read_write_u16` of memory_map.rs. */
  method ReadWriteU16Example() returns (read: u16)
    ensures read == 65533
  {
    var memMap := new MemoryMap();
    memMap.WriteMemU16(0xF000, 65533);
    read := memMap.ReadMemU16(0xF000);
  }
}
