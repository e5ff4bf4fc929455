# 6502/NES emulator leaf components, in Dafny

This project models the six leaf components of a 6502 (NES) CPU emulator written in Rust, and proves properties of them:

- **Processor status** (`processor_status.dfy`, module `Status`). The status register is a byte. It is set, cleared and tested through named single-bit masks. The class `ProcessorStatus` holds the byte and updates it in place. The pure functions `Set`, `Clear` and `IsSet` specify those updates.
  - The masks are the code's own: Overflow is bit 5 (0x20) and Negative is bit 6 (0x40). The 6502's documented layout puts them at bits 6 and 7. The model follows the code.
  - `toggle_flag` clears the bit, exactly like `set_flag_false`. It never sets a bit, and the model keeps that.
- **The `Mem` capability** (`memory.dfy`, module `Memory`). An implementor supplies two byte accessors. The default 16-bit read and write are built from them, little-endian.
- **Flat memory map** (`memory_map.dfy`, module `MemMap`). The class `MemoryMap` wraps an array of 0xFFFF bytes (addresses 0x0000 to 0xFFFE). It has byte accessors and little-endian 16-bit accessors. An address outside the array panics in the source. Here that is a precondition.
- **CPU registers and operand-address resolution** (`cpu.dfy`, module `Cpu`). `CPU::new` and `get_operand_address` are modelled for every addressing mode. The model covers 8-bit wrapping for the zero-page indexed modes and 16-bit wrapping for the absolute indexed modes. The pointer fetch for IndirectX and IndirectY stays inside the zero page.
- **Opcode table** (`opcodes.dfy`, module `Opcodes`). `CPU_OPCODES` is the constant table. `OPCODES_MAP` is the map a loop builds from it, keyed by opcode byte, where a later insert overwrites an earlier one.
- **iNES 1.0 header parser** (`rom.dfy`, module `Cartridge`). `Rom::new` checks the tag and rejects NES 2.0 headers. It extracts the mapper and the mirroring mode, and slices out the PRG and CHR blocks. The test helper `create_rom` concatenates header, trainer, PRG and CHR. The lemma `NewOfCreatedRom` proves that `Rom::new` takes such an image apart again.

`num.dfy` defines Rust's `u8`/`u16` as integer newtypes, together with `wrapping_add`. `wrappers.dfy` defines `Option` and `Result`.

Modelling choices:
- Bytes and words are integers in range. The source's shifts and masks are written as the arithmetic they amount to: `hi << 8 | lo` is `hi * 256 + lo`, `b >> 4` is `b / 16`, and a bit test is a division and a remainder. The flag register works purely by masks, so it stays a `bv8`.
- `Mem`'s implementor is abstract. Its state is a type parameter `S`. `read_mem_u8(&self, ..)` is a function of that state, and `write_mem_u8(&mut self, ..)` returns the new state. The order of the two writes of `write_mem_u16` is the order of composition. An implementor that only logs its writes (`Memory.Record`) shows the exact sequence of calls.
- `get_operand_address` takes `&self`. It is a pure function of a `CPU` value, so it cannot change a register or a memory cell, and it does not advance the program counter. The `CPU` value's `memory` field holds the cells of its `MemoryMap`. Its `processor_status` field holds the byte its `ProcessorStatus` wraps.
- The opcode table uses `NoneAddressing`, which `AddressingMode` in `cpu.rs` lacks, so it is added to the enum. `get_operand_address` has no arm for it. The model therefore requires a mode other than `NoneAddressing` (`Cpu.OperandReadable`).
- Every panic of the source becomes a precondition: an array index out of bounds, the unchecked `pos + 1` on a `u16` (it panics in debug builds; a release build would wrap it to 0), and slicing past the end of the image (`Cartridge.NoPanic`). The two error returns of `Rom::new` are `Failure` values carrying the source's messages.

## Model

| member | source | states |
|---|---|---|
| `Status.Mask` | src/cpu/processor_status.rs:6-34 | Default is 0. Every other flag is exactly one bit, and bit 7 is never used. |
| `Status.MasksDisjoint` | src/cpu/processor_status.rs:12-33 | Two different flags share no bit. |
| `Status.IsSet` | src/cpu/processor_status.rs:57-61 | `has_flag_set` (the class's `HasFlagSet` delegates to it) holds iff the flag's bit is 1, so it never holds for Default. |
| `Status.Set` | src/cpu/processor_status.rs:42-45 | After `set_flag_true(f)`, `f` tests set (unless it is Default). Every bit outside `f`'s mask is unchanged, and so is every other flag's test. |
| `Status.Clear` | src/cpu/processor_status.rs:47-50 | After `set_flag_false(f)`, `f` tests clear. Every bit outside `f`'s mask is unchanged, and so is every other flag's test. |
| `Status.SetClearIdempotent` | src/cpu/processor_status.rs:42-50 | Setting a flag twice equals setting it once. The same holds for clearing. |
| `Status.ClearUndoesSet` | src/cpu/processor_status.rs:42-50 | Set then clear restores the byte iff the flag was clear before. |
| `Status.ProcessorStatus.constructor` | src/cpu/processor_status.rs:37 | `ProcessorStatus(bits)` wraps exactly `bits`. |
| `Status.ProcessorStatus.SetFlagTrue` | src/cpu/processor_status.rs:42-45 | The new byte is `Set(old byte, f)`. `f` tests set, and every other flag tests as before. |
| `Status.ProcessorStatus.SetFlagFalse` | src/cpu/processor_status.rs:47-50 | The new byte is `Clear(old byte, f)`. `f` tests clear, and every other flag tests as before. |
| `Status.ProcessorStatus.ToggleFlag` | src/cpu/processor_status.rs:52-55 | Same effect as SetFlagFalse. It clears `f` and never sets it: a flag that was clear is left unchanged. |
| `Status.FlagTests` | src/cpu/processor_status.rs:68-91 | The two unit tests: Carry and Decimal read set after being set, Decimal reads clear after being cleared, Break reads set after being set and clear after a toggle. |
| `Num.WrappingAdd8` | src/cpu/cpu.rs:95-96 | `u8::wrapping_add` is the sum modulo 256. |
| `Num.WrappingAdd16` | src/cpu/cpu.rs:98-99 | `u16::wrapping_add` is the sum modulo 65536. |
| `Memory.Word` | src/cpu/memory.rs:9 | `hi << 8` or-ed with `lo` has `lo` as its low byte and `hi` as its high byte. |
| `Memory.WordSplitJoin` | src/cpu/memory.rs:9-14 | Splitting a word into `hi` (`data >> 8`) and `lo` (`data & 0xff`) and joining them gives the word back, and joining then splitting gives the bytes back. |
| `Memory.ReadU16` | src/cpu/memory.rs:6-10 | The default 16-bit read takes its low byte from `pos` and its high byte from `pos + 1`. It needs `pos < 0xFFFF`. |
| `Memory.WriteU16IssuesTwoWrites` | src/cpu/memory.rs:12-17 | The default 16-bit write makes exactly two byte writes: the low byte at `pos` first, then the high byte at `pos + 1`. |
| `Memory.WriteU16ThenReadU16` | src/cpu/memory.rs:6-17 | Suppose the implementor's byte accessors behave as a store (a read returns the last write to that address). Then a 16-bit write followed by a 16-bit read at the same address returns the data, and every other address reads as before. |
| `MemMap.MemoryMap.constructor` | src/cpu/memory_map.rs:19-24 | `MemoryMap::new` has 0xFFFF cells, all zero. |
| `MemMap.MemoryMap.ReadMemU8` | src/cpu/memory_map.rs:26-28 | Returns the cell at `loc`. Requires `loc < 0xFFFF`, the array bound. |
| `MemMap.MemoryMap.ReadMemU16` | src/cpu/memory_map.rs:34-38 | Returns the little-endian value of cells `loc` and `loc + 1`. Requires `loc + 1 < 0xFFFF`. |
| `MemMap.MemoryMap.WriteMemU8` | src/cpu/memory_map.rs:30-32 | Only cell `loc` changes, and it becomes `data`. A read at `loc` then returns `data`. |
| `MemMap.MemoryMap.WriteMemU16` | src/cpu/memory_map.rs:40-45 | `data & 0xFF` goes to `loc` and `data >> 8` goes to `loc + 1`. Nothing else changes, and `ReadMemU16(loc)` returns `data`. |
| `MemMap.ReadWriteU8Example` | src/cpu/memory_map.rs:53-59 | The test `read_write_u8`: writing 2 at 0x0000 and reading it back gives 2. |
| `MemMap.ReadWriteU16Example` | src/cpu/memory_map.rs:61-67 | The test `read_write_u16`: writing 65533 at 0xF000 and reading it back gives 65533. |
| `Cpu.New` | src/cpu/cpu.rs:75-86 | Every register is 0, the status byte is 0 (so no flag is set), and all 0xFFFF memory cells are 0. |
| `Cpu.GetOperandAddress` | src/cpu/cpu.rs:90-116 | Immediate gives the program counter itself. ZeroPage gives `mem[pc]`, and ZeroPageX/Y give `(mem[pc] + X/Y) mod 256`, always below 0x100. Absolute gives the little-endian word at `pc`, and AbsoluteX/Y give that word plus X/Y modulo 65536. IndirectX reads the word at zero-page pointer `(mem[pc] + X) mod 256`, with its high byte at `(ptr + 1) mod 256`. IndirectY reads the word at zero-page pointer `mem[pc]` the same way and adds Y modulo 65536. |
| `Cpu.ZeroPageIndexedAddsIndex` | src/cpu/cpu.rs:94-96 | ZeroPageX/Y equal the ZeroPage address plus the index register, wrapping at 8 bits. |
| `Cpu.AbsoluteIndexedAddsIndex` | src/cpu/cpu.rs:97-99 | AbsoluteX/Y equal the Absolute address plus the index register, wrapping at 16 bits. |
| `Cpu.AbsoluteXCrossesPage` | src/cpu/cpu.rs:98 | When the base's low byte is 0xFF and X is non-zero, AbsoluteX carries into the next page. |
| `Cpu.IndirectPointerWrapsInZeroPage` | src/cpu/cpu.rs:100-114 | When the zero-page pointer is 0xFF, IndirectX and IndirectY take the high byte from 0x00, not from 0x100. |
| `Opcodes.Index` | src/cpu/opcodes.rs:58-64 | The map built from a table has exactly the table's codes as keys. Every key maps to a table entry whose `code` field is that key. |
| `Opcodes.BuildOpcodesMap` | src/cpu/opcodes.rs:58-64 | The insertion loop builds exactly `Index(table)`. |
| `Opcodes.IndexHoldsLastEntry` | src/cpu/opcodes.rs:60-62 | A code maps to the last table entry carrying that code: later inserts overwrite earlier ones. |
| `Opcodes.IndexSizeWhenDistinct` | src/cpu/opcodes.rs:58-64 | When no code repeats, the map has one key per table entry. |
| `Opcodes.CpuOpcodeCodes` | src/cpu/opcodes.rs:34-56 | The codes of the table, in order. |
| `Opcodes.CodeListDistinct` | src/cpu/opcodes.rs:35-55 | None of the 18 codes repeats. |
| `Opcodes.CpuOpcodesDistinct` | src/cpu/opcodes.rs:34-56 | No two entries of `CPU_OPCODES` share a code. |
| `Opcodes.OpcodesMapSize` | src/cpu/opcodes.rs:34-64 | `OPCODES_MAP` has exactly 18 entries. A byte is a key iff the table registers it, so any other byte is absent. |
| `Opcodes.OpcodesMapLookups` | src/cpu/opcodes.rs:35-55 | 0xA9 maps to LDA (2 bytes, 2 cycles, Immediate). 0x00 maps to BRK and 0xAA to TAX, both 1 byte with NoneAddressing. |
| `Opcodes.BytesFollowMode` | src/cpu/opcodes.rs:35-55 | Every entry's byte count follows its mode: 3 for the absolute modes, 2 for Immediate, zero-page and indirect modes, 1 for NoneAddressing. |
| `Opcodes.Mnemonics` | src/cpu/opcodes.rs:35-52 | Positions 0-7 of the table are LDA and positions 8-15 are ADC. |
| `Opcodes.FamilyModeOrder` | src/cpu/opcodes.rs:35-52 | Both families list the same eight modes in the same order: every operand mode except ZeroPageY. |
| `Opcodes.LdaFamily` | src/cpu/opcodes.rs:35-42 | LDA is {A9, A5, B5, AD, BD, B9, A1, B1}: eight entries with eight distinct modes, every operand mode except ZeroPageY. |
| `Opcodes.AdcFamily` | src/cpu/opcodes.rs:45-52 | ADC is {69, 65, 75, 6D, 7D, 79, 61, 71}: eight entries with eight distinct modes, every operand mode except ZeroPageY. |
| `Cartridge.Mapper` | src/cpu/rom.rs:43 | The mapper's high nibble is the high nibble of byte 7, and its low nibble is the high nibble of byte 6. |
| `Cartridge.INesVersion` | src/cpu/rom.rs:45 | The version field is bits 2-3 of byte 7, a value in 0..3. |
| `Cartridge.ScreenMirroring` | src/cpu/rom.rs:50-56 | FOUR_SCREEN iff bit 3 of byte 6 is set, whatever bit 0 says. Otherwise VERTICAL iff bit 0 is set, else HORIZONTAL. |
| `Cartridge.New` | src/cpu/rom.rs:38-75 | Fails with "File is not in iNES format" iff the first four bytes are not `4E 45 53 1A`. Fails with "NES2.0 format is not supported" iff the tag matches and bits 2-3 of byte 7 are non-zero. Otherwise it succeeds with: the mapper as above, the mirroring as above, PRG of `raw[4] * 16384` bytes sliced from the PRG start (byte 16, or 16 + 512 when bit 2 of byte 6 announces a trainer), and CHR of `raw[5] * 8192` bytes sliced right after PRG. Requires the bytes that the indexing and slicing touch to exist. |
| `Cartridge.CreateRom` | src/cpu/rom.rs:88-104 | The image is header, trainer (if present), PRG and CHR, in that order, with length the sum of the four. |
| `Cartridge.NewOfCreatedRom` | src/cpu/rom.rs:38-104 | Round trip: for a well-formed 16-byte header whose trainer and block sizes agree with it, `Rom::new` of the created image succeeds. It returns exactly the PRG and CHR blocks, the header's mapper and the header's mirroring. |
| `Cartridge.MakeTestRom` | src/cpu/rom.rs:106-117 | The fixture parses to PRG = 32768 bytes of 0x01, CHR = 8192 bytes of 0x02, mapper 3 and VERTICAL. |

## Left out

- `Rom::new_from_file` (src/cpu/rom.rs:29-36): file I/O. The `println!` at src/cpu/rom.rs:66: logging only.
- src/cpu/bus.rs: unfinished and not valid code. No address-mirroring rule is implemented there, so none is modelled.
- src/cpu.rs: an earlier `CPU` struct with only a zero constructor, superseded by src/cpu/cpu.rs.
- src/main.rs (logger and environment setup) and src/cpu/mod.rs (module declarations only).
- Instruction execution is not in these files, so it is not modelled. That covers the fetch/decode loop, arithmetic, branches, the stack, subroutine calls, the indirect JMP mode, the reset vector and interrupts.
- `OpCode::new` and `OpCode::to_string`: a constructor is a datatype value here, and the second only formats a string. The `lazy_static`/`HashMap` mechanics are reduced to a constant sequence and a Dafny `map`. `cycles` is carried as data only.
- `Mem` is not a Dafny trait. Its defaults are generic functions over the implementor's state, and its two abstract methods are function parameters. `MemoryMap` does not implement `Mem` in the source either. It has its own copies of the same 16-bit methods.
- The `CPU` value holds its memory as a sequence of the `MemoryMap` cells, not as a `MemoryMap` object. `get_operand_address` only reads it, so this loses nothing for the modelled operation. It does not model sharing that memory with another owner.
- `Memory.WriteU16`: carries no contract of its own. Its behaviour is stated by `Memory.WriteU16IssuesTwoWrites` and `Memory.WriteU16ThenReadU16`.
