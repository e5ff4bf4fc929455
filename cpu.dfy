/**
 * The register file and operand-address resolver of src/cpu/cpu.rs.
 *
 * `get_operand_address` takes `&self`: it is a function of the registers and
 * of the memory contents, and it changes neither (in particular it does not
 * advance the program counter). The CPU is therefore a value here; its
 * `memory` field holds the cells of its MemoryMap and its `processor_status`
 * field the byte wrapped by its ProcessorStatus.
 */
module Cpu {
  import opened Num
  import Memory
  import MemMap
  import Status

  /** `AddressingMode`, with the NoneAddressing member that the opcode table uses. */
  datatype AddressingMode =
    | Immediate
    | ZeroPage
    | ZeroPageX
    | ZeroPageY
    | Absolute
    | AbsoluteX
    | AbsoluteY
    | IndirectX
    | IndirectY
    | NoneAddressing

  datatype CPU = CPU(
    program_counter: u16,
    stack_pointer: u8,
    accumulator: u8,
    index_register_x: u8,
    index_register_y: u8,
    processor_status: bv8,
    memory: seq<u8>)
  {
    /** The memory is a full MemoryMap. */
    predicate Valid()
    {
      |memory| == MemMap.MEMORY_SIZE
    }

    /** The byte at `addr`, as an integer. */
    function At(addr: int): (b: int)
      requires Valid() && 0 <= addr < MemMap.MEMORY_SIZE
    {
      memory[addr] as int
    }
  }

  /** `CPU::new`. */
  function New(): (cpu: CPU)
    ensures cpu.Valid()
    ensures cpu.program_counter == 0 && cpu.stack_pointer == 0 && cpu.accumulator == 0
    ensures cpu.index_register_x == 0 && cpu.index_register_y == 0
    ensures cpu.processor_status == 0
    ensures forall f :: !Status.IsSet(cpu.processor_status, f)
    ensures forall i :: 0 <= i < |cpu.memory| ==> cpu.memory[i] == 0
  {
    CPU(
      program_counter := 0,
      stack_pointer := 0,
      accumulator := 0,
      index_register_x := 0,
      index_register_y := 0,
      processor_status := Status.Mask(Status.Default),
      memory := seq(MemMap.MEMORY_SIZE, _ => 0))
  }

  /**
   * The memory reads `get_operand_address` performs for `mode` stay inside the
   * MemoryMap: one byte at the program counter for the zero-page and indirect
   * modes, two for the absolute modes. The match has no arm for NoneAddressing.
   */
  predicate OperandReadable(mode: AddressingMode, pc: u16)
  {
    match mode
    case Immediate => true
    case ZeroPage | ZeroPageX | ZeroPageY | IndirectX | IndirectY => MemMap.ByteInBounds(pc)
    case Absolute | AbsoluteX | AbsoluteY => MemMap.WordInBounds(pc)
    case NoneAddressing => false
  }

  /** `get_operand_address`: the address the operand of an instruction denotes. */
  function GetOperandAddress(cpu: CPU, mode: AddressingMode): (addr: u16)
    requires cpu.Valid() && OperandReadable(mode, cpu.program_counter)
    ensures mode == Immediate ==> addr == cpu.program_counter
    ensures mode in {ZeroPage, ZeroPageX, ZeroPageY} ==> addr < 0x100
    ensures mode == ZeroPage ==>
      addr as int == cpu.At(cpu.program_counter as int)
    ensures mode == ZeroPageX ==>
      addr as int == (cpu.At(cpu.program_counter as int) + cpu.index_register_x as int) % 0x100
    ensures mode == ZeroPageY ==>
      addr as int == (cpu.At(cpu.program_counter as int) + cpu.index_register_y as int) % 0x100
    ensures mode == Absolute ==>
      addr as int == cpu.At(cpu.program_counter as int) + 0x100 * cpu.At(cpu.program_counter as int + 1)
    ensures mode == AbsoluteX ==>
      addr as int == (cpu.At(cpu.program_counter as int) + 0x100 * cpu.At(cpu.program_counter as int + 1)
                      + cpu.index_register_x as int) % 0x1_0000
    ensures mode == AbsoluteY ==>
      addr as int == (cpu.At(cpu.program_counter as int) + 0x100 * cpu.At(cpu.program_counter as int + 1)
                      + cpu.index_register_y as int) % 0x1_0000
    ensures mode == IndirectX ==>
      var ptr := (cpu.At(cpu.program_counter as int) + cpu.index_register_x as int) % 0x100;
      addr as int == cpu.At(ptr) + 0x100 * cpu.At((ptr + 1) % 0x100)
    ensures mode == IndirectY ==>
      var base := cpu.At(cpu.program_counter as int);
      addr as int == (cpu.At(base) + 0x100 * cpu.At((base + 1) % 0x100) + cpu.index_register_y as int) % 0x1_0000
  {
    var pc := cpu.program_counter;
    match mode
    case Immediate => pc
    case ZeroPage => cpu.memory[pc] as u16
    case ZeroPageX => WrappingAdd8(cpu.memory[pc], cpu.index_register_x) as u16
    case ZeroPageY => WrappingAdd8(cpu.memory[pc], cpu.index_register_y) as u16
    case Absolute => Memory.Word(cpu.memory[pc], cpu.memory[pc + 1])
    case AbsoluteX => WrappingAdd16(Memory.Word(cpu.memory[pc], cpu.memory[pc + 1]), cpu.index_register_x as u16)
    case AbsoluteY => WrappingAdd16(Memory.Word(cpu.memory[pc], cpu.memory[pc + 1]), cpu.index_register_y as u16)
    case IndirectX =>
      var ptr := WrappingAdd8(cpu.memory[pc], cpu.index_register_x);
      var lo := cpu.memory[ptr];
      var hi := cpu.memory[WrappingAdd8(ptr, 1)];
      Memory.Word(lo, hi)
    case IndirectY =>
      var base := cpu.memory[pc];
      var lo := cpu.memory[base];
      var hi := cpu.memory[WrappingAdd8(base, 1)];
      var derefBase := Memory.Word(lo, hi);
      WrappingAdd16(derefBase, cpu.index_register_y as u16)
  }

  /** The zero-page indexed modes add the index register to the ZeroPage address, wrapping at 8 bits. */
  lemma ZeroPageIndexedAddsIndex(cpu: CPU)
    requires cpu.Valid() && MemMap.ByteInBounds(cpu.program_counter)
    ensures GetOperandAddress(cpu, ZeroPageX) ==
      WrappingAdd8(GetOperandAddress(cpu, ZeroPage) as u8, cpu.index_register_x) as u16
    ensures GetOperandAddress(cpu, ZeroPageY) ==
      WrappingAdd8(GetOperandAddress(cpu, ZeroPage) as u8, cpu.index_register_y) as u16
  {
  }

  /** The absolute indexed modes add the index register to the Absolute address, wrapping at 16 bits. */
  lemma AbsoluteIndexedAddsIndex(cpu: CPU)
    requires cpu.Valid() && MemMap.WordInBounds(cpu.program_counter)
    ensures GetOperandAddress(cpu, AbsoluteX) ==
      WrappingAdd16(GetOperandAddress(cpu, Absolute), cpu.index_register_x as u16)
    ensures GetOperandAddress(cpu, AbsoluteY) ==
      WrappingAdd16(GetOperandAddress(cpu, Absolute), cpu.index_register_y as u16)
  {
  }

  /**
   * Unlike the zero-page forms, AbsoluteX carries into the high byte: from a
   * base whose low byte is 0xFF, any non-zero X moves to the next page.
   */
  lemma AbsoluteXCrossesPage(cpu: CPU)
    requires cpu.Valid() && MemMap.WordInBounds(cpu.program_counter)
    requires cpu.memory[cpu.program_counter] == 0xFF && cpu.index_register_x != 0
    ensures GetOperandAddress(cpu, AbsoluteX) as int / 0x100 ==
      (GetOperandAddress(cpu, Absolute) as int / 0x100 + 1) % 0x100
  {
  }

  /**
   * The indirect modes fetch their pointer from the zero page and wrap inside
   * it: a pointer at 0xFF takes its high byte from 0x00, not from 0x100.
   */
  lemma IndirectPointerWrapsInZeroPage(cpu: CPU)
    requires cpu.Valid() && MemMap.ByteInBounds(cpu.program_counter)
    ensures (cpu.At(cpu.program_counter as int) + cpu.index_register_x as int) % 0x100 == 0xFF ==>
      GetOperandAddress(cpu, IndirectX) as int == cpu.At(0xFF) + 0x100 * cpu.At(0x00)
    ensures cpu.At(cpu.program_counter as int) == 0xFF ==>
      GetOperandAddress(cpu, IndirectY) as int == (cpu.At(0xFF) + 0x100 * cpu.At(0x00) + cpu.index_register_y as int) % 0x1_0000
  {
  }
}
