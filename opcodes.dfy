/**
 * The opcode metadata of src/cpu/opcodes.rs: the constant table CPU_OPCODES
 * and the map OPCODES_MAP that a loop builds from it, keyed by opcode byte.
 * Inserting a code that is already present overwrites it, so for each code
 * the map holds the LAST table entry with that code.
 */
module Opcodes {
  import opened Num
  import opened Cpu

  /** `OpCode`; `cycles` is carried as data only. */
  datatype OpCode = OpCode(code: u8, mnemonic: string, bytes: u8, cycles: u8, addressing_mode: AddressingMode)

  /** `CPU_OPCODES`. */
  const CPU_OPCODES: seq<OpCode> := [
    OpCode(0xA9, "LDA", 2, 2, Immediate),
    OpCode(0xA5, "LDA", 2, 3, ZeroPage),
    OpCode(0xB5, "LDA", 2, 4, ZeroPageX),
    OpCode(0xAD, "LDA", 3, 4, Absolute),
    OpCode(0xBD, "LDA", 3, 4, AbsoluteX),
    OpCode(0xB9, "LDA", 3, 4, AbsoluteY),
    OpCode(0xA1, "LDA", 2, 6, IndirectX),
    OpCode(0xB1, "LDA", 2, 5, IndirectY),

    OpCode(0x69, "ADC", 2, 2, Immediate),
    OpCode(0x65, "ADC", 2, 3, ZeroPage),
    OpCode(0x75, "ADC", 2, 4, ZeroPageX),
    OpCode(0x6D, "ADC", 3, 4, Absolute),
    OpCode(0x7D, "ADC", 3, 4, AbsoluteX),
    OpCode(0x79, "ADC", 3, 4, AbsoluteY),
    OpCode(0x61, "ADC", 2, 6, IndirectX),
    OpCode(0x71, "ADC", 2, 5, IndirectY),

    OpCode(0x00, "BRK", 1, 7, NoneAddressing),
    OpCode(0xAA, "TAX", 1, 2, NoneAddressing)
  ]

  /** The codes that occur in a table. */
  function Codes(table: seq<OpCode>): (codes: set<u8>)
  {
    set i | 0 <= i < |table| :: table[i].code
  }

  /**
   * The map that inserting the entries of `table` one after the other, into an
   * empty map, produces. Its keys are exactly the table's codes and each key
   * maps to an entry of the table carrying that code.
   */
  function Index(table: seq<OpCode>): (m: map<u8, OpCode>)
    ensures m.Keys == Codes(table)
    ensures forall c :: c in m ==> m[c].code == c && m[c] in table
  {
    if table == [] then map[]
    else
      var prefix, last := table[..|table| - 1], table[|table| - 1];
      assert forall i :: 0 <= i < |prefix| ==> prefix[i] == table[i];
      assert Codes(table) == Codes(prefix) + {last.code};
      Index(prefix)[last.code := last]
  }

  /** The initializer of OPCODES_MAP: a loop inserting every entry, a later insert overwriting an earlier one. */
  method BuildOpcodesMap(table: seq<OpCode>) returns (map_: map<u8, OpCode>)
    ensures map_ == Index(table)
  {
    map_ := map[];
    for i := 0 to |table|
      invariant map_ == Index(table[..i])
    {
      var code := table[i];
      assert table[..i + 1][..i] == table[..i];
      map_ := map_[code.code := code];
    }
    assert table[..|table|] == table;
  }

  /** `OPCODES_MAP`. */
  const OPCODES_MAP: map<u8, OpCode> := Index(CPU_OPCODES)

  /** The entry a code maps to is the last entry of the table with that code. */
  lemma {:induction false} IndexHoldsLastEntry(table: seq<OpCode>, i: nat)
    requires i < |table|
    requires forall j :: i < j < |table| ==> table[j].code != table[i].code
    ensures table[i].code in Index(table) && Index(table)[table[i].code] == table[i]
  {
    if i < |table| - 1 {
      var prefix := table[..|table| - 1];
      assert forall j :: i < j < |prefix| ==> prefix[j] == table[j];
      IndexHoldsLastEntry(prefix, i);
      assert prefix[i] == table[i];
    }
  }

  /** No two entries of the table share a code. */
  predicate DistinctCodes(table: seq<OpCode>)
  {
    forall i, j :: 0 <= i < j < |table| ==> table[i].code != table[j].code
  }

  /** Without duplicate codes no insert overwrites, so the map has one key per entry. */
  lemma {:induction false} IndexSizeWhenDistinct(table: seq<OpCode>)
    requires DistinctCodes(table)
    ensures |Index(table)| == |table|
  {
    if table != [] {
      var prefix, last := table[..|table| - 1], table[|table| - 1];
      assert DistinctCodes(prefix) by {
        forall i, j | 0 <= i < j < |prefix| ensures prefix[i].code != prefix[j].code {
          assert prefix[i] == table[i] && prefix[j] == table[j];
        }
      }
      IndexSizeWhenDistinct(prefix);
      assert last.code !in Index(prefix);
    }
  }

  /** The codes of CPU_OPCODES, in table order. */
  function CodeList(table: seq<OpCode>): (codes: seq<u8>)
    ensures |codes| == |table|
    ensures forall i :: 0 <= i < |table| ==> codes[i] == table[i].code
  {
    seq(|table|, i requires 0 <= i < |table| => table[i].code)
  }

  /** No code after position `k` repeats the code at `k`. */
  predicate FirstOfItsCode(codes: seq<u8>, k: nat)
    requires k < |codes|
  {
    forall j :: k < j < |codes| ==> codes[j] != codes[k]
  }

  /** The codes of CPU_OPCODES, in table order. */
  const CPU_OPCODE_CODES: seq<u8> := [
    0xA9, 0xA5, 0xB5, 0xAD, 0xBD, 0xB9, 0xA1, 0xB1,
    0x69, 0x65, 0x75, 0x6D, 0x7D, 0x79, 0x61, 0x71,
    0x00, 0xAA]

  lemma CpuOpcodeCodes()
    ensures CodeList(CPU_OPCODES) == CPU_OPCODE_CODES
  {
  }

  /** No code appears twice in CPU_OPCODE_CODES. */
  lemma CodeListDistinct()
    ensures forall i, j :: 0 <= i < j < |CPU_OPCODE_CODES| ==> CPU_OPCODE_CODES[i] != CPU_OPCODE_CODES[j]
  {
    var codes := CPU_OPCODE_CODES;
    // one case per position of the table
    assert FirstOfItsCode(codes, 0); assert FirstOfItsCode(codes, 1); assert FirstOfItsCode(codes, 2);
    assert FirstOfItsCode(codes, 3); assert FirstOfItsCode(codes, 4); assert FirstOfItsCode(codes, 5);
    assert FirstOfItsCode(codes, 6); assert FirstOfItsCode(codes, 7); assert FirstOfItsCode(codes, 8);
    assert FirstOfItsCode(codes, 9); assert FirstOfItsCode(codes, 10); assert FirstOfItsCode(codes, 11);
    assert FirstOfItsCode(codes, 12); assert FirstOfItsCode(codes, 13); assert FirstOfItsCode(codes, 14);
    assert FirstOfItsCode(codes, 15); assert FirstOfItsCode(codes, 16); assert FirstOfItsCode(codes, 17);
    forall i, j | 0 <= i < j < |codes| ensures codes[i] != codes[j] {
      assert FirstOfItsCode(codes, i);
    }
  }

  /** The current table registers every code once. */
  lemma CpuOpcodesDistinct()
    ensures DistinctCodes(CPU_OPCODES)
  {
    CodeListDistinct();
    CpuOpcodeCodes();
    var codes := CodeList(CPU_OPCODES);
    forall i, j | 0 <= i < j < |CPU_OPCODES| ensures CPU_OPCODES[i].code != CPU_OPCODES[j].code {
      assert codes[i] == CPU_OPCODES[i].code && codes[j] == CPU_OPCODES[j].code;
    }
  }

  /** OPCODES_MAP has one entry per table entry, 18 in all; every other byte is absent. */
  lemma OpcodesMapSize()
    ensures |OPCODES_MAP| == 18
    ensures forall c :: c in OPCODES_MAP <==> c in Codes(CPU_OPCODES)
  {
    CpuOpcodesDistinct();
    IndexSizeWhenDistinct(CPU_OPCODES);
  }

  /** The entries the engine relies on: LDA immediate, BRK and TAX. */
  lemma OpcodesMapLookups()
    ensures 0xA9 in OPCODES_MAP && OPCODES_MAP[0xA9] == OpCode(0xA9, "LDA", 2, 2, Immediate)
    ensures 0x00 in OPCODES_MAP && OPCODES_MAP[0x00] == OpCode(0x00, "BRK", 1, 7, NoneAddressing)
    ensures 0xAA in OPCODES_MAP && OPCODES_MAP[0xAA] == OpCode(0xAA, "TAX", 1, 2, NoneAddressing)
  {
    CpuOpcodesDistinct();
    IndexHoldsLastEntry(CPU_OPCODES, 0);
    IndexHoldsLastEntry(CPU_OPCODES, 16);
    IndexHoldsLastEntry(CPU_OPCODES, 17);
  }

  /** The instruction length each addressing mode implies: opcode byte plus operand bytes. */
  function BytesFor(mode: AddressingMode): (n: u8)
    ensures 1 <= n <= 3
  {
    match mode
    case NoneAddressing => 1
    case Immediate | ZeroPage | ZeroPageX | ZeroPageY | IndirectX | IndirectY => 2
    case Absolute | AbsoluteX | AbsoluteY => 3
  }

  /** In every entry of the table, the byte count follows the addressing mode. */
  lemma BytesFollowMode()
    ensures forall i :: 0 <= i < |CPU_OPCODES| ==> CPU_OPCODES[i].bytes == BytesFor(CPU_OPCODES[i].addressing_mode)
  {
  }

  /** The codes registered under a mnemonic. */
  function Family(table: seq<OpCode>, mnemonic: string): (codes: set<u8>)
  {
    set i | 0 <= i < |table| && table[i].mnemonic == mnemonic :: table[i].code
  }

  /** The entries named `mnemonic` are exactly those at positions lo to hi - 1. */
  lemma {:induction false} FamilyIsRange(mnemonic: string, lo: nat, hi: nat)
    requires lo <= hi <= |CPU_OPCODES|
    requires forall i :: 0 <= i < |CPU_OPCODES| ==> (CPU_OPCODES[i].mnemonic == mnemonic <==> lo <= i < hi)
    ensures Family(CPU_OPCODES, mnemonic) == set c | c in CPU_OPCODE_CODES[lo..hi]
  {
    CpuOpcodeCodes();
    var fam := Family(CPU_OPCODES, mnemonic);
    forall c | c in fam ensures c in CPU_OPCODE_CODES[lo..hi] {
      var i :| 0 <= i < |CPU_OPCODES| && CPU_OPCODES[i].mnemonic == mnemonic && CPU_OPCODES[i].code == c;
      assert CPU_OPCODE_CODES[lo..hi][i - lo] == c;
    }
    forall c | c in CPU_OPCODE_CODES[lo..hi] ensures c in fam {
      var k :| 0 <= k < hi - lo && CPU_OPCODE_CODES[lo..hi][k] == c;
      assert CPU_OPCODES[lo + k].code == c;
    }
  }

  /** The addressing modes of the entries named `mnemonic`. */
  function FamilyModes(table: seq<OpCode>, mnemonic: string): (modes: set<AddressingMode>)
  {
    set i | 0 <= i < |table| && table[i].mnemonic == mnemonic :: table[i].addressing_mode
  }

  /** The modes LDA and ADC are registered under: every operand mode except ZeroPageY. */
  const LDA_ADC_MODES: set<AddressingMode> :=
    {Immediate, ZeroPage, ZeroPageX, Absolute, AbsoluteX, AbsoluteY, IndirectX, IndirectY}

  /** The addressing modes of CPU_OPCODES, in table order, for each of the two families. */
  const FAMILY_MODES: seq<AddressingMode> :=
    [Immediate, ZeroPage, ZeroPageX, Absolute, AbsoluteX, AbsoluteY, IndirectX, IndirectY]

  /** The modes of the entries at positions lo to lo + 7 are FAMILY_MODES, in that order. */
  lemma {:induction false} FamilyModesAt(mnemonic: string, lo: nat)
    requires lo + 8 <= |CPU_OPCODES|
    requires forall i :: 0 <= i < |CPU_OPCODES| ==> (CPU_OPCODES[i].mnemonic == mnemonic <==> lo <= i < lo + 8)
    requires forall k :: 0 <= k < 8 ==> CPU_OPCODES[lo + k].addressing_mode == FAMILY_MODES[k]
    ensures FamilyModes(CPU_OPCODES, mnemonic) == set m | m in FAMILY_MODES
  {
    var modes := FamilyModes(CPU_OPCODES, mnemonic);
    forall m | m in FAMILY_MODES ensures m in modes {
      var k :| 0 <= k < 8 && FAMILY_MODES[k] == m;
      assert CPU_OPCODES[lo + k].addressing_mode == m;
    }
    forall m | m in modes ensures m in FAMILY_MODES {
      var i :| 0 <= i < |CPU_OPCODES| && CPU_OPCODES[i].mnemonic == mnemonic && CPU_OPCODES[i].addressing_mode == m;
      assert FAMILY_MODES[i - lo] == m;
    }
  }

  /** The mnemonics of CPU_OPCODES: positions 0 to 7 are LDA, 8 to 15 ADC, then BRK and TAX. */
  lemma Mnemonics()
    ensures forall i :: 0 <= i < |CPU_OPCODES| ==> (CPU_OPCODES[i].mnemonic == "LDA" <==> i < 8)
    ensures forall i :: 0 <= i < |CPU_OPCODES| ==> (CPU_OPCODES[i].mnemonic == "ADC" <==> 8 <= i < 16)
  {
  }

  /** The two families list their modes in the order of FAMILY_MODES. */
  lemma FamilyModeOrder()
    ensures forall k :: 0 <= k < 8 ==> CPU_OPCODES[k].addressing_mode == FAMILY_MODES[k]
    ensures forall k :: 0 <= k < 8 ==> CPU_OPCODES[8 + k].addressing_mode == FAMILY_MODES[k]
    ensures (set m | m in FAMILY_MODES) == LDA_ADC_MODES
  {
  }

  /** LDA: the eight entries A9, A5, B5, AD, BD, B9, A1, B1, one per operand mode except ZeroPageY. */
  lemma LdaFamily()
    ensures forall i :: 0 <= i < |CPU_OPCODES| ==> (CPU_OPCODES[i].mnemonic == "LDA" <==> i < 8)
    ensures Family(CPU_OPCODES, "LDA") == {0xA9, 0xA5, 0xB5, 0xAD, 0xBD, 0xB9, 0xA1, 0xB1}
    ensures FamilyModes(CPU_OPCODES, "LDA") == LDA_ADC_MODES
    ensures ZeroPageY !in FamilyModes(CPU_OPCODES, "LDA")
  {
    Mnemonics();
    assert Family(CPU_OPCODES, "LDA") == {0xA9, 0xA5, 0xB5, 0xAD, 0xBD, 0xB9, 0xA1, 0xB1} by {
      FamilyIsRange("LDA", 0, 8);
      assert CPU_OPCODE_CODES[0..8] == [0xA9, 0xA5, 0xB5, 0xAD, 0xBD, 0xB9, 0xA1, 0xB1];
    }
    assert FamilyModes(CPU_OPCODES, "LDA") == LDA_ADC_MODES by {
      FamilyModeOrder();
      FamilyModesAt("LDA", 0);
    }
  }

  /** ADC: the eight entries 69, 65, 75, 6D, 7D, 79, 61, 71, one per operand mode except ZeroPageY. */
  lemma AdcFamily()
    ensures forall i :: 0 <= i < |CPU_OPCODES| ==> (CPU_OPCODES[i].mnemonic == "ADC" <==> 8 <= i < 16)
    ensures Family(CPU_OPCODES, "ADC") == {0x69, 0x65, 0x75, 0x6D, 0x7D, 0x79, 0x61, 0x71}
    ensures FamilyModes(CPU_OPCODES, "ADC") == LDA_ADC_MODES
    ensures ZeroPageY !in FamilyModes(CPU_OPCODES, "ADC")
  {
    Mnemonics();
    assert Family(CPU_OPCODES, "ADC") == {0x69, 0x65, 0x75, 0x6D, 0x7D, 0x79, 0x61, 0x71} by {
      FamilyIsRange("ADC", 8, 16);
      assert CPU_OPCODE_CODES[8..16] == [0x69, 0x65, 0x75, 0x6D, 0x7D, 0x79, 0x61, 0x71];
    }
    assert FamilyModes(CPU_OPCODES, "ADC") == LDA_ADC_MODES by {
      FamilyModeOrder();
      FamilyModesAt("ADC", 8);
    }
  }
}
