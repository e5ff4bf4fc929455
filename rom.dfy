/**
 * The iNES 1.0 cartridge header parser of src/cpu/rom.rs (`Rom::new`) and the
 * test helpers that build an image from its parts (`create_rom`, `test_rom`).
 *
 * Header bytes used: 0..3 the tag "NES" 0x1A, 4 the PRG size in 16 KiB pages,
 * 5 the CHR size in 8 KiB pages, 6 and 7 the flags. Bit operations on bytes
 * are written as the arithmetic they amount to: `b >> k` is `b / 2^k` and
 * `b & (1 << k) != 0` is `(b / 2^k) % 2 == 1`.
 */
module Cartridge {
  import opened Num
  import opened Wrappers

  const NES_TAG: seq<u8> := [0x4E, 0x45, 0x53, 0x1A]
  const PRG_ROM_PAGE_SIZE: nat := 16384
  const CHR_ROM_PAGE_SIZE: nat := 8192

  /** The offset of PRG data when a 512-byte trainer follows the header. */
  const HEADER_SIZE: nat := 16
  const TRAINER_SIZE: nat := 512

  const NOT_INES_ERROR: string := "File is not in iNES format"
  const NES2_ERROR: string := "NES2.0 format is not supported"

  datatype Mirroring = Vertical | Horizontal | FourScreen

  datatype Rom = Rom(prg_rom: seq<u8>, chr_rom: seq<u8>, mapper: u8, screen_mirroring: Mirroring)

  /** `(raw[7] & 0b1111_0000) | (raw[6] >> 4)`: the two disjoint nibbles side by side. */
  function Mapper(flags6: u8, flags7: u8): (m: u8)
    ensures m as int / 16 == flags7 as int / 16
    ensures m as int % 16 == flags6 as int / 16
  {
    ((flags7 as int / 16) * 16 + flags6 as int / 16) as u8
  }

  /** `(raw[7] >> 2) & 0b11`; non-zero marks a NES 2.0 header. */
  function INesVersion(flags7: u8): (v: int)
    ensures 0 <= v < 4
  {
    (flags7 as int / 4) % 4
  }

  /** Bit 3 of byte 6 selects four-screen mirroring, whatever bit 0 says; bit 0 selects vertical. */
  function ScreenMirroring(flags6: u8): (m: Mirroring)
    ensures m == FourScreen <==> (flags6 as int / 8) % 2 == 1
    ensures m == Vertical <==> (flags6 as int / 8) % 2 == 0 && flags6 as int % 2 == 1
    ensures m == Horizontal <==> (flags6 as int / 8) % 2 == 0 && flags6 as int % 2 == 0
  {
    var fourScreen := (flags6 as int / 8) % 2 == 1;
    var verticalMirroring := flags6 as int % 2 == 1;
    match (fourScreen, verticalMirroring)
    case (true, _) => FourScreen
    case (false, true) => Vertical
    case (false, false) => Horizontal
  }

  /** Bit 2 of byte 6: a trainer sits between the header and the PRG data. */
  predicate HasTrainer(flags6: u8)
  {
    (flags6 as int / 4) % 2 == 1
  }

  /** Where the PRG data begins. */
  function PrgRomStart(flags6: u8): (start: nat)
  {
    16 + if HasTrainer(flags6) then 512 else 0
  }

  /** One past the last byte that Rom::new slices out of `raw`. */
  function ImageEnd(raw: seq<u8>): (end: nat)
    requires |raw| >= 8
  {
    PrgRomStart(raw[6]) + raw[4] as nat * PRG_ROM_PAGE_SIZE + raw[5] as nat * CHR_ROM_PAGE_SIZE
  }

  /**
   * The inputs on which Rom::new does not panic: the tag comparison needs four
   * bytes, the flag reads need eight once the tag matches, and the two slices
   * need the whole PRG and CHR data once the header is accepted.
   */
  predicate NoPanic(raw: seq<u8>)
  {
    && |raw| >= 4
    && (raw[..4] == NES_TAG ==> |raw| >= 8)
    && (raw[..4] == NES_TAG && |raw| >= 8 && INesVersion(raw[7]) == 0 ==> |raw| >= ImageEnd(raw))
  }

  /** `Rom::new`. */
  function New(raw: seq<u8>): (r: Result<Rom, string>)
    requires NoPanic(raw)
    ensures r == Failure(NOT_INES_ERROR) <==> raw[..4] != NES_TAG
    ensures r == Failure(NES2_ERROR) <==> raw[..4] == NES_TAG && (raw[7] as int / 4) % 4 != 0
    ensures r.Success? <==> raw[..4] == NES_TAG && (raw[7] as int / 4) % 4 == 0
    ensures r.Success? ==>
      && r.value.mapper as int / 16 == raw[7] as int / 16
      && r.value.mapper as int % 16 == raw[6] as int / 16
      && r.value.screen_mirroring == ScreenMirroring(raw[6])
      && |r.value.prg_rom| == raw[4] as int * PRG_ROM_PAGE_SIZE
      && |r.value.chr_rom| == raw[5] as int * CHR_ROM_PAGE_SIZE
      && var prgStart := if HasTrainer(raw[6]) then HEADER_SIZE + TRAINER_SIZE else HEADER_SIZE;
         && r.value.prg_rom == raw[prgStart..prgStart + |r.value.prg_rom|]
         && r.value.chr_rom == raw[prgStart + |r.value.prg_rom|..prgStart + |r.value.prg_rom| + |r.value.chr_rom|]
  {
    if raw[..4] != NES_TAG then
      Failure(NOT_INES_ERROR)
    else
      var mapper := Mapper(raw[6], raw[7]);
      var inesVer := INesVersion(raw[7]);
      if inesVer != 0 then
        Failure(NES2_ERROR)
      else
        var screenMirroring := ScreenMirroring(raw[6]);
        var prgRomSize := raw[4] as nat * PRG_ROM_PAGE_SIZE;
        var chrRomSize := raw[5] as nat * CHR_ROM_PAGE_SIZE;
        var prgRomStart := PrgRomStart(raw[6]);
        var chrRomStart := prgRomStart + prgRomSize;
        Success(Rom(
          prg_rom := raw[prgRomStart..prgRomStart + prgRomSize],
          chr_rom := raw[chrRomStart..chrRomStart + chrRomSize],
          mapper := mapper,
          screen_mirroring := screenMirroring))
  }

  /** The parts `create_rom` joins. */
  datatype TestRom = TestRom(header: seq<u8>, trainer: Option<seq<u8>>, pgp_rom: seq<u8>, chr_rom: seq<u8>)

  /** The trainer's bytes, or none. */
  function TrainerBytes(trainer: Option<seq<u8>>): (t: seq<u8>)
  {
    match trainer
    case None => []
    case Some(t) => t
  }

  /** `create_rom`: header, trainer (if any), PRG and CHR, appended in that order. */
  method CreateRom(rom: TestRom) returns (result: seq<u8>)
    ensures |result| == |rom.header| + |TrainerBytes(rom.trainer)| + |rom.pgp_rom| + |rom.chr_rom|
    ensures result == rom.header + TrainerBytes(rom.trainer) + rom.pgp_rom + rom.chr_rom
  {
    result := [];
    result := result + rom.header;
    if rom.trainer.Some? {
      result := result + rom.trainer.value;
    }
    result := result + rom.pgp_rom;
    result := result + rom.chr_rom;
  }

  /**
   * A well-formed iNES 1.0 header: 16 bytes, the tag, version bits 0, a
   * trainer exactly when the header announces one, and PRG and CHR blocks of
   * the sizes the header gives.
   */
  predicate WellFormed(rom: TestRom)
  {
    && |rom.header| == HEADER_SIZE
    && rom.header[..4] == NES_TAG
    && INesVersion(rom.header[7]) == 0
    && (rom.trainer.Some? <==> HasTrainer(rom.header[6]))
    && (rom.trainer.Some? ==> |rom.trainer.value| == TRAINER_SIZE)
    && |rom.pgp_rom| == rom.header[4] as int * PRG_ROM_PAGE_SIZE
    && |rom.chr_rom| == rom.header[5] as int * CHR_ROM_PAGE_SIZE
  }

  /** Rom::new takes apart what create_rom puts together. */
  lemma {:induction false} NewOfCreatedRom(rom: TestRom)
    requires WellFormed(rom)
    ensures var raw := rom.header + TrainerBytes(rom.trainer) + rom.pgp_rom + rom.chr_rom;
      NoPanic(raw) &&
      New(raw) == Success(Rom(rom.pgp_rom, rom.chr_rom, Mapper(rom.header[6], rom.header[7]), ScreenMirroring(rom.header[6])))
  {
    var h, t, p, c := rom.header, TrainerBytes(rom.trainer), rom.pgp_rom, rom.chr_rom;
    var raw := h + t + p + c;
    assert raw[..16] == h;
    assert raw[..4] == NES_TAG && raw[4] == h[4] && raw[5] == h[5] && raw[6] == h[6] && raw[7] == h[7];
    var start := PrgRomStart(h[6]);
    assert start == |h| + |t|;
    assert raw[start..start + |p|] == p;
    assert raw[start + |p|..start + |p| + |c|] == c;
  }

  /** `test_rom`: a two-page PRG of 0x01 bytes and a one-page CHR of 0x02 bytes, mapper 3, vertical. */
  method MakeTestRom() returns (rom: Rom)
    ensures rom.prg_rom == seq(2 * PRG_ROM_PAGE_SIZE, _ => 1)
    ensures rom.chr_rom == seq(CHR_ROM_PAGE_SIZE, _ => 2)
    ensures rom.mapper == 3 && rom.screen_mirroring == Vertical
  {
    var parts := TestRom(
      header := [0x4E, 0x45, 0x53, 0x1A, 0x02, 0x01, 0x31, 00, 00, 00, 00, 00, 00, 00, 00, 00],
      trainer := None,
      pgp_rom := seq(2 * PRG_ROM_PAGE_SIZE, _ => 1),
      chr_rom := seq(1 * CHR_ROM_PAGE_SIZE, _ => 2));
    var testRom := CreateRom(parts);
    NewOfCreatedRom(parts);
    var parsed := New(testRom);
    rom := parsed.value;
  }
}
