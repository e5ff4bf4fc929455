/**
 * The processor-status register of src/cpu/processor_status.rs: a byte wrapped
 * by `ProcessorStatus`, set, cleared and tested through the single-bit masks of
 * `ProcessorStatusFlags`.
 *
 * The bit layout is the source's own, which is not the 6502's: Overflow is
 * bit 5 and Negative is bit 6, and bit 7 is never used.
 */
module Status {

  /** The members of `ProcessorStatusFlags`. */
  datatype Flag =
    | Default
    | CarryFlag
    | ZeroFlag
    | InterruptDisable
    | DecimalMode
    | BreakCommand
    | Overflow
    | Negative

  /** The mask `flag as u8`: zero for Default and one distinct bit otherwise. */
  function Mask(f: Flag): (m: bv8)
    ensures m == 0 <==> f == Default
    ensures m & (m - 1) == 0
    ensures m & 0x80 == 0
  {
    match f
    case Default => 0x00
    case CarryFlag => 0x01
    case ZeroFlag => 0x02
    case InterruptDisable => 0x04
    case DecimalMode => 0x08
    case BreakCommand => 0x10
    case Overflow => 0x20
    case Negative => 0x40
  }

  /** Two different flags never share a bit. */
  lemma MasksDisjoint(f: Flag, g: Flag)
    requires f != g
    ensures Mask(f) & Mask(g) == 0
  {
  }

  /** `has_flag_set`: the flag's bit is 1 in the status byte. */
  function IsSet(s: bv8, f: Flag): (r: bool)
    ensures r ==> f != Default
    ensures r <==> s & Mask(f) == Mask(f) && f != Default
  {
    s & Mask(f) != 0
  }

  /** The status byte after `set_flag_true`. */
  function Set(s: bv8, f: Flag): (r: bv8)
    ensures IsSet(r, f) <==> f != Default
    ensures r & !Mask(f) == s & !Mask(f)
    ensures forall g :: g != f ==> (IsSet(r, g) <==> IsSet(s, g))
  {
    s | Mask(f)
  }

  /** The status byte after `set_flag_false` (and after `toggle_flag`). */
  function Clear(s: bv8, f: Flag): (r: bv8)
    ensures !IsSet(r, f)
    ensures r & !Mask(f) == s & !Mask(f)
    ensures forall g :: g != f ==> (IsSet(r, g) <==> IsSet(s, g))
  {
    s & !Mask(f)
  }

  /** Setting a flag twice is setting it once; likewise clearing. */
  lemma SetClearIdempotent(s: bv8, f: Flag)
    ensures Set(Set(s, f), f) == Set(s, f)
    ensures Clear(Clear(s, f), f) == Clear(s, f)
  {
  }

  /** Setting then clearing a flag restores the byte iff the flag was clear. */
  lemma ClearUndoesSet(s: bv8, f: Flag)
    ensures Clear(Set(s, f), f) == s <==> !IsSet(s, f)
  {
  }

  /** `ProcessorStatus(u8)`: the status register, updated in place. */
  class ProcessorStatus {
    var status: bv8

    constructor (bits: bv8)
      ensures status == bits
    {
      status := bits;
    }

    /** `has_flag_set`: whether the flag's bit is 1 in the held byte. */
    function HasFlagSet(f: Flag): (r: bool)
      reads this
    {
      IsSet(status, f)
    }

    /** `set_flag_true`: ORs the flag's mask into the byte. */
    method SetFlagTrue(f: Flag)
      modifies this
      ensures status == Set(old(status), f)
      ensures HasFlagSet(f) <==> f != Default
      ensures forall g :: g != f ==> (HasFlagSet(g) <==> old(HasFlagSet(g)))
    {
      ghost var before := status;
      status := status | Mask(f);
      assert status == Set(before, f);
    }

    /** `set_flag_false`: clears the flag's bit. */
    method SetFlagFalse(f: Flag)
      modifies this
      ensures status == Clear(old(status), f)
      ensures !HasFlagSet(f)
      ensures forall g :: g != f ==> (HasFlagSet(g) <==> old(HasFlagSet(g)))
    {
      ghost var before := status;
      status := status & !Mask(f);
      assert status == Clear(before, f);
    }

    /** `toggle_flag`: despite its name, it clears the bit exactly as set_flag_false does. */
    method ToggleFlag(f: Flag)
      modifies this
      ensures status == Clear(old(status), f)
      ensures !HasFlagSet(f)
      ensures !old(HasFlagSet(f)) ==> status == old(status)
    {
      status := status & !Mask(f);
    }
  }

  /** The two tests of processor_status.rs, replayed on the class. */
  method FlagTests() returns (carry: bool, decimalAfterSet: bool, decimalAfterClear: bool, breakAfterSet: bool, breakAfterToggle: bool)
    ensures carry && decimalAfterSet && !decimalAfterClear && breakAfterSet && !breakAfterToggle
  {
    var status := new ProcessorStatus(0);
    status.SetFlagTrue(CarryFlag);
    carry := status.HasFlagSet(CarryFlag);
    status.SetFlagTrue(DecimalMode);
    decimalAfterSet := status.HasFlagSet(DecimalMode);
    status.SetFlagFalse(DecimalMode);
    decimalAfterClear := status.HasFlagSet(DecimalMode);

    var other := new ProcessorStatus(0);
    other.SetFlagTrue(BreakCommand);
    breakAfterSet := other.HasFlagSet(BreakCommand);
    other.ToggleFlag(BreakCommand);
    breakAfterToggle := other.HasFlagSet(BreakCommand);
  }
}
