/** The TPS55289 register map, the byte each bit-field mutator composes
    into its shadow register, the bus write log, and the status decoder. */
module Registers {
  import opened BitFields
  import opened PythonInt

  datatype Option<T> = None | Some(value: T)

  // Register addresses (TPS55289.py:28-35).
  const RefVoltageLsbAddr: int := 0x00
  const RefVoltageMsbAddr: int := 0x01
  const IoutLimitAddr: int := 0x02
  const VoutSrAddr: int := 0x03
  const VoutFsAddr: int := 0x04
  const CdcAddr: int := 0x05
  const ModeAddr: int := 0x06
  const StatusAddr: int := 0x07

  // Single-bit fields.
  const CurrentLimitEnableBit: nat := 7   // IOUT_LIMIT
  const FeedbackModeBit: nat := 7         // VOUT_FS
  const ScIndicationBit: nat := 7         // CDC
  const OcpIndicationBit: nat := 6        // CDC
  const OvpIndicationBit: nat := 5        // CDC
  const CdcOptionBit: nat := 3            // CDC
  const OutputEnableBit: nat := 7         // MODE
  const FswDoublingBit: nat := 6          // MODE
  const HiccupBit: nat := 5               // MODE
  const DischargeBit: nat := 4            // MODE
  const FpwmBit: nat := 1                 // MODE

  // The shadow images the driver starts from, bit 0 first.
  const ZeroImage: Byte := [0, 0, 0, 0, 0, 0, 0, 0]
  const IoutLimitInit: Byte := [0, 0, 1, 0, 0, 1, 1, 1]
  const VoutSrInit: Byte := [1, 0, 0, 0, 0, 0, 0, 0]
  const VoutFsInit: Byte := [1, 1, 0, 0, 0, 0, 0, 0]
  const CdcInit: Byte := [0, 0, 0, 0, 0, 1, 1, 1]
  const ModeInit: Byte := [0, 1, 0, 0, 0, 1, 0, 0]
  // MODE as `init` leaves it: bit 1 cleared, then bit 7 set.
  const ModeInitPfm: Byte := [0, 0, 0, 0, 0, 1, 0, 0]
  const ModeInitOn: Byte := [0, 0, 0, 0, 0, 1, 0, 1]

  /** The images above are 0b11100100, 0b00000001, 0b00000011,
      0b11100000, 0b00100010 and 0, and MODE ends at 0x20 and 0xA0. */
  lemma InitialImageValues()
    ensures ByteValue(IoutLimitInit) == 0xE4 && ByteValue(VoutSrInit) == 0x01
    ensures ByteValue(VoutFsInit) == 0x03 && ByteValue(CdcInit) == 0xE0
    ensures ByteValue(ModeInit) == 0x22 && ByteValue(ZeroImage) == 0
    ensures ByteValue(ModeInitPfm) == 0x20 && ByteValue(ModeInitOn) == 0xA0
  {
  }

  /** One side effect on the hardware: a `writeto_mem` of a full byte to a
      register address, or the enable pin driven to a level. */
  datatype Event = Write(addr: int, value: Byte) | PinLevel(on: bool)

  /** `e` writes a byte to `addr`. */
  predicate IsWriteTo(e: Event, addr: int) {
    e.Write? && e.addr == addr
  }

  /** The byte most recently written to `addr`, if any. */
  function LastWrite(log: seq<Event>, addr: int): (w: Option<Byte>)
  {
    if log == [] then None
    else if IsWriteTo(log[|log| - 1], addr) then Some(log[|log| - 1].value)
    else LastWrite(log[..|log| - 1], addr)
  }

  /** There is a last write to `addr` exactly when the log holds some write
      to `addr`, and the byte it reports was written there. */
  lemma {:induction false} LastWriteFound(log: seq<Event>, addr: int)
    ensures LastWrite(log, addr).None? <==> forall i :: 0 <= i < |log| ==> !IsWriteTo(log[i], addr)
    ensures LastWrite(log, addr).Some? ==> Write(addr, LastWrite(log, addr).value) in log
  {
    if log != [] {
      var init := log[..|log| - 1];
      LastWriteFound(init, addr);
      assert forall i :: 0 <= i < |init| ==> init[i] == log[i];
    }
  }

  /** Appending an event makes a write the last one to its address and
      hides nothing written to the other addresses. */
  lemma LastWriteAppend(log: seq<Event>, e: Event, addr: int)
    ensures LastWrite(log + [e], addr) == if IsWriteTo(e, addr) then Some(e.value) else LastWrite(log, addr)
  {
    assert (log + [e])[..|log|] == log;
  }

  /** A log that starts empty is just what was appended to it. */
  lemma EmptyLogPrefix()
    ensures forall w: seq<Event> :: [] + w == w
  {
  }

  /** The shadow copy `regs` (one byte per address 0x00-0x07) holds, for
      every writable address (0x00-0x06) written so far, the byte last
      written there; the STATUS shadow holds the byte last read instead. */
  ghost predicate ShadowMatches(log: seq<Event>, regs: seq<Byte>)
    requires |regs| == 8
  {
    forall a :: 0 <= a < StatusAddr && LastWrite(log, a).Some? ==> LastWrite(log, a).value == regs[a]
  }

  /** `setOCPResponseTime(c)` on VOUT_SR: a code in 0..3 lands in bits 4-5
      and the other six bits are kept; any other code leaves the byte as it was. */
  function OcpResponseTimeByte(sr: Byte, c: int): (r: Byte)
    ensures 0 <= c <= 3 ==> Bits45(r) == c && forall j :: 0 <= j < 8 && j != 4 && j != 5 ==> r[j] == sr[j]
    ensures !(0 <= c <= 3) ==> r == sr
  {
    if 0 <= c <= 3 then WithBits45(sr, c) else sr
  }

  /** `setSlewRate(s)` on VOUT_SR as written: for a valid code it clears
      bits 4-5 and ORs in the stored OCP delay, not `s`. */
  function SlewRateByte(sr: Byte, ocpDelay: nat, s: int): (r: Byte)
    requires ocpDelay < 4
    ensures 0 <= s <= 3 ==> Bits45(r) == ocpDelay && forall j :: 0 <= j < 8 && j != 4 && j != 5 ==> r[j] == sr[j]
    ensures !(0 <= s <= 3) ==> r == sr
  {
    if 0 <= s <= 3 then WithBits45(sr, ocpDelay) else sr
  }

  /** The slew-rate code has no influence on the register byte. */
  lemma SlewRateIgnoresCode(sr: Byte, ocpDelay: nat, s1: int, s2: int)
    requires ocpDelay < 4
    requires 0 <= s1 <= 3 && 0 <= s2 <= 3
    ensures SlewRateByte(sr, ocpDelay, s1) == SlewRateByte(sr, ocpDelay, s2)
  {
  }

  /** When bits 4-5 already hold the OCP delay, `setSlewRate` rewrites
      VOUT_SR unchanged, whatever slew rate is asked for. */
  lemma SlewRateIsNoOp(sr: Byte, ocpDelay: nat, s: int)
    requires ocpDelay < 4 && Bits45(sr) == ocpDelay
    ensures SlewRateByte(sr, ocpDelay, s) == sr
  {
    if 0 <= s <= 3 {
      WithBits45NoChange(sr, ocpDelay);
    }
  }

  /** `_FB_MODE` after `setFeedbackMechanism(m)`: 1 for "external", 0 for
      "internal", unchanged for any other string. */
  function FeedbackMode(mechanism: string, fbMode: int): (r: int)
    ensures mechanism == "external" ==> r == 1
    ensures mechanism == "internal" ==> r == 0
    ensures mechanism != "external" && mechanism != "internal" ==> r == fbMode
  {
    if mechanism == "external" then 1
    else if mechanism == "internal" then 0
    else fbMode
  }

  /** `_VOUT_FS |= (self._FB_MODE << 7)` for a mode of 0 or 1: bit 7 is
      set for mode 1; mode 0 ORs in nothing, so a set bit 7 is never
      cleared. */
  function FeedbackMechanismByte(fs: Byte, fbMode: int): (r: Byte)
    requires fbMode == 0 || fbMode == 1
    ensures fbMode == 1 ==> r[FeedbackModeBit] == 1
    ensures fbMode == 0 ==> r == fs
    ensures forall j :: 0 <= j < 7 ==> r[j] == fs[j]
  {
    if fbMode == 1 then SetBit(fs, FeedbackModeBit) else fs
  }

  /** The byte is `fs | (fbMode << 7)`, the OR with the image of the
      shifted mode. */
  lemma FeedbackMechanismByteIsOr(fs: Byte, fbMode: int)
    requires fbMode == 0 || fbMode == 1
    ensures FeedbackMechanismByte(fs, fbMode) == OrInto(fs, ByteOf(fbMode * 128))
  {
    if fbMode == 1 {
      assert ByteOf(128) == [0, 0, 0, 0, 0, 0, 0, 1];
    } else {
      assert ByteOf(0) == [0, 0, 0, 0, 0, 0, 0, 0];
    }
  }

  /** The byte is what line 279 computes on Python integers: the low byte
      of `_VOUT_FS | (_FB_MODE << 7)`. */
  lemma FeedbackMechanismByteIsIntOr(fs: Byte, fbMode: int)
    requires fbMode == 0 || fbMode == 1
    ensures FeedbackMechanismByte(fs, fbMode) == ByteOf(Or(ByteValue(fs), fbMode * 128))
  {
    FeedbackMechanismByteIsOr(fs, fbMode);
    ByteOfOr(ByteValue(fs), fbMode * 128);
    ByteOfValue(fs);
  }

  /** As written, selecting internal feedback after external leaves bit 7
      (external feedback) set in VOUT_FS. */
  lemma InternalFeedbackKeepsExternalBit(fs: Byte)
    requires fs[FeedbackModeBit] == 1
    ensures FeedbackMechanismByte(fs, 0)[FeedbackModeBit] == 1
  {
  }

  /** `_INTFB` selected by `setStepSize`, the step given in tenths of a
      millivolt: 2.5, 5, 7.5 and 10 mV select codes 0, 1, 2 and 3. */
  function StepSizeCode(stepTenthsMv: int): (r: Option<nat>)
    ensures r.Some? ==> r.value < 4 && stepTenthsMv == 25 * (r.value + 1)
    ensures r.None? <==> stepTenthsMv !in {25, 50, 75, 100}
  {
    if stepTenthsMv == 25 then Some(0)
    else if stepTenthsMv == 50 then Some(1)
    else if stepTenthsMv == 75 then Some(2)
    else if stepTenthsMv == 100 then Some(3)
    else None
  }

  /** `_VOUT_FS |= self._INTFB` for a code below 4: the code's bits are
      set in bits 0-1, no bit is cleared, and bits 2-7 are kept. */
  function StepSizeByte(fs: Byte, intfb: nat): (r: Byte)
    requires intfb < 4
    ensures forall j :: 0 <= j < 8 ==> r[j] >= fs[j]
    ensures r[0] == 1 <==> fs[0] == 1 || intfb % 2 == 1
    ensures r[1] == 1 <==> fs[1] == 1 || intfb / 2 == 1
    ensures forall j :: 2 <= j < 8 ==> r[j] == fs[j]
  {
    fs[0 := BitOr(fs[0], intfb % 2)][1 := BitOr(fs[1], intfb / 2)]
  }

  /** The byte is `fs | intfb`, the OR with the image of the code. */
  lemma StepSizeByteIsOr(fs: Byte, intfb: nat)
    requires intfb < 4
    ensures StepSizeByte(fs, intfb) == OrInto(fs, ByteOf(intfb))
  {
    if intfb == 0 {
      assert ByteOf(0) == [0, 0, 0, 0, 0, 0, 0, 0];
    } else if intfb == 1 {
      assert ByteOf(1) == [1, 0, 0, 0, 0, 0, 0, 0];
    } else if intfb == 2 {
      assert ByteOf(2) == [0, 1, 0, 0, 0, 0, 0, 0];
    } else {
      assert ByteOf(3) == [1, 1, 0, 0, 0, 0, 0, 0];
    }
  }

  /** The byte is what line 302 computes on Python integers: the low byte
      of `_VOUT_FS | _INTFB`. */
  lemma StepSizeByteIsIntOr(fs: Byte, intfb: nat)
    requires intfb < 4
    ensures StepSizeByte(fs, intfb) == ByteOf(Or(ByteValue(fs), intfb))
  {
    StepSizeByteIsOr(fs, intfb);
    ByteOfOr(ByteValue(fs), intfb);
    ByteOfValue(fs);
  }

  /** As written, a smaller step cannot be selected once bits 0-1 are
      both set: the byte stays as it was. */
  lemma StepSizeCannotLower(fs: Byte, intfb: nat)
    requires fs[0] == 1 && fs[1] == 1 && intfb < 4
    ensures StepSizeByte(fs, intfb) == fs
  {
  }

  /** `setCDCOption(o)` on CDC: 0 clears bit 3, 1 sets it, other values
      leave the byte; bits other than 3 are always kept. */
  function CdcOptionByte(cdc: Byte, option: int): (r: Byte)
    ensures option == 0 ==> r[CdcOptionBit] == 0
    ensures option == 1 ==> r[CdcOptionBit] == 1
    ensures option != 0 && option != 1 ==> r == cdc
    ensures forall j :: 0 <= j < 8 && j != CdcOptionBit ==> r[j] == cdc[j]
  {
    if option == 0 then ClearBit(cdc, CdcOptionBit)
    else if option == 1 then SetBit(cdc, CdcOptionBit)
    else cdc
  }

  /** `setCDCCompensation(k / 10 V)`: for k in 0..7 bits 0-2 become k and
      bits 3-7 are kept; any other compensation leaves the byte. */
  function CdcCompensationByte(cdc: Byte, tenthsV: int): (r: Byte)
    ensures 0 <= tenthsV <= 7 ==> Bits012(r) == tenthsV && forall j :: 3 <= j < 8 ==> r[j] == cdc[j]
    ensures !(0 <= tenthsV <= 7) ==> r == cdc
  {
    if 0 <= tenthsV <= 7 then WithBits012(cdc, tenthsV) else cdc
  }

  /** A mode-register toggle taking 0 or 1 (`FSWDoubling`, `FSWOperatingMode`):
      0 clears bit `k`, 1 sets it, other values leave the byte; no bit other
      than `k` changes. */
  function ToggleByte(mode: Byte, k: nat, input: int): (r: Byte)
    requires k < 8
    ensures input == 0 ==> r[k] == 0
    ensures input == 1 ==> r[k] == 1
    ensures input != 0 && input != 1 ==> r == mode
    ensures forall j :: 0 <= j < 8 && j != k ==> r[j] == mode[j]
  {
    if input == 0 then ClearBit(mode, k)
    else if input == 1 then SetBit(mode, k)
    else mode
  }

  /** The operating mode in bits 0-1 of STATUS. */
  datatype OperatingMode = Boost | Buck | BuckBoost | InvalidState

  /** The status-register code of each decoded mode. */
  function ModeCode(m: OperatingMode): (code: nat) {
    match m
    case Boost => 0
    case Buck => 1
    case BuckBoost => 2
    case InvalidState => 3
  }

  /** `_STATUS & 0x03`: the number bits 0-1 spell. */
  function ModeBits(status: Byte): (code: nat)
    ensures code < 4
    ensures code == 2 * status[1] as int + status[0] as int
  {
    FieldValues(status);
    ByteValue(status) % 4
  }

  /** `_STATUS & 0x03` decoded: 0 Boost, 1 Buck, 2 Buck-Boost, and 3 the
      invalid state. */
  function DecodeOperatingMode(status: Byte): (m: OperatingMode)
    ensures ModeCode(m) == ModeBits(status)
    ensures m == InvalidState <==> status[0] == 1 && status[1] == 1
  {
    var code := ModeBits(status);
    if code == 0 then Boost
    else if code == 1 then Buck
    else if code == 2 then BuckBoost
    else InvalidState
  }

  /** Any status byte whose low two bits carry the code of `m` decodes to
      `m`, whatever its other bits hold. */
  lemma DecodeModeCode(m: OperatingMode, status: Byte)
    requires ModeBits(status) == ModeCode(m)
    ensures DecodeOperatingMode(status) == m
  {
  }

  /** `(_STATUS >> 4) & 0x07 != 0`: one of the fault flags in bits 4-6
      (short circuit, overcurrent, overvoltage) is set. */
  function FaultDetected(status: Byte): (f: bool)
    ensures f <==> status[4] == 1 || status[5] == 1 || status[6] == 1
  {
    FieldValues(status);
    ByteValue(status) / 16 % 8 != 0
  }

  /** The binary digits of `n`, most significant first, without leading
      zeros ("0" for 0). */
  function BinaryDigits(n: nat): (s: string)
    ensures |s| >= 1
  {
    (if n < 2 then "" else BinaryDigits(n / 2)) + [if n % 2 == 0 then '0' else '1']
  }

  /** Python's `bin(n)` for a non-negative `n`. */
  function Bin(n: nat): (s: string) {
    "0b" + BinaryDigits(n)
  }

  /** `bin(s)` has a character at index 5 (and so at 3 and 4) exactly when
      `s` is at least 8: below that, indexing it as the "debug" report does
      raises `IndexError`. */
  lemma BinHasStatusDigits(n: nat)
    ensures 5 < |Bin(n)| <==> n >= 8
  {
    if n >= 8 {
      assert |BinaryDigits(n)| == |BinaryDigits(n / 2)| + 1;
      assert |BinaryDigits(n / 2)| == |BinaryDigits(n / 2 / 2)| + 1;
      assert |BinaryDigits(n / 2 / 2)| == |BinaryDigits(n / 2 / 2 / 2)| + 1;
    } else if n >= 4 {
      assert |BinaryDigits(n)| == |BinaryDigits(n / 2)| + 1;
      assert |BinaryDigits(n / 2)| == |BinaryDigits(n / 2 / 2)| + 1;
      assert |BinaryDigits(n / 2 / 2)| == 1;
    } else if n >= 2 {
      assert |BinaryDigits(n)| == |BinaryDigits(n / 2)| + 1;
      assert |BinaryDigits(n / 2)| == 1;
    }
  }

  /** A status below 8 has no fault bit: the report's `IndexError` can only
      come after a status read that did not disable the converter. */
  lemma ShortStatusHasNoFault(status: Byte)
    requires ByteValue(status) < 8
    ensures !FaultDetected(status)
  {
  }

  /** Bits 0-3 and 7 never trigger the protective disable. */
  lemma FaultIgnoresOtherBits(status: Byte, other: Byte)
    requires status[4..7] == other[4..7]
    ensures FaultDetected(status) == FaultDetected(other)
  {
    assert status[4] == status[4..7][0] && status[5] == status[4..7][1] && status[6] == status[4..7][2];
    assert other[4] == other[4..7][0] && other[5] == other[4..7][1] && other[6] == other[4..7][2];
  }
}
