/** The TPS55289 buck-boost converter driver (TPS55289.py), modelled as a
    class whose fields are the driver's shadow registers, its mirror fields
    and the level of the enable pin.  Every hardware side effect (a register
    write, the pin driven on or off) is appended to `log`. */
module Driver {
  import opened BitFields
  import opened PythonInt
  import opened Registers

  // The writes each group of steps in `init` makes, as functions of the
  // shadow bytes before the group.

  /** "Set Current Limit" and "Set Slew Rate": the current limit is enabled,
      the limit itself writes nothing, then the OCP delay code 0 and the slew
      rate code 1 each rewrite VOUT_SR with bits 4-5 clear. */
  function CurrentLimitAndSlewRateWrites(ioutLimit: Byte, voutSr: Byte): (w: seq<Event>)
  {
    var sr := WithBits45(voutSr, 0);
    [Write(IoutLimitAddr, SetBit(ioutLimit, CurrentLimitEnableBit)), Write(VoutSrAddr, sr), Write(VoutSrAddr, sr)]
  }

  /** "Set Feedback Mechanism": internal feedback rewrites VOUT_FS
      unchanged, then the 10 mV step ORs in step code 3. */
  function FeedbackWrites(voutFs: Byte): (w: seq<Event>)
  {
    [Write(VoutFsAddr, voutFs), Write(VoutFsAddr, StepSizeByte(voutFs, 3))]
  }

  /** CDC after each of the five CDC steps: SC, OCP and OVP indication
      enabled, internal compensation option, compensation setting 0. */
  function InitCdcSteps(cdc: Byte): (steps: seq<Byte>)
  {
    var c1 := SetBit(cdc, ScIndicationBit);
    var c2 := SetBit(c1, OcpIndicationBit);
    var c3 := SetBit(c2, OvpIndicationBit);
    var c4 := ClearBit(c3, CdcOptionBit);
    [c1, c2, c3, c4, WithBits012(c4, 0)]
  }

  function IndicationWrites(cdc: Byte): (w: seq<Event>)
  {
    var c := InitCdcSteps(cdc);
    [Write(CdcAddr, c[0]), Write(CdcAddr, c[1]), Write(CdcAddr, c[2])]
  }

  function CdcWrites(cdc: Byte): (w: seq<Event>)
  {
    var c := InitCdcSteps(cdc);
    IndicationWrites(cdc) + [Write(CdcAddr, c[3]), Write(CdcAddr, c[4])]
  }

  /** MODE after each of the three MODE steps: no frequency doubling,
      hiccup on, auto PFM. */
  function InitModeSteps(mode: Byte): (steps: seq<Byte>)
  {
    var m2 := ClearBit(mode, FswDoublingBit);
    var m3 := SetBit(m2, HiccupBit);
    [m2, m3, ClearBit(m3, FpwmBit)]
  }

  function ModeWrites(mode: Byte): (w: seq<Event>)
  {
    var m := InitModeSteps(mode);
    [Write(ModeAddr, m[0]), Write(ModeAddr, m[1]), Write(ModeAddr, m[2])]
  }

  /** Applied to the power-on images, the register steps of `init` write
      back the power-on value of every register except MODE, which ends
      with bit 1 clear (0x20) before `enable()` sets bit 7 (0xA0). */
  lemma InitRewritesResetImages()
    ensures CurrentLimitAndSlewRateWrites(IoutLimitInit, VoutSrInit)
      == [Write(IoutLimitAddr, IoutLimitInit), Write(VoutSrAddr, VoutSrInit), Write(VoutSrAddr, VoutSrInit)]
    ensures FeedbackWrites(VoutFsInit) == [Write(VoutFsAddr, VoutFsInit), Write(VoutFsAddr, VoutFsInit)]
    ensures CdcWrites(CdcInit) == [Write(CdcAddr, CdcInit), Write(CdcAddr, CdcInit), Write(CdcAddr, CdcInit),
      Write(CdcAddr, CdcInit), Write(CdcAddr, CdcInit)]
    ensures ModeWrites(ClearBit(ModeInit, OutputEnableBit)) == [Write(ModeAddr, ModeInit), Write(ModeAddr, ModeInit), Write(ModeAddr, ModeInitPfm)]
    ensures SetBit(IoutLimitInit, CurrentLimitEnableBit) == IoutLimitInit
    ensures WithBits45(VoutSrInit, 0) == VoutSrInit && StepSizeByte(VoutFsInit, 3) == VoutFsInit
    ensures InitCdcSteps(CdcInit)[4] == CdcInit
    ensures ClearBit(ModeInit, OutputEnableBit) == ModeInit
    ensures InitModeSteps(ModeInit)[2] == ModeInitPfm && SetBit(ModeInitPfm, OutputEnableBit) == ModeInitOn
  {
    assert SetBit(IoutLimitInit, CurrentLimitEnableBit) == IoutLimitInit;
    assert WithBits45(VoutSrInit, 0) == VoutSrInit;
    assert StepSizeByte(VoutFsInit, 3) == VoutFsInit;
    assert SetBit(CdcInit, ScIndicationBit) == CdcInit;
    assert SetBit(CdcInit, OcpIndicationBit) == CdcInit;
    assert SetBit(CdcInit, OvpIndicationBit) == CdcInit;
    assert ClearBit(CdcInit, CdcOptionBit) == CdcInit;
    assert WithBits012(CdcInit, 0) == CdcInit;
    assert ClearBit(ModeInit, OutputEnableBit) == ModeInit;
    assert ClearBit(ModeInit, FswDoublingBit) == ModeInit;
    assert SetBit(ModeInit, HiccupBit) == ModeInit;
    assert ClearBit(ModeInit, FpwmBit) == ModeInitPfm;
  }

  class TPS55289 {
    /** Level of the enable pin (a `machine.Pin` output). */
    var enablePin: bool

    // Shadow registers, one byte per device register.
    var refVoltageLsb: Byte
    var refVoltageMsb: Byte
    var ioutLimit: Byte
    var voutSr: Byte
    var voutFs: Byte
    var cdc: Byte
    var mode: Byte
    var status: Byte

    // Mirror fields: `_VREF`, `_currentLimitEN`, `_OCP_DELAY`, `_slewRate`,
    // `_FB_MODE`, `_INTFB`, `_SC_Mask`, `_OCP_MASK`, `_OVP_MASK`,
    // `_CDC_OPTION`, `_CDC_SETTING`, `_OE`, `_FSWDBL`, `_HICCUP`, `_DISCHG`, `_FPWM`.
    var vref: int
    var currentLimitEn: int
    var ocpDelay: nat
    var slewRate: int
    var fbMode: int
    var intfb: nat
    var scMask: int
    var ocpMask: int
    var ovpMask: int
    var cdcOption: int
    var cdcSetting: nat
    var oe: int
    var fswdbl: int
    var hiccup: int
    var dischg: int
    var fpwm: int

    // Attributes that only exist once a setter has assigned them under a
    // spelling no other code uses: `_SR` (setSlewRate), `_OCP_Mask`
    // (disableOCPIndication), `_OVP_Mask` (disableOVPIndication).
    var sr: Option<int>
    var ocpMaskStray: Option<int>
    var ovpMaskStray: Option<int>

    /** Every register write and pin change, oldest first. */
    var log: seq<Event>

    /** The shadow registers indexed by address 0x00-0x07. */
    function Shadow(): (regs: seq<Byte>)
      reads this`refVoltageLsb, this`refVoltageMsb, this`ioutLimit, this`voutSr
      reads this`voutFs, this`cdc, this`mode, this`status
      ensures |regs| == 8
    {
      [refVoltageLsb, refVoltageMsb, ioutLimit, voutSr, voutFs, cdc, mode, status]
    }

    // The relations between mirror fields and shadow bits, one predicate
    // per register; each setter keeps the one of the register it writes.
    // Not every mirror equals its bit: `_FB_MODE`, `_INTFB` and `_DISCHG`
    // only imply theirs, and `_FPWM`, `_OCP_MASK`, `_OVP_MASK` are not tied
    // to theirs at all.

    /** `_currentLimitEN` is bit 7 of IOUT_LIMIT. */
    ghost predicate IoutLimitValid()
      reads this`ioutLimit, this`currentLimitEn
    {
      currentLimitEn == ioutLimit[CurrentLimitEnableBit]
    }

    /** `_OCP_DELAY` is what bits 4-5 of VOUT_SR hold. */
    ghost predicate VoutSrValid()
      reads this`voutSr, this`ocpDelay
    {
      Bits45(voutSr) == ocpDelay
    }

    /** VOUT_FS only accumulates bits, so it holds at least what `_FB_MODE`
        and `_INTFB` select. */
    ghost predicate VoutFsValid()
      reads this`voutFs, this`fbMode, this`intfb
    {
      && (fbMode == 0 || fbMode == 1) && (fbMode == 1 ==> voutFs[FeedbackModeBit] == 1)
      && intfb < 4 && (intfb % 2 == 1 ==> voutFs[0] == 1) && (intfb / 2 == 1 ==> voutFs[1] == 1)
    }

    /** `_SC_Mask`, `_CDC_OPTION` and `_CDC_SETTING` are read from CDC;
        `_OCP_MASK` and `_OVP_MASK` are never set to anything but 1. */
    ghost predicate CdcValid()
      reads this`cdc, this`scMask, this`ocpMask, this`ovpMask, this`cdcOption, this`cdcSetting
    {
      && scMask == cdc[ScIndicationBit]
      && ocpMask == 1 && ovpMask == 1
      && cdcOption == cdc[CdcOptionBit]
      && Bits012(cdc) == cdcSetting
    }

    /** The pin level, `_OE` and MODE bit 7 always agree; `_DISCHG` = 1
        implies bit 4, but not the converse; `_FPWM` need not match bit 1
        (it starts at 0 while bit 1 starts set). */
    ghost predicate ModeValid()
      reads this`mode, this`enablePin, this`oe, this`fswdbl, this`hiccup, this`dischg, this`fpwm
    {
      && (enablePin <==> mode[OutputEnableBit] == 1)
      && oe == mode[OutputEnableBit]
      && fswdbl == mode[FswDoublingBit]
      && hiccup == mode[HiccupBit]
      && (dischg == 0 || dischg == 1) && (dischg == 1 ==> mode[DischargeBit] == 1)
      && (fpwm == 0 || fpwm == 1)
    }

    /** Every writable shadow register holds the byte last written to its
        address. */
    ghost predicate ShadowCurrent()
      reads this`log, this`refVoltageLsb, this`refVoltageMsb, this`ioutLimit, this`voutSr
      reads this`voutFs, this`cdc, this`mode, this`status
    {
      ShadowMatches(log, Shadow())
    }

    /** The object invariant: the mirror fields are related to the shadow
        bits as the register predicates above say (equal, implied, or only
        range-bounded), and the shadow registers are in step with the bus. */
    ghost predicate Valid()
      reads this
    {
      && IoutLimitValid() && VoutSrValid() && VoutFsValid() && CdcValid() && ModeValid()
      && ShadowCurrent()
    }

    /** The state `__init__` leaves behind: the power-on images rewritten by
        `init`'s register steps, the reference registers holding `dacCode`,
        and the converter enabled unless the status report raised
        `IndexError` (a status below 8). */
    ghost predicate PowerOnInitialized(dacCode: int, statusByte: Byte)
      reads this
    {
      && (enablePin <==> ByteValue(statusByte) >= 8)
      && (oe == (if ByteValue(statusByte) < 8 then 0 else 1))
      && (log ==
            [PinLevel(false), Write(ModeAddr, ModeInit)]
            + [Write(RefVoltageLsbAddr, refVoltageLsb), Write(RefVoltageMsbAddr, refVoltageMsb)]
            + [Write(IoutLimitAddr, IoutLimitInit), Write(VoutSrAddr, VoutSrInit), Write(VoutSrAddr, VoutSrInit)]
            + [Write(VoutFsAddr, VoutFsInit), Write(VoutFsAddr, VoutFsInit)]
            + [Write(CdcAddr, CdcInit), Write(CdcAddr, CdcInit), Write(CdcAddr, CdcInit), Write(CdcAddr, CdcInit), Write(CdcAddr, CdcInit)]
            + [Write(ModeAddr, ModeInit), Write(ModeAddr, ModeInit), Write(ModeAddr, ModeInitPfm)]
            + (if ByteValue(statusByte) < 8 then [] else
                (if FaultDetected(statusByte) then [PinLevel(false), Write(ModeAddr, ModeInitPfm)] else [])
                + [PinLevel(true), Write(ModeAddr, ModeInitOn)]))
      && vref == dacCode && (refVoltageLsb, refVoltageMsb) == SplitReference(dacCode)
      && ioutLimit == IoutLimitInit && voutSr == VoutSrInit && voutFs == VoutFsInit && cdc == CdcInit
      && mode == (if ByteValue(statusByte) < 8 then ModeInitPfm else ModeInitOn) && status == statusByte
      && currentLimitEn == 1 && ocpDelay == 0 && slewRate == 1 && sr == Some(1) && fbMode == 0 && intfb == 3
      && scMask == 1 && ocpMask == 1 && ovpMask == 1 && cdcOption == 0 && cdcSetting == 0
      && ocpMaskStray == None && ovpMaskStray == None
      && dischg == 0 && fpwm == 0 && fswdbl == 0 && hiccup == 1
    }

    /** `__init__`: the initial shadow bytes and mirror fields, then `init()`.
        `voltageMv` and `dacCode` stand for the requested output voltage (the
        first in millivolts for the range check, the second the DAC code the
        driver computes from it); `currentLimitMa` is the requested limit in
        milliamperes; `statusByte` is what the status register reads. */
    constructor (voltageMv: int, dacCode: int, currentLimitMa: int, statusByte: Byte)
      ensures Valid()
      ensures PowerOnInitialized(dacCode, statusByte)
    {
      enablePin := false;
      refVoltageLsb, refVoltageMsb := ZeroImage, ZeroImage;
      ioutLimit, voutSr, voutFs := IoutLimitInit, VoutSrInit, VoutFsInit;
      cdc, mode, status := CdcInit, ModeInit, ZeroImage;
      vref := 0;
      currentLimitEn := 1;
      ocpDelay, slewRate := 0, 1;
      fbMode, intfb := 0, 3;
      scMask, ocpMask, ovpMask := 1, 1, 1;
      cdcOption, cdcSetting := 0, 0;
      oe, fswdbl, hiccup, dischg, fpwm := 0, 0, 1, 0, 0;
      sr, ocpMaskStray, ovpMaskStray := None, None, None;
      log := [];
      new;
      InitFromPowerOn(voltageMv, dacCode, currentLimitMa, statusByte);
    }

    /** The shadow bytes and mirror fields `__init__` assigns before it
        calls `init()`, with nothing written yet. */
    ghost predicate PowerOn()
      reads this
    {
      && !enablePin && refVoltageLsb == ZeroImage && refVoltageMsb == ZeroImage
      && ioutLimit == IoutLimitInit && voutSr == VoutSrInit && voutFs == VoutFsInit
      && cdc == CdcInit && mode == ModeInit && status == ZeroImage && vref == 0
      && currentLimitEn == 1 && ocpDelay == 0 && slewRate == 1 && fbMode == 0 && intfb == 3
      && scMask == 1 && ocpMask == 1 && ovpMask == 1 && cdcOption == 0 && cdcSetting == 0
      && oe == 0 && fswdbl == 0 && hiccup == 1 && dischg == 0 && fpwm == 0
      && sr == None && ocpMaskStray == None && ovpMaskStray == None && log == []
    }

    /** The `self.init()` call that ends `__init__`, from the power-on
        state: `_INTFB` is 3, so the division cannot raise, and the status
        report's `IndexError` for a status below 8 leaves the converter
        disabled after the MODE steps. */
    method InitFromPowerOn(voltageMv: int, dacCode: int, currentLimitMa: int, statusByte: Byte)
      requires PowerOn()
      modifies this
      ensures Valid()
      ensures PowerOnInitialized(dacCode, statusByte)
    {
      var divisionError, indexError := Init(voltageMv, dacCode, currentLimitMa, statusByte);
      OrZeroLeft(dacCode);
      EmptyLogPrefix();
      InitRewritesResetImages();
      assert !divisionError;
      assert Initialized(IoutLimitInit, VoutSrInit, VoutFsInit, CdcInit, ModeInit, statusByte);
    }

    /** `setRegister`: one full-byte write to a register address. */
    method SetRegister(register: Byte, registerAddress: int)
      modifies this`log
      ensures log == old(log) + [Write(registerAddress, register)]
      ensures forall a :: LastWrite(log, a) == if a == registerAddress then Some(register) else LastWrite(old(log), a)
    {
      log := log + [Write(registerAddress, register)];
      forall a ensures LastWrite(log, a) == if a == registerAddress then Some(register) else LastWrite(old(log), a) {
        LastWriteAppend(old(log), Write(registerAddress, register), a);
      }
    }

    /** `self._enablePin.on()` / `.off()`. */
    method DrivePin(on: bool)
      modifies this`enablePin, this`log
      ensures enablePin == on
      ensures log == old(log) + [PinLevel(on)]
      ensures forall a :: LastWrite(log, a) == LastWrite(old(log), a)
    {
      enablePin := on;
      log := log + [PinLevel(on)];
      forall a ensures LastWrite(log, a) == LastWrite(old(log), a) {
        LastWriteAppend(old(log), PinLevel(on), a);
      }
    }

    // ----- REF registers -----

    /** `setOutputVoltage`: the range check only warns; `_VREF |= code`;
        `_VREF / _INTFB` then raises ZeroDivisionError when the step code is
        0, before any register is written; otherwise the low byte goes to
        0x00 and then the low three bits of the high byte to 0x01. */
    method SetOutputVoltage(voltageMv: int, dacCode: int) returns (warned: bool, raised: bool)
      requires ShadowCurrent()
      modifies this`vref, this`refVoltageLsb, this`refVoltageMsb, this`log
      ensures ShadowCurrent()
      ensures warned <==> !(800 <= voltageMv <= 22000)
      ensures vref == Or(old(vref), dacCode)
      ensures raised <==> intfb == 0
      ensures raised ==> refVoltageLsb == old(refVoltageLsb) && refVoltageMsb == old(refVoltageMsb) && log == old(log)
      ensures !raised ==> (refVoltageLsb, refVoltageMsb) == SplitReference(vref)
      ensures !raised ==> log == old(log) + [Write(RefVoltageLsbAddr, refVoltageLsb), Write(RefVoltageMsbAddr, refVoltageMsb)]
    {
      warned := !(800 <= voltageMv && voltageMv <= 22000);
      vref := Or(vref, dacCode);
      if intfb == 0 {
        raised := true;
        return;
      }
      raised := false;
      var split := SplitReference(vref);
      refVoltageLsb := split.0;
      refVoltageMsb := split.1;
      SetRegister(refVoltageLsb, RefVoltageLsbAddr);
      SetRegister(refVoltageMsb, RefVoltageMsbAddr);
    }

    // ----- IOUT_LIMIT register -----

    method EnableOutputCurrentLimit()
      requires IoutLimitValid() && ShadowCurrent()
      modifies this`currentLimitEn, this`ioutLimit, this`log
      ensures IoutLimitValid() && ShadowCurrent()
      ensures currentLimitEn == 1 && ioutLimit == SetBit(old(ioutLimit), CurrentLimitEnableBit)
      ensures log == old(log) + [Write(IoutLimitAddr, ioutLimit)]
    {
      currentLimitEn := 1;
      ioutLimit := SetBit(ioutLimit, CurrentLimitEnableBit);
      SetRegister(ioutLimit, IoutLimitAddr);
    }

    method DisableOutputCurrentLimit()
      requires IoutLimitValid() && ShadowCurrent()
      modifies this`currentLimitEn, this`ioutLimit, this`log
      ensures IoutLimitValid() && ShadowCurrent()
      ensures currentLimitEn == 0 && ioutLimit == ClearBit(old(ioutLimit), CurrentLimitEnableBit)
      ensures log == old(log) + [Write(IoutLimitAddr, ioutLimit)]
    {
      currentLimitEn := 0;
      ioutLimit := ClearBit(ioutLimit, CurrentLimitEnableBit);
      SetRegister(ioutLimit, IoutLimitAddr);
    }

    /** `setOutputCurrentLimit`: its check `(x % 0.05 != 0) | (x >= 0.0) |
        (x <= 6.35)` holds for every number, so it always warns; it then
        only updates floating-point attributes and writes no register. */
    method SetOutputCurrentLimit(currentLimitMa: int) returns (warned: bool)
      ensures warned
    {
      warned := currentLimitMa % 50 != 0 || currentLimitMa >= 0 || currentLimitMa <= 6350;
    }

    // ----- VOUT_SR register -----

    method SetOCPResponseTime(ocpResponseTime: int)
      requires VoutSrValid() && ShadowCurrent()
      modifies this`ocpDelay, this`voutSr, this`log
      ensures VoutSrValid() && ShadowCurrent()
      ensures ocpDelay == if 0 <= ocpResponseTime <= 3 then ocpResponseTime else old(ocpDelay)
      ensures voutSr == OcpResponseTimeByte(old(voutSr), ocpResponseTime)
      ensures log == old(log) + [Write(VoutSrAddr, voutSr)]
    {
      if 0 <= ocpResponseTime <= 3 {
        ocpDelay := ocpResponseTime;
        voutSr := WithBits45(voutSr, ocpDelay);
      }
      SetRegister(voutSr, VoutSrAddr);
    }

    /** `setSlewRate` as written: a valid code is recorded only in `_SR`,
        and bits 4-5 receive `_OCP_DELAY`, which they already hold, so
        VOUT_SR is rewritten unchanged. */
    method SetSlewRate(slewRateCode: int)
      requires VoutSrValid() && ShadowCurrent()
      modifies this`sr, this`voutSr, this`log
      ensures VoutSrValid() && ShadowCurrent()
      ensures sr == if 0 <= slewRateCode <= 3 then Some(slewRateCode) else old(sr)
      ensures voutSr == SlewRateByte(old(voutSr), ocpDelay, slewRateCode)
      ensures voutSr == old(voutSr)
      ensures log == old(log) + [Write(VoutSrAddr, voutSr)]
    {
      if 0 <= slewRateCode <= 3 {
        sr := Some(slewRateCode);
        voutSr := WithBits45(voutSr, ocpDelay);
      }
      SlewRateIsNoOp(old(voutSr), ocpDelay, slewRateCode);
      SetRegister(voutSr, VoutSrAddr);
    }

    // ----- VOUT_FS register -----

    /** `setFeedbackMechanism`: the mode bit is ORed in, never cleared. */
    method SetFeedbackMechanism(mechanism: string)
      requires VoutFsValid() && ShadowCurrent()
      modifies this`fbMode, this`voutFs, this`log
      ensures VoutFsValid() && ShadowCurrent()
      ensures fbMode == FeedbackMode(mechanism, old(fbMode))
      ensures voutFs == FeedbackMechanismByte(old(voutFs), fbMode)
      ensures log == old(log) + [Write(VoutFsAddr, voutFs)]
    {
      fbMode := FeedbackMode(mechanism, fbMode);
      voutFs := FeedbackMechanismByte(voutFs, fbMode);
      SetRegister(voutFs, VoutFsAddr);
    }

    /** `setStepSize`, the step in tenths of a millivolt: the (possibly
        unchanged) step code is ORed into bits 0-1, never cleared. */
    method SetStepSize(stepTenthsMv: int)
      requires VoutFsValid() && ShadowCurrent()
      modifies this`intfb, this`voutFs, this`log
      ensures VoutFsValid() && ShadowCurrent()
      ensures intfb == match StepSizeCode(stepTenthsMv) case Some(c) => c case None => old(intfb)
      ensures voutFs == StepSizeByte(old(voutFs), intfb)
      ensures log == old(log) + [Write(VoutFsAddr, voutFs)]
    {
      match StepSizeCode(stepTenthsMv) {
        case Some(c) => intfb := c;
        case None =>
      }
      voutFs := StepSizeByte(voutFs, intfb);
      SetRegister(voutFs, VoutFsAddr);
    }

    // ----- CDC register -----

    method EnableSCIndication()
      requires CdcValid() && ShadowCurrent()
      modifies this`scMask, this`cdc, this`log
      ensures CdcValid() && ShadowCurrent()
      ensures scMask == 1 && cdc == SetBit(old(cdc), ScIndicationBit)
      ensures log == old(log) + [Write(CdcAddr, cdc)]
    {
      scMask := 1;
      cdc := SetBit(cdc, ScIndicationBit);
      SetRegister(cdc, CdcAddr);
    }

    method DisableSCIndication()
      requires CdcValid() && ShadowCurrent()
      modifies this`scMask, this`cdc, this`log
      ensures CdcValid() && ShadowCurrent()
      ensures scMask == 0 && cdc == ClearBit(old(cdc), ScIndicationBit)
      ensures log == old(log) + [Write(CdcAddr, cdc)]
    {
      scMask := 0;
      cdc := ClearBit(cdc, ScIndicationBit);
      SetRegister(cdc, CdcAddr);
    }

    method EnableOCPIndication()
      requires CdcValid() && ShadowCurrent()
      modifies this`ocpMask, this`cdc, this`log
      ensures CdcValid() && ShadowCurrent()
      ensures ocpMask == 1 && cdc == SetBit(old(cdc), OcpIndicationBit)
      ensures log == old(log) + [Write(CdcAddr, cdc)]
    {
      ocpMask := 1;
      cdc := SetBit(cdc, OcpIndicationBit);
      SetRegister(cdc, CdcAddr);
    }

    /** As written, the mirror `_OCP_MASK` keeps 1: the 0 goes to `_OCP_Mask`. */
    method DisableOCPIndication()
      requires CdcValid() && ShadowCurrent()
      modifies this`ocpMaskStray, this`cdc, this`log
      ensures CdcValid() && ShadowCurrent()
      ensures ocpMaskStray == Some(0) && cdc == ClearBit(old(cdc), OcpIndicationBit)
      ensures ocpMask == 1 && cdc[OcpIndicationBit] == 0
      ensures log == old(log) + [Write(CdcAddr, cdc)]
    {
      ocpMaskStray := Some(0);
      cdc := ClearBit(cdc, OcpIndicationBit);
      SetRegister(cdc, CdcAddr);
    }

    method EnableOVPIndication()
      requires CdcValid() && ShadowCurrent()
      modifies this`ovpMask, this`cdc, this`log
      ensures CdcValid() && ShadowCurrent()
      ensures ovpMask == 1 && cdc == SetBit(old(cdc), OvpIndicationBit)
      ensures log == old(log) + [Write(CdcAddr, cdc)]
    {
      ovpMask := 1;
      cdc := SetBit(cdc, OvpIndicationBit);
      SetRegister(cdc, CdcAddr);
    }

    /** As written, the mirror `_OVP_MASK` keeps 1: the 0 goes to `_OVP_Mask`. */
    method DisableOVPIndication()
      requires CdcValid() && ShadowCurrent()
      modifies this`ovpMaskStray, this`cdc, this`log
      ensures CdcValid() && ShadowCurrent()
      ensures ovpMaskStray == Some(0) && cdc == ClearBit(old(cdc), OvpIndicationBit)
      ensures ovpMask == 1 && cdc[OvpIndicationBit] == 0
      ensures log == old(log) + [Write(CdcAddr, cdc)]
    {
      ovpMaskStray := Some(0);
      cdc := ClearBit(cdc, OvpIndicationBit);
      SetRegister(cdc, CdcAddr);
    }

    method SetCDCOption(cdcOptionCode: int)
      requires CdcValid() && ShadowCurrent()
      modifies this`cdcOption, this`cdc, this`log
      ensures CdcValid() && ShadowCurrent()
      ensures cdcOption == if cdcOptionCode == 0 || cdcOptionCode == 1 then cdcOptionCode else old(cdcOption)
      ensures cdc == CdcOptionByte(old(cdc), cdcOptionCode)
      ensures log == old(log) + [Write(CdcAddr, cdc)]
    {
      if cdcOptionCode == 0 || cdcOptionCode == 1 {
        cdcOption := cdcOptionCode;
      }
      cdc := CdcOptionByte(cdc, cdcOptionCode);
      SetRegister(cdc, CdcAddr);
    }

    /** `setCDCCompensation(k / 10 V)`, the compensation in tenths of a volt. */
    method SetCDCCompensation(tenthsV: int)
      requires CdcValid() && ShadowCurrent()
      modifies this`cdcSetting, this`cdc, this`log
      ensures CdcValid() && ShadowCurrent()
      ensures cdcSetting == if 0 <= tenthsV <= 7 then tenthsV else old(cdcSetting)
      ensures cdc == CdcCompensationByte(old(cdc), tenthsV)
      ensures log == old(log) + [Write(CdcAddr, cdc)]
    {
      if 0 <= tenthsV <= 7 {
        cdcSetting := tenthsV;
      }
      cdc := CdcCompensationByte(cdc, tenthsV);
      SetRegister(cdc, CdcAddr);
    }

    // ----- MODE register -----

    /** `enable`: the pin is driven on before MODE (bit 7 set) is written. */
    method Enable()
      requires ModeValid() && ShadowCurrent()
      modifies this`enablePin, this`oe, this`mode, this`log
      ensures ModeValid() && ShadowCurrent()
      ensures enablePin && oe == 1
      ensures mode == SetBit(old(mode), OutputEnableBit)
      ensures log == old(log) + [PinLevel(true), Write(ModeAddr, mode)]
    {
      DrivePin(true);
      oe := 1;
      mode := SetBit(mode, OutputEnableBit);
      SetRegister(mode, ModeAddr);
    }

    /** `disable`: the pin is driven off before MODE (bit 7 clear) is written. */
    method Disable()
      requires ModeValid() && ShadowCurrent()
      modifies this`enablePin, this`oe, this`mode, this`log
      ensures ModeValid() && ShadowCurrent()
      ensures !enablePin && oe == 0
      ensures mode == ClearBit(old(mode), OutputEnableBit)
      ensures log == old(log) + [PinLevel(false), Write(ModeAddr, mode)]
      ensures unchanged(this`ioutLimit, this`currentLimitEn, this`voutSr, this`ocpDelay, this`sr, this`voutFs, this`fbMode, this`intfb)
      ensures unchanged(this`cdc, this`scMask, this`ocpMask, this`ovpMask, this`cdcOption, this`cdcSetting, this`status)
      ensures unchanged(this`vref, this`refVoltageLsb, this`refVoltageMsb, this`dischg, this`slewRate, this`ocpMaskStray, this`ovpMaskStray)
    {
      DrivePin(false);
      oe := 0;
      mode := ClearBit(mode, OutputEnableBit);
      SetRegister(mode, ModeAddr);
    }

    method FSWDoubling(input: int)
      requires ModeValid() && ShadowCurrent()
      modifies this`fswdbl, this`mode, this`log
      ensures ModeValid() && ShadowCurrent()
      ensures fswdbl == if input == 0 || input == 1 then input else old(fswdbl)
      ensures mode == ToggleByte(old(mode), FswDoublingBit, input)
      ensures log == old(log) + [Write(ModeAddr, mode)]
    {
      if input == 0 || input == 1 {
        fswdbl := input;
      }
      mode := ToggleByte(mode, FswDoublingBit, input);
      SetRegister(mode, ModeAddr);
    }

    method EnableHiccupMode()
      requires ModeValid() && ShadowCurrent()
      modifies this`hiccup, this`mode, this`log
      ensures ModeValid() && ShadowCurrent()
      ensures hiccup == 1 && mode == SetBit(old(mode), HiccupBit)
      ensures log == old(log) + [Write(ModeAddr, mode)]
    {
      hiccup := 1;
      mode := SetBit(mode, HiccupBit);
      SetRegister(mode, ModeAddr);
    }

    method DisableHiccupMode()
      requires ModeValid() && ShadowCurrent()
      modifies this`hiccup, this`mode, this`log
      ensures ModeValid() && ShadowCurrent()
      ensures hiccup == 0 && mode == ClearBit(old(mode), HiccupBit)
      ensures log == old(log) + [Write(ModeAddr, mode)]
    {
      hiccup := 0;
      mode := ClearBit(mode, HiccupBit);
      SetRegister(mode, ModeAddr);
    }

    method EnableVOUTDischarge()
      requires ModeValid() && ShadowCurrent()
      modifies this`dischg, this`mode, this`log
      ensures ModeValid() && ShadowCurrent()
      ensures dischg == 1 && mode == SetBit(old(mode), DischargeBit)
      ensures log == old(log) + [Write(ModeAddr, mode)]
    {
      dischg := 1;
      mode := SetBit(mode, DischargeBit);
      SetRegister(mode, ModeAddr);
    }

    /** `disableVOUTDischarge` as written: the mirror becomes 0 but the
        register bit is ORed in, exactly as `enableVOUTDischarge` does. */
    method DisableVOUTDischarge()
      requires ModeValid() && ShadowCurrent()
      modifies this`dischg, this`mode, this`log
      ensures ModeValid() && ShadowCurrent()
      ensures dischg == 0 && mode == SetBit(old(mode), DischargeBit)
      ensures mode[DischargeBit] == 1
      ensures log == old(log) + [Write(ModeAddr, mode)]
    {
      dischg := 0;
      mode := SetBit(mode, DischargeBit);
      SetRegister(mode, ModeAddr);
    }

    method FSWOperatingMode(input: int)
      requires ModeValid() && ShadowCurrent()
      modifies this`fpwm, this`mode, this`log
      ensures ModeValid() && ShadowCurrent()
      ensures fpwm == if input == 0 || input == 1 then input else old(fpwm)
      ensures mode == ToggleByte(old(mode), FpwmBit, input)
      ensures log == old(log) + [Write(ModeAddr, mode)]
    {
      if input == 0 || input == 1 {
        fpwm := input;
      }
      mode := ToggleByte(mode, FpwmBit, input);
      SetRegister(mode, ModeAddr);
    }

    // ----- STATUS register -----

    /** `readStatusRegister`: `statusByte` is the byte read from 0x07.  A
        set fault bit among bits 4-6 disables the converter.  In "debug"
        mode the report first indexes characters 3-5 of `bin(status)`, which
        raises `IndexError` (`raised`) unless the status is at least 8;
        otherwise the operating mode in bits 0-1 is decoded and reported. */
    method ReadStatusRegister(debugOrMonitor: string, statusByte: Byte) returns (decoded: Option<OperatingMode>, raised: bool)
      requires ModeValid() && ShadowCurrent()
      modifies this`status, this`enablePin, this`oe, this`mode, this`log
      ensures ModeValid() && ShadowCurrent()
      ensures status == statusByte
      ensures FaultDetected(statusByte) ==>
        && !enablePin && oe == 0 && mode == ClearBit(old(mode), OutputEnableBit)
        && log == old(log) + [PinLevel(false), Write(ModeAddr, mode)]
      ensures !FaultDetected(statusByte) ==>
        enablePin == old(enablePin) && oe == old(oe) && mode == old(mode) && log == old(log)
      ensures raised <==> debugOrMonitor == "debug" && ByteValue(statusByte) < 8
      ensures decoded == if debugOrMonitor == "debug" && !raised then Some(DecodeOperatingMode(statusByte)) else None
    {
      status := statusByte;
      if FaultDetected(status) {
        Disable();
      }
      decoded, raised := None, false;
      if debugOrMonitor == "debug" {
        BinHasStatusDigits(ByteValue(status));
        if |Bin(ByteValue(status))| <= 5 {
          raised := true;
          return;
        }
        decoded := Some(DecodeOperatingMode(status));
      }
    }

    // ----- Initialisation -----

    // `init` is split into stages.  Besides its modifies clause, each stage
    // states as `unchanged` the fields that the stages after it rely on.

    /** The "Set Current Limit" and "Set Slew Rate" steps of `init`. */
    method InitCurrentLimitAndSlewRate(currentLimitMa: int)
      requires IoutLimitValid() && VoutSrValid() && ShadowCurrent()
      modifies this`currentLimitEn, this`ioutLimit, this`ocpDelay, this`voutSr, this`sr, this`log
      ensures IoutLimitValid() && VoutSrValid() && ShadowCurrent()
      ensures currentLimitEn == 1 && ioutLimit == SetBit(old(ioutLimit), CurrentLimitEnableBit)
      ensures ocpDelay == 0 && voutSr == WithBits45(old(voutSr), 0) && sr == Some(1)
      ensures log == old(log) + CurrentLimitAndSlewRateWrites(old(ioutLimit), old(voutSr))
    {
      EnableOutputCurrentLimit();
      var warned := SetOutputCurrentLimit(currentLimitMa);
      SetOCPResponseTime(0);
      SetSlewRate(1);
    }

    /** The "Set Feedback Mechanism" steps of `init`: internal feedback,
        then a 10 mV step. */
    method InitFeedback()
      requires VoutFsValid() && ShadowCurrent()
      modifies this`fbMode, this`intfb, this`voutFs, this`log
      ensures VoutFsValid() && ShadowCurrent()
      ensures fbMode == 0 && intfb == 3 && voutFs == StepSizeByte(old(voutFs), 3)
      ensures log == old(log) + FeedbackWrites(old(voutFs))
    {
      SetFeedbackMechanism("internal");
      SetStepSize(100);
    }

    /** The SC, OCP and OVP indication steps of `init`. */
    method InitIndications()
      requires CdcValid() && ShadowCurrent()
      modifies this`scMask, this`ocpMask, this`ovpMask, this`cdc, this`log
      ensures CdcValid() && ShadowCurrent()
      ensures scMask == 1 && cdc == InitCdcSteps(old(cdc))[2]
      ensures log == old(log) + IndicationWrites(old(cdc))
    {
      EnableSCIndication();
      EnableOCPIndication();
      EnableOVPIndication();
    }

    /** The "Set CDC Register Parameters" steps of `init`. */
    method InitCdc()
      requires CdcValid() && ShadowCurrent()
      modifies this`scMask, this`ocpMask, this`ovpMask, this`cdcOption, this`cdcSetting, this`cdc, this`log
      ensures CdcValid() && ShadowCurrent()
      ensures scMask == 1 && cdcOption == 0 && cdcSetting == 0
      ensures cdc == InitCdcSteps(old(cdc))[4]
      ensures log == old(log) + CdcWrites(old(cdc))
      ensures unchanged(this`ioutLimit, this`currentLimitEn, this`voutSr, this`ocpDelay, this`sr, this`voutFs, this`fbMode, this`intfb)
      ensures unchanged(this`vref, this`refVoltageLsb, this`refVoltageMsb, this`dischg, this`slewRate, this`ocpMaskStray, this`ovpMaskStray)
    {
      InitIndications();
      SetCDCOption(0);
      SetCDCCompensation(0);
    }

    /** The MODE steps of `init`: no frequency doubling, hiccup on, and
        auto PFM (bit 1 clear).  `disableVOUTDischarge` is named there
        without parentheses, so it is never called. */
    method InitMode()
      requires ModeValid() && ShadowCurrent()
      modifies this`fswdbl, this`hiccup, this`fpwm, this`mode, this`log
      ensures ModeValid() && ShadowCurrent()
      ensures fswdbl == 0 && hiccup == 1 && fpwm == 0
      ensures mode == InitModeSteps(old(mode))[2]
      ensures log == old(log) + ModeWrites(old(mode))
      ensures unchanged(this`ioutLimit, this`currentLimitEn, this`voutSr, this`ocpDelay, this`sr, this`voutFs, this`fbMode, this`intfb)
      ensures unchanged(this`cdc, this`scMask, this`ocpMask, this`ovpMask, this`cdcOption, this`cdcSetting)
      ensures unchanged(this`vref, this`refVoltageLsb, this`refVoltageMsb, this`dischg, this`slewRate, this`ocpMaskStray, this`ovpMaskStray)
    {
      FSWDoubling(0);
      EnableHiccupMode();
      FSWOperatingMode(0);
    }

    /** The current limit, slew rate and feedback steps of `init`. */
    method InitOutputSettings(currentLimitMa: int)
      requires IoutLimitValid() && VoutSrValid() && VoutFsValid() && ShadowCurrent()
      modifies this`currentLimitEn, this`ioutLimit, this`ocpDelay, this`voutSr, this`sr
      modifies this`fbMode, this`intfb, this`voutFs, this`log
      ensures IoutLimitValid() && VoutSrValid() && VoutFsValid() && ShadowCurrent()
      ensures currentLimitEn == 1 && ioutLimit == SetBit(old(ioutLimit), CurrentLimitEnableBit)
      ensures ocpDelay == 0 && voutSr == WithBits45(old(voutSr), 0) && sr == Some(1)
      ensures fbMode == 0 && intfb == 3 && voutFs == StepSizeByte(old(voutFs), 3)
      ensures log == old(log) + CurrentLimitAndSlewRateWrites(old(ioutLimit), old(voutSr)) + FeedbackWrites(old(voutFs))
      ensures unchanged(this`vref, this`refVoltageLsb, this`refVoltageMsb, this`dischg, this`slewRate, this`ocpMaskStray, this`ovpMaskStray)
    {
      InitCurrentLimitAndSlewRate(currentLimitMa);
      InitFeedback();
    }

    /** The CDC and MODE steps of `init`. */
    method InitCdcAndMode()
      requires CdcValid() && ModeValid() && ShadowCurrent()
      modifies this`scMask, this`ocpMask, this`ovpMask, this`cdcOption, this`cdcSetting, this`cdc
      modifies this`fswdbl, this`hiccup, this`fpwm, this`mode, this`log
      ensures CdcValid() && ModeValid() && ShadowCurrent()
      ensures scMask == 1 && cdcOption == 0 && cdcSetting == 0 && cdc == InitCdcSteps(old(cdc))[4]
      ensures fswdbl == 0 && hiccup == 1 && fpwm == 0 && mode == InitModeSteps(old(mode))[2]
      ensures log == old(log) + CdcWrites(old(cdc)) + ModeWrites(old(mode))
      ensures unchanged(this`ioutLimit, this`currentLimitEn, this`voutSr, this`ocpDelay, this`sr, this`voutFs, this`fbMode, this`intfb)
      ensures unchanged(this`vref, this`refVoltageLsb, this`refVoltageMsb, this`dischg, this`slewRate, this`ocpMaskStray, this`ovpMaskStray)
    {
      InitCdc();
      InitMode();
    }

    /** The last steps of `init`: the status read in "debug" mode, then
        `enable()`, which the report's `IndexError` (`raised`, a status
        below 8) prevents. */
    method InitStart(statusByte: Byte) returns (raised: bool)
      requires ModeValid() && ShadowCurrent()
      modifies this`status, this`enablePin, this`oe, this`mode, this`log
      ensures ModeValid() && ShadowCurrent()
      ensures status == statusByte
      ensures raised <==> ByteValue(statusByte) < 8
      ensures raised ==> enablePin == old(enablePin) && oe == old(oe) && mode == old(mode) && log == old(log)
      ensures !raised ==>
        && enablePin && oe == 1 && mode == SetBit(old(mode), OutputEnableBit)
        && log == old(log)
          + (if FaultDetected(statusByte) then [PinLevel(false), Write(ModeAddr, ClearBit(old(mode), OutputEnableBit))] else [])
          + [PinLevel(true), Write(ModeAddr, mode)]
      ensures unchanged(this`ioutLimit, this`currentLimitEn, this`voutSr, this`ocpDelay, this`sr, this`voutFs, this`fbMode, this`intfb)
      ensures unchanged(this`cdc, this`scMask, this`ocpMask, this`ovpMask, this`cdcOption, this`cdcSetting)
      ensures unchanged(this`fswdbl, this`hiccup, this`fpwm)
      ensures unchanged(this`vref, this`refVoltageLsb, this`refVoltageMsb, this`dischg, this`slewRate, this`ocpMaskStray, this`ovpMaskStray)
    {
      var decoded;
      decoded, raised := ReadStatusRegister("debug", statusByte);
      if raised {
        ShortStatusHasNoFault(statusByte);
        return;
      }
      Enable();
    }

    /** The state `init` leaves behind once `setOutputVoltage` has
        returned, given the shadow IOUT_LIMIT, VOUT_SR, VOUT_FS, CDC and
        MODE bytes at that point and the byte the status register reads:
        the converter is enabled unless the status report raised. */
    ghost predicate Initialized(ioutLimit0: Byte, voutSr0: Byte, voutFs0: Byte, cdc0: Byte, mode0: Byte, statusByte: Byte)
      reads this
    {
      && status == statusByte
      && ioutLimit == SetBit(ioutLimit0, CurrentLimitEnableBit) && currentLimitEn == 1
      && voutSr == WithBits45(voutSr0, 0) && ocpDelay == 0 && sr == Some(1)
      && voutFs == StepSizeByte(voutFs0, 3) && fbMode == 0 && intfb == 3
      && cdc == InitCdcSteps(cdc0)[4] && scMask == 1 && cdcOption == 0 && cdcSetting == 0
      && fswdbl == 0 && hiccup == 1 && fpwm == 0
      && if ByteValue(statusByte) < 8 then
           !enablePin && oe == 0 && mode == InitModeSteps(mode0)[2]
         else
           enablePin && oe == 1 && mode == SetBit(InitModeSteps(mode0)[2], OutputEnableBit)
    }

    /** `init` from the "Set Current Limit" step on, once `setOutputVoltage`
        has returned with MODE bit 7 clear.  `raised` is the status
        report's `IndexError`, which ends `init` before `enable()`. */
    method InitAfterVoltage(currentLimitMa: int, statusByte: Byte) returns (raised: bool)
      requires Valid() && mode[OutputEnableBit] == 0
      modifies this`currentLimitEn, this`ioutLimit, this`ocpDelay, this`voutSr, this`sr
      modifies this`fbMode, this`intfb, this`voutFs
      modifies this`scMask, this`ocpMask, this`ovpMask, this`cdcOption, this`cdcSetting, this`cdc
      modifies this`fswdbl, this`hiccup, this`fpwm, this`mode, this`log
      modifies this`status, this`enablePin, this`oe
      ensures Valid()
      ensures raised <==> ByteValue(statusByte) < 8
      ensures Initialized(old(ioutLimit), old(voutSr), old(voutFs), old(cdc), old(mode), statusByte)
      ensures log == old(log)
        + CurrentLimitAndSlewRateWrites(old(ioutLimit), old(voutSr)) + FeedbackWrites(old(voutFs))
        + CdcWrites(old(cdc)) + ModeWrites(old(mode))
        + (if raised then [] else
            (if FaultDetected(statusByte) then [PinLevel(false), Write(ModeAddr, InitModeSteps(old(mode))[2])] else [])
            + [PinLevel(true), Write(ModeAddr, mode)])
      ensures unchanged(this`vref, this`refVoltageLsb, this`refVoltageMsb, this`dischg, this`slewRate, this`ocpMaskStray, this`ovpMaskStray)
    {
      InitOutputSettings(currentLimitMa);
      InitCdcAndMode();
      assert ClearBit(mode, OutputEnableBit) == mode;
      raised := InitStart(statusByte);
    }

    /** The first steps of `init`: the converter is disabled, then the
        output voltage is set. */
    method InitDisableAndVoltage(voltageMv: int, dacCode: int) returns (raised: bool)
      requires ModeValid() && ShadowCurrent()
      modifies this`enablePin, this`oe, this`mode, this`vref, this`refVoltageLsb, this`refVoltageMsb, this`log
      ensures ModeValid() && ShadowCurrent()
      ensures raised <==> intfb == 0
      ensures vref == Or(old(vref), dacCode)
      ensures !enablePin && oe == 0 && mode == ClearBit(old(mode), OutputEnableBit)
      ensures raised ==> Shadow() == old(Shadow())[ModeAddr := mode] && log == old(log) + [PinLevel(false), Write(ModeAddr, mode)]
      ensures !raised ==>
        && (refVoltageLsb, refVoltageMsb) == SplitReference(vref)
        && log == old(log) + [PinLevel(false), Write(ModeAddr, mode)]
          + [Write(RefVoltageLsbAddr, refVoltageLsb), Write(RefVoltageMsbAddr, refVoltageMsb)]
      ensures unchanged(this`ioutLimit, this`currentLimitEn, this`voutSr, this`ocpDelay, this`voutFs, this`fbMode, this`intfb)
      ensures unchanged(this`cdc, this`scMask, this`ocpMask, this`ovpMask, this`cdcOption, this`cdcSetting, this`status, this`dischg)
      ensures unchanged(this`slewRate, this`ocpMaskStray, this`ovpMaskStray)
    {
      Disable();
      var warned;
      warned, raised := SetOutputVoltage(voltageMv, dacCode);
    }

    /** `init`: the fixed sequence of setter calls, ending in `enable()`.
        `disableVOUTDischarge` is named but not called, so bit 4 of MODE
        and `_DISCHG` keep their values.  Two exceptions end `init` early:
        the ZeroDivisionError of `setOutputVoltage` when the step code is 0
        (`divisionError`), with the converter disabled and nothing else
        changed, and the `IndexError` of the status report when the status
        is below 8 (`indexError`), after every register step but before
        `enable()`. */
    method Init(voltageMv: int, dacCode: int, currentLimitMa: int, statusByte: Byte) returns (divisionError: bool, indexError: bool)
      requires Valid()
      modifies this`enablePin, this`oe, this`mode, this`vref, this`refVoltageLsb, this`refVoltageMsb, this`log
      modifies this`currentLimitEn, this`ioutLimit, this`ocpDelay, this`voutSr, this`sr
      modifies this`fbMode, this`intfb, this`voutFs
      modifies this`scMask, this`ocpMask, this`ovpMask, this`cdcOption, this`cdcSetting, this`cdc
      modifies this`fswdbl, this`hiccup, this`fpwm, this`status
      ensures Valid()
      ensures divisionError <==> old(intfb) == 0
      ensures indexError <==> !divisionError && ByteValue(statusByte) < 8
      ensures vref == Or(old(vref), dacCode)
      ensures unchanged(this`dischg, this`slewRate, this`ocpMaskStray, this`ovpMaskStray)
      ensures divisionError ==>
        && !enablePin && oe == 0 && mode == ClearBit(old(mode), OutputEnableBit)
        && log == old(log) + [PinLevel(false), Write(ModeAddr, mode)]
        && Shadow() == old(Shadow())[ModeAddr := mode]
      ensures divisionError ==>
        unchanged(this`ioutLimit, this`currentLimitEn, this`voutSr, this`ocpDelay, this`sr, this`voutFs, this`fbMode, this`intfb)
      ensures divisionError ==>
        unchanged(this`cdc, this`scMask, this`ocpMask, this`ovpMask, this`cdcOption, this`cdcSetting, this`status)
      ensures divisionError ==> unchanged(this`fswdbl, this`hiccup, this`fpwm)
      ensures !divisionError ==>
        var disabled := ClearBit(old(mode), OutputEnableBit);
        && Initialized(old(ioutLimit), old(voutSr), old(voutFs), old(cdc), disabled, statusByte)
        && (refVoltageLsb, refVoltageMsb) == SplitReference(vref)
        && log == old(log)
          + [PinLevel(false), Write(ModeAddr, disabled)]
          + [Write(RefVoltageLsbAddr, refVoltageLsb), Write(RefVoltageMsbAddr, refVoltageMsb)]
          + CurrentLimitAndSlewRateWrites(old(ioutLimit), old(voutSr)) + FeedbackWrites(old(voutFs))
          + CdcWrites(old(cdc)) + ModeWrites(disabled)
          + (if indexError then [] else
              (if FaultDetected(statusByte) then [PinLevel(false), Write(ModeAddr, InitModeSteps(disabled)[2])] else [])
              + [PinLevel(true), Write(ModeAddr, mode)])
    {
      indexError := false;
      divisionError := InitDisableAndVoltage(voltageMv, dacCode);
      if divisionError {
        return;
      }
      indexError := InitAfterVoltage(currentLimitMa, statusByte);
    }
  }
}
