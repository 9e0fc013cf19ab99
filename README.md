# TPS55289 driver model

This project models the MicroPython driver for the TI TPS55289 buck-boost converter (`TPS55289.py`). The driver keeps a shadow copy of the converter's eight registers (REF_VOLTAGE LSB/MSB, IOUT_LIMIT, VOUT_SR, VOUT_FS, CDC, MODE, STATUS). It also keeps one mirror field per bit-field and an enable pin. Each setter does three things:

- changes a mirror field;
- recomposes the shadow byte with `|=` or `&= ~`;
- writes the whole byte to the device with `setRegister`.

`init` is a fixed sequence of setter calls, from `disable()` to `enable()`. It stops early on either of two exceptions: ZeroDivisionError when `_INTFB` is 0, and IndexError from the "debug" status report when the status byte is below 8.

The model is organised in four modules:

- `BitFields` (`bitfields.dfy`): a register image is an 8-element sequence of bits, least significant first. The module also defines the primitive read-modify-write updates (set a bit, clear a bit, replace bits 4-5 or bits 0-2, OR two images) and the conversion to and from the number that goes over the bus.
- `PythonInt` (`pythonint.dfy`): Python's `|` on unbounded integers, negative numbers included. This is needed for the reference code `_VREF`, which `setOutputVoltage` ORs each new code into. The module also holds the split into the two reference-voltage registers.
- `Registers` (`registers.dfy`): the register addresses, bit numbers and power-on images. It defines the bus log (`Event`: a register write or an enable-pin change), the byte each setter composes, written as a function of the old byte and the argument, and the STATUS decoder.
- `Driver` (`driver.dfy`): class `TPS55289`. Its fields are the shadow registers, the mirror fields, the pin level and the log. Each setter is a method that:
  - updates exactly the modelled fields the Python method assigns (the float attributes listed under "## Left out" are not kept);
  - appends the writes the Python method performs.

The object invariant `Valid()` has two parts:
- the mirror fields are related to their shadow bits, though not all by equality:
  - `_currentLimitEN`, `_OCP_DELAY`, `_SC_Mask`, `_CDC_OPTION`, `_CDC_SETTING`, `_OE`, `_FSWDBL` and `_HICCUP` equal their bits, and the pin level equals `_OE`;
  - `_FB_MODE`, `_INTFB` and `_DISCHG` only imply their bits (mirror set means bit set), because VOUT_FS is only ORed into and `disableVOUTDischarge` sets bit 4;
  - `_FPWM`, `_OCP_MASK` and `_OVP_MASK` are not tied to their bits: `_FPWM` starts at 0 while MODE bit 1 starts set, and the two masks stay 1 while their bits can be cleared;
- every writable shadow register holds the byte most recently written to its address.

The model follows the code as written, including its defects. The contracts state each defect:

- `setSlewRate` composes `_OCP_DELAY` into bits 4-5 instead of the slew rate, so it rewrites VOUT_SR unchanged.
- `disableVOUTDischarge` sets MODE bit 4.
- `setFeedbackMechanism` and `setStepSize` only OR bits in.
- `_VREF` accumulates codes with `|=`.
- The range checks only warn and never stop execution.
- `setOutputCurrentLimit` writes no register, and its bounds condition holds for every input.
- `init` names `disableVOUTDischarge` without calling it.
- `readStatusRegister("debug")` indexes `bin(status)` at 3, 4 and 5, which raises IndexError for a status below 8, so `init` never reaches `enable()` then.
- `disableOCPIndication` and `disableOVPIndication` assign misspelled attributes. The mirror fields `_OCP_MASK` and `_OVP_MASK` therefore stay 1.

Two notes on reading the source:

1. The range test in `setOutputVoltage` (`TPS55289.py:153`) parses as `((v >= 0.8) & (v <= 22)) == 0`. So the warning is issued exactly when the voltage is out of range.
2. The status test (`TPS55289.py:476`) parses as `((s >> 4) & 0x07) != 0`.

## Model

| member | source | states |
|---|---|---|
| BitFields.SetBit | TPS55289.py:182 | `b \| (1 << k)` sets bit k and keeps the other seven bits |
| BitFields.ClearBit | TPS55289.py:188 | `b & ~(1 << k)` clears bit k and keeps the other seven bits |
| BitFields.WithBits45 | TPS55289.py:214-215 | clearing bits 4-5 and ORing in `v << 4` makes bits 4-5 read `v` and keeps all other bits |
| BitFields.WithBits012 | TPS55289.py:359-360 | clearing bits 0-2 and ORing in `v` makes bits 0-2 read `v` and keeps bits 3-7 |
| BitFields.ValueOfByteOf | TPS55289.py:165 | the image of `n & 0xFF` stands for `n` modulo 256, negative `n` included |
| BitFields.FieldValues | TPS55289.py:476 | the bit fields read by index equal `(b >> 4) & 0b11`, `b & 0b111`, `b & 0b11` and `(b >> 4) & 0b111` |
| BitFields.SetBitIdempotent | TPS55289.py:180-184 | an enable setter called twice leaves the byte it leaves when called once |
| BitFields.ClearBitIdempotent | TPS55289.py:186-190 | a disable setter called twice leaves the byte it leaves when called once |
| BitFields.WithBits45Idempotent | TPS55289.py:211-236 | setting the OCP delay field twice to the same code equals setting it once |
| BitFields.WithBits012Idempotent | TPS55289.py:356-393 | setting the compensation field twice to the same value equals setting it once |
| BitFields.WithBits45NoChange | TPS55289.py:243-244 | re-inserting the value bits 4-5 already hold leaves the byte unchanged |
| BitFields.OrIntoIdempotent | TPS55289.py:279 | ORing the same bits in again changes nothing |
| PythonInt.OrBit | TPS55289.py:162 | bit k of `a \| b` is set iff bit k of `a` or of `b` is set, for all integers |
| PythonInt.BitsDetermine | TPS55289.py:162 | integers with the same two's-complement bits are equal |
| PythonInt.OrKeepsBits | TPS55289.py:162 | `_VREF \|= c` never clears a bit of `_VREF` |
| PythonInt.OrIdempotent | TPS55289.py:162 | ORing the same code in twice gives the value that ORing it once gives |
| PythonInt.OrZeroLeft | TPS55289.py:162 | from `_VREF`'s initial value 0 (line 78), the first `\|=` yields the code itself |
| PythonInt.OrNonNegative | TPS55289.py:162 | non-negative codes keep `_VREF` non-negative |
| PythonInt.OrNegativeStaysNegative | TPS55289.py:162 | a negative `_VREF` stays negative whatever code is ORed in next |
| PythonInt.OrCommutes | TPS55289.py:162 | Python's `\|` gives the same value with its operands swapped, for all integers |
| PythonInt.OrNegativeCode | TPS55289.py:162 | ORing in a negative code (which line 162 yields for a voltage far enough below the floor, since the range check only warns) makes `_VREF` negative whatever it held; with OrNegativeStaysNegative, it stays negative for good |
| PythonInt.OrAccumulates | TPS55289.py:162 | codes 1 then 2 leave `_VREF` at 3, not at the last code |
| PythonInt.ByteOfBit | TPS55289.py:165 | bit k of the image of `n & 0xFF` is bit k of `n` in Python's two's-complement reading, for k < 8 |
| PythonInt.ByteOfOr | TPS55289.py:302 | the OR of two images is the low byte of Python's integer `x \| y`, for all integers, negative ones included |
| PythonInt.SplitReference | TPS55289.py:165-166 | the LSB image is 0..255, the MSB image is 0..7, and LSB + 256·MSB is `_VREF` modulo 2048 |
| PythonInt.JoinReference | TPS55289.py:165-166 | the two reference registers spell an 11-bit code in 0..2047 |
| PythonInt.JoinSplit | TPS55289.py:165-166 | splitting `_VREF` and joining the registers recovers `_VREF` modulo 2048 |
| PythonInt.SplitJoin | TPS55289.py:165-166 | an 11-bit code survives the split: the register pair is recovered |
| Registers.InitialImageValues | TPS55289.py:68-75 | the power-on images are 0xE4, 0x01, 0x03, 0xE0, 0x22 and 0, and `init` leaves MODE at 0x20 and then 0xA0 |
| Registers.LastWriteFound | TPS55289.py:139-140 | the last write to an address is missing exactly when nothing was ever written there, and otherwise it is a write in the log |
| Registers.LastWriteAppend | TPS55289.py:139-140 | a new write becomes the last one to its address and hides nothing at other addresses |
| Registers.OcpResponseTimeByte | TPS55289.py:211-236 | codes 0..3 land in bits 4-5 and keep the other bits; any other code leaves VOUT_SR as it was |
| Registers.SlewRateByte | TPS55289.py:240-265 | for a valid slew-rate code, bits 4-5 receive `_OCP_DELAY`; any other code leaves VOUT_SR as it was |
| Registers.SlewRateIgnoresCode | TPS55289.py:240-265 | any two valid slew-rate codes produce the same byte |
| Registers.SlewRateIsNoOp | TPS55289.py:240-265 | when bits 4-5 already hold `_OCP_DELAY`, the slew-rate setter leaves VOUT_SR unchanged for every argument |
| Registers.FeedbackMode | TPS55289.py:270-278 | "external" gives 1, "internal" gives 0, and any other string leaves `_FB_MODE` |
| Registers.FeedbackMechanismByte | TPS55289.py:279 | mode 1 sets bit 7; mode 0 leaves VOUT_FS unchanged; bits 0-6 are kept |
| Registers.FeedbackMechanismByteIsOr | TPS55289.py:279 | the byte is exactly `_VOUT_FS \| (_FB_MODE << 7)` |
| Registers.FeedbackMechanismByteIsIntOr | TPS55289.py:279 | the byte is the low byte of the Python integer `_VOUT_FS \| (_FB_MODE << 7)` |
| Registers.InternalFeedbackKeepsExternalBit | TPS55289.py:274-279 | selecting internal feedback after external leaves bit 7 set |
| Registers.StepSizeCode | TPS55289.py:283-301 | 2.5, 5, 7.5 and 10 mV select codes 0..3; every other step selects nothing |
| Registers.StepSizeByte | TPS55289.py:302 | bits 0-1 gain the code's bits, no bit is cleared, and bits 2-7 are kept |
| Registers.StepSizeByteIsOr | TPS55289.py:302 | the byte is exactly `_VOUT_FS \| _INTFB` |
| Registers.StepSizeByteIsIntOr | TPS55289.py:302 | the byte is the low byte of the Python integer `_VOUT_FS \| _INTFB` |
| Registers.StepSizeCannotLower | TPS55289.py:302 | once bits 0-1 are both set, no step size changes VOUT_FS |
| Registers.CdcOptionByte | TPS55289.py:343-354 | 0 clears bit 3; 1 sets it; other values leave CDC; the other bits are always kept |
| Registers.CdcCompensationByte | TPS55289.py:356-393 | 0.0-0.7 V puts k = 0..7 in bits 0-2 and keeps bits 3-7; other values leave CDC |
| Registers.ToggleByte | TPS55289.py:417-430 | shared with `FSWOperatingMode` (lines 456-469): 0 clears the bit; 1 sets it; other inputs leave MODE; no other bit changes |
| Registers.ModeBits | TPS55289.py:492 | `_STATUS & 0x03` is the number bits 0-1 spell |
| Registers.DecodeOperatingMode | TPS55289.py:492-499 | the decoded mode's code is `status & 0x03`; the invalid state means both low bits are set |
| Registers.DecodeModeCode | TPS55289.py:492-499 | every status byte whose low bits carry a mode's code decodes to that mode, whatever its other bits |
| Registers.FaultDetected | TPS55289.py:476 | a fault is detected iff one of bits 4-6 (SC, OCP, OVP) is set |
| Registers.FaultIgnoresOtherBits | TPS55289.py:476 | bits 0-3 and 7 never matter to the fault test |
| Registers.BinHasStatusDigits | TPS55289.py:489-491 | `bin(s)` has characters at indices 3, 4 and 5 exactly when s is at least 8, so the "debug" report raises `IndexError` for every smaller status |
| Registers.ShortStatusHasNoFault | TPS55289.py:476-477 | a status below 8 has no fault bit, so the report's `IndexError` never follows a protective disable |
| Driver.InitRewritesResetImages | TPS55289.py:113-131 | applied to the power-on images, the register steps of `init` rewrite each register's power-on byte; only MODE changes, ending at bit 1 clear |
| Driver.TPS55289.constructor | TPS55289.py:54-102 | sets `__init__`'s bytes and mirrors, then runs `init`. The invariant holds and every field has its exact value, the stray attributes and `_slewRate` included. The log is the complete, ordered sequence of writes and pin changes. For a status of 8 or more it ends with the fault-triggered disable (if any) and `enable()`. For a smaller status it ends at the last MODE step with the pin off, because of the report's `IndexError` |
| Driver.TPS55289.InitFromPowerOn | TPS55289.py:102-137 | `init` run from the power-on state. No ZeroDivisionError is possible, since `_INTFB` is 3. The state and the log are exact, with and without the report's `IndexError` |
| Driver.TPS55289.SetRegister | TPS55289.py:139-140 | appends one full-byte write; that byte becomes the last written to its address, and the other addresses are unaffected |
| Driver.TPS55289.DrivePin | TPS55289.py:401 | `on()` here and `off()` at line 411: the pin takes the level, the change is logged, and no register's last write changes |
| Driver.TPS55289.SetOutputVoltage | TPS55289.py:151-170 | the warning is issued iff the voltage is outside 0.8-22 V, execution goes on regardless, and `_VREF` becomes `old \| code`. `ZeroDivisionError` is raised iff `_INTFB` is 0, and then nothing is written. Otherwise LSB then MSB receive the split `_VREF`, in that order |
| Driver.TPS55289.EnableOutputCurrentLimit | TPS55289.py:180-184 | bit 7 of IOUT_LIMIT and `_currentLimitEN` become 1; one write; the invariant is kept |
| Driver.TPS55289.DisableOutputCurrentLimit | TPS55289.py:186-190 | bit 7 of IOUT_LIMIT and `_currentLimitEN` become 0; one write; the invariant is kept |
| Driver.TPS55289.SetOutputCurrentLimit | TPS55289.py:192-206 | its bounds condition holds for every input, so it always warns; it modifies no register, no modelled field and no log entry |
| Driver.TPS55289.SetOCPResponseTime | TPS55289.py:211-236 | `_OCP_DELAY` and bits 4-5 take a valid code and are unchanged otherwise; VOUT_SR is written in every case |
| Driver.TPS55289.SetSlewRate | TPS55289.py:240-265 | a valid code is stored only in `_SR`; VOUT_SR is rewritten unchanged; `_OCP_DELAY` agrees with bits 4-5 |
| Driver.TPS55289.SetFeedbackMechanism | TPS55289.py:270-280 | `_FB_MODE` follows the string; bit 7 is ORed in and never cleared; one write |
| Driver.TPS55289.SetStepSize | TPS55289.py:283-303 | `_INTFB` follows the step (or keeps its value); the code is ORed into bits 0-1; one write |
| Driver.TPS55289.EnableSCIndication | TPS55289.py:307-311 | `_SC_Mask` and CDC bit 7 become 1; one write |
| Driver.TPS55289.DisableSCIndication | TPS55289.py:313-317 | `_SC_Mask` and CDC bit 7 become 0; one write |
| Driver.TPS55289.EnableOCPIndication | TPS55289.py:319-323 | `_OCP_MASK` and CDC bit 6 become 1; one write |
| Driver.TPS55289.DisableOCPIndication | TPS55289.py:325-329 | CDC bit 6 clears; the 0 goes to the stray `_OCP_Mask`; `_OCP_MASK` keeps 1 |
| Driver.TPS55289.EnableOVPIndication | TPS55289.py:331-335 | `_OVP_MASK` and CDC bit 5 become 1; one write |
| Driver.TPS55289.DisableOVPIndication | TPS55289.py:337-341 | CDC bit 5 clears; the 0 goes to the stray `_OVP_Mask`; `_OVP_MASK` keeps 1 |
| Driver.TPS55289.SetCDCOption | TPS55289.py:343-354 | `_CDC_OPTION` and bit 3 follow 0 or 1, and are unchanged otherwise; CDC is written in every case |
| Driver.TPS55289.SetCDCCompensation | TPS55289.py:356-393 | `_CDC_SETTING` and bits 0-2 take k for a compensation of k/10 V, k in 0..7, and are unchanged otherwise; CDC is written in every case |
| Driver.TPS55289.Enable | TPS55289.py:400-407 | the pin is driven on before MODE (bit 7 set) is written; the pin, `_OE` and bit 7 agree |
| Driver.TPS55289.Disable | TPS55289.py:410-415 | the pin is driven off before MODE (bit 7 clear) is written; no other register or mirror changes |
| Driver.TPS55289.FSWDoubling | TPS55289.py:417-430 | `_FSWDBL` and MODE bit 6 follow 0 or 1, and are unchanged otherwise; MODE is written in every case |
| Driver.TPS55289.EnableHiccupMode | TPS55289.py:432-436 | `_HICCUP` and MODE bit 5 become 1; one write |
| Driver.TPS55289.DisableHiccupMode | TPS55289.py:438-442 | `_HICCUP` and MODE bit 5 become 0; one write |
| Driver.TPS55289.EnableVOUTDischarge | TPS55289.py:444-448 | `_DISCHG` and MODE bit 4 become 1; one write |
| Driver.TPS55289.DisableVOUTDischarge | TPS55289.py:450-454 | `_DISCHG` becomes 0 while MODE bit 4 is set, the same byte `enableVOUTDischarge` writes |
| Driver.TPS55289.FSWOperatingMode | TPS55289.py:456-469 | `_FPWM` and MODE bit 1 follow 0 or 1, and are unchanged otherwise; MODE is written in every case |
| Driver.TPS55289.ReadStatusRegister | TPS55289.py:474-499 | STATUS takes the read byte. A fault in bits 4-6 disables the converter (pin off, then MODE bit 7 cleared). With no fault, pin, MODE and log are unchanged. In "debug" mode `IndexError` is raised iff the status is below 8, and otherwise the decoded mode is reported. Other strings report nothing |
| Driver.TPS55289.InitCurrentLimitAndSlewRate | TPS55289.py:114-118 | enables the current limit (one write), writes nothing for the limit value, then rewrites VOUT_SR twice with bits 4-5 clear |
| Driver.TPS55289.InitFeedback | TPS55289.py:120-121 | rewrites VOUT_FS unchanged for internal feedback, then ORs in step code 3 |
| Driver.TPS55289.InitIndications | TPS55289.py:123-125 | sets CDC bits 7, 6 and 5 in that order, one write each |
| Driver.TPS55289.InitCdc | TPS55289.py:123-127 | the five CDC writes in order; the option and setting become 0; no other register changes |
| Driver.TPS55289.InitMode | TPS55289.py:128-131 | MODE bit 6 clear, then bit 5 set, then bit 1 clear, in three writes; bit 4 and `_DISCHG` are untouched |
| Driver.TPS55289.InitOutputSettings | TPS55289.py:114-121 | the current-limit, slew-rate and feedback writes in order |
| Driver.TPS55289.InitCdcAndMode | TPS55289.py:123-131 | the CDC writes, then the MODE writes |
| Driver.TPS55289.InitStart | TPS55289.py:133-137 | the status read, with its fault-triggered disable, then `enable()`. `IndexError` is raised iff the status is below 8, and then `enable()` never runs: pin, MODE and log stay as they were |
| Driver.TPS55289.InitAfterVoltage | TPS55289.py:114-137 | every register write `init` makes after the voltage step, in order, and the exact final state. The status report's `IndexError` (a status below 8) ends it before `enable()`, with the converter still disabled. The invariant is kept |
| Driver.TPS55289.InitDisableAndVoltage | TPS55289.py:110-112 | `disable()` then `setOutputVoltage`; the LSB/MSB writes are missing iff the division raised |
| Driver.TPS55289.Init | TPS55289.py:104-137 | `init` is the whole call sequence. ZeroDivisionError is raised iff `_INTFB` is 0: it stops with the converter disabled, only MODE written, and every other field unchanged. Otherwise the log is the full ordered write sequence and the final state is exact. `IndexError` is raised iff the status is below 8, and it cuts the sequence short before `enable()`. `_DISCHG`, bit 4, `_slewRate` and the stray attributes keep their values, since `disableVOUTDischarge` is never called |

## Left out

- The I2C transport is replaced by the event log, and the device scan at `TPS55289.py:105-106` is left out. It only prints.
- `getRegister` (`TPS55289.py:143-144`) returns a `bytes` object, and `>>` on it would raise `TypeError` in `readStatusRegister`. The model instead takes the status byte as a parameter and treats it as a number.
- Driver.TPS55289.SetRegister records the byte the driver means to write. `writeto_mem` is passed an `int` where MicroPython expects a buffer, and that failure is not modelled.
- Driver.TPS55289.SetOutputVoltage: the floating-point formula that turns the voltage into a DAC code (`TPS55289.py:161-162`) is not modelled. The resulting DAC code is a parameter. The voltage is given in millivolts for the range check. `_outputVoltage` (a float quotient) is not stored; only the division's `ZeroDivisionError` is kept, as `raised`.
- Driver.TPS55289.SetOutputCurrentLimit: the floats `_outputCurrentLimit` and `_currentLimitSet` are not modelled. The limit is given in milliamperes. `currentLimit % 0.05` is approximated on integers; the bounds condition holds for every input either way.
- `_INTFB_Val` and the `_INTFB_00`..`_INTFB_11` float constants (`TPS55289.py:38-41`) only feed the left-out voltage arithmetic.
- Step sizes are given in tenths of a millivolt and compensation voltages in tenths of a volt. This replaces Python's float equality with integer equality on the same values.
- All `print` output is left out, and the warnings of the range checks are kept as `warned` results. In `readStatusRegister`, the fault messages at `TPS55289.py:478-485` compare a character of `bin(status)` with the integer 1. That test is never true, and the indices exist because a fault implies a status of at least 16. The "debug" report at `TPS55289.py:489-491` is modelled only through the `IndexError` its indexing raises.
- Default arguments are dropped: `FSWDoubling(input=0)` (`TPS55289.py:417`), `FSWOperatingMode(input=0)` (`TPS55289.py:456`), `setCDCCompensation(Compensation=0.0)` (`TPS55289.py:356`) and `readStatusRegister(debugOrMonitor="monitor")` (`TPS55289.py:474`). Each model method takes the default value as an ordinary argument, so no behaviour is lost.
- The `Pin` object, the I2C address, the channel number and the constructor defaults are left out. The constructor takes the requested output voltage, DAC code, current limit and the status byte `init` reads as parameters.
- Idempotence of the single-field setters is stated on the byte each one composes (`BitFields.*Idempotent`), not on two successive method calls.
- Driver.TPS55289.constructor: when the status read by `init` is below 8, the `IndexError` propagates out of `__init__`, and the caller receives no object. The model's constructor still returns one, in the state the bus writes left behind. The ZeroDivisionError cannot arise there, since `_INTFB` starts at 3.
