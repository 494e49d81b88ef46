# ADS1115_WE in Dafny

A model of the core of the ADS1115_WE Arduino driver for the Texas Instruments ADS1115
16-bit analogue-to-digital converter. The driver talks to the device over I2C and keeps
almost no state of its own. The device is a file of four 16-bit registers:

- conversion: the last result, a signed 16-bit value;
- configuration: the alert queue, latch, polarity and comparator mode, the data rate, the
  measurement mode, the gain (full-scale range), the input multiplexer and the
  status/start bit;
- low threshold and high threshold for the comparator.

Every setter reads the configuration register, clears one field with a mask, ors in the
new field value and writes the word back.

The project has four modules:

- `Registers` (`registers.dfy`): the register addresses, the reset word, the field masks
  and one datatype per enum of `src/ADS1115_WE.h`. Each enum has its header encoding. Every enum
  but the status/start bit has a decoder that reads the field back out of a configuration
  word; that bit is read by `Codec.StatusBusy` as a `bool`.
- `Codec` (`codec.dfy`): the pure parts of `src/ADS1115_WE.cpp`. These are:
  - the mask-and-or field update and what it keeps;
  - the big-endian byte framing of register reads and writes;
  - the reading of a register word as `int16_t`;
  - the threshold rescaling of a range change and its range test;
  - the Arduino `map` call behind `getResultWithRange`.
- `Settings` (`settings.dfy`): a series of setter calls. Each field setter is a `Setting`
  value that clears one field and ors in one code. `Configure` follows the configuration
  bits through any sequence of such calls.
- `Driver` (`driver.dfy`): the class `ADS1115`. It holds the bus address, the register file
  (an `array<Word>` of four words standing for the device) and the cached range
  `voltageRange`. Each public method of the driver reads or writes the register file
  through `ReadRegister`/`WriteRegister`, except `GetVoltageRange_mV`, which reads only
  the cache. The contract of each field setter
  states:
  - the new configuration word;
  - that the field it sets reads back as the argument;
  - that every other configuration bit is unchanged;
  - that the cached range stays in step with the gain field (`Synced`).

  Most setters keep the other three registers. `SetAlertModeAndLimit_V` and
  `SetVoltageRange_mV` also give the new threshold words: the limits passed in, and the
  rescaled limits. `Init`, `RescaleLimits` and `SetAlertPinToConversionReady` state the
  threshold words they write. The readers (`IsBusy`, `GetRawResult`, `GetResultWithRange`,
  `GetVoltageRange_mV`, `ClearAlert`) state their result and that no register changes.

Two defects of the source are logged under "## Findings". The class follows the evidently
intended behaviour for both: 64 SPS is written as 0x0060, and the range test compares
field with field. The members named in the "as-written member" column model the code as it
stands.

One behaviour the class keeps as written: `setVoltageRange_mV` writes single-shot mode,
and then writes back the configuration word it read on entry with only the gain field
replaced. That final write undoes the mode change (`SetVoltageRange_mV` ensures the mode
is unchanged).

Words are integers in 0..0xFFFF. Bit operations go through `bv16` (`Bits`/`ToWord`).
Threshold and result words are read as two's-complement `int16_t` with
`ToInt16`/`FromInt16`. Division in `map` is C's truncating division (`TruncDiv`), not Dafny's Euclidean one.
The rescaling multiplies by a `double` ratio and truncates on the assignment to `int16_t`;
the model uses truncating division of the exact product in place of that step.

## Model

| member | source | states |
|---|---|---|
| Registers.CompQueCode | src/ADS1115_WE.h:39-44 | the comparator-queue codes lie inside mask 0x0003, and only disabling the alert fills it |
| Registers.DecodeCompQue | src/ADS1115_WE.h:39-44 | the decoded queue setting is the one whose code equals the word's bits under 0x0003 |
| Registers.LatchCode | src/ADS1115_WE.h:46-49 | the latch codes lie inside mask 0x0004, which only the latching setting fills |
| Registers.DecodeLatch | src/ADS1115_WE.h:46-49 | the decoded latch setting's code equals the word's bit 2 |
| Registers.AlertPolCode | src/ADS1115_WE.h:51-54 | the polarity codes lie inside mask 0x0008, which only active-high fills |
| Registers.DecodeAlertPol | src/ADS1115_WE.h:51-54 | the decoded polarity's code equals the word's bit 3 |
| Registers.CompModeCode | src/ADS1115_WE.h:56-59 | the comparator-mode codes lie inside mask 0x0010, which only window mode fills |
| Registers.DecodeCompMode | src/ADS1115_WE.h:56-59 | the decoded comparator mode's code equals the word's bit 4 |
| Registers.ConvRateCode | src/ADS1115_WE.h:61-70 | the header's data-rate codes lie inside mask 0x00E0, except 64 SPS, whose code spills into bit 4 (the comparator-mode bit) |
| Registers.DecodeConvRate | src/ADS1115_WE.h:61-70 | reads the data-rate field against the header's codes: a rate other than 64 SPS whose code matches the field, and no rate exactly when the field is 0x0060 |
| Registers.IntendedConvRateCode | src/ADS1115_WE.h:61-70 | the device's data-rate codes lie inside mask 0x00E0 |
| Registers.DecodeIntendedConvRate | src/ADS1115_WE.h:61-70 | the decoded rate's code equals the data-rate field |
| Registers.MeasureModeCode | src/ADS1115_WE.h:72-76 | the codes lie inside mask 0x0100, and the code is 0x0100 exactly for single-shot |
| Registers.DecodeMeasureMode | src/ADS1115_WE.h:72-76 | the decoded mode's code equals the word's bit 8 |
| Registers.RangeCode | src/ADS1115_WE.h:78-85 | the gain codes lie inside mask 0x0E00 |
| Registers.RangeMv | src/ADS1115_WE.cpp:100-119 | each range's full scale in millivolts, between 256 and 6144 |
| Registers.RangeIndex | src/ADS1115_WE.cpp:95 | `(conf >> 9) & 7` is a number 0..7 that, shifted back left by 9, is the gain field |
| Registers.DecodeRange | src/ADS1115_WE.h:78-85 | the gain field decodes to the range whose code it equals, and to none exactly for the two unused field values 6 and 7 |
| Registers.MuxCode | src/ADS1115_WE.h:87-96 | the multiplexer codes lie inside mask 0x7000 |
| Registers.DecodeMux | src/ADS1115_WE.h:87-96 | the decoded input pair's code equals the word's bits 12-14 |
| Registers.StatusCode | src/ADS1115_WE.h:98-101 | busy is 0x0000 and start/ready is 0x8000, inside mask 0x8000 |
| Registers.MasksPartitionWord | src/ADS1115_WE.cpp:45-141 | the nine field masks together cover all 16 bits, and neighbouring masks do not overlap |
| Registers.AlertCodesRoundTrip | src/ADS1115_WE.h:39-59 | queue, latch, polarity and comparator-mode codes decode back to their setting |
| Registers.CodesRoundTrip | src/ADS1115_WE.h:72-96 | multiplexer, range and measurement-mode codes decode back; the misspelled continuous mode decodes to the corrected spelling |
| Registers.CodesDistinct | src/ADS1115_WE.h:72-96 | distinct multiplexer and range settings have distinct codes; two modes share a code exactly when both are single or neither is, and both continuous spellings are 0x0000 |
| Registers.RangeCodeIndexesTable | src/ADS1115_WE.h:78-85 | the gain code of a range, shifted right by 9, indexes that range's millivolts in the range table |
| Registers.Sps64SetsComparatorBit | src/ADS1115_WE.h:65 | the header's 64 SPS code sets bit 4, outside the data-rate mask, and its data-rate part is the 32 SPS code |
| Registers.IntendedConvRateRoundTrip | src/ADS1115_WE.h:61-70 | the device's rate codes round-trip through the field and agree with the header for every rate but 64 SPS |
| Registers.ResetValDefaults | src/ADS1115_WE.h:37 | 0x8583 decodes to: alert disabled, latch off, active low, max-limit comparator, 128 SPS, single-shot, 2048 mV, AIN0/AIN1, start/ready |
| Codec.FieldUpdate | src/ADS1115_WE.cpp:45-50 | `(conf & ~mask) \| value`: bits under the mask come from the value, the rest from the old word, or-ed with any bits of the value outside the mask |
| Codec.FieldUpdateIsolates | src/ADS1115_WE.cpp:45-50 | a value inside the mask leaves every bit outside the mask unchanged and is read back under the mask |
| Codec.SameOutsideKeepsRange | src/ADS1115_WE.cpp:92-119 | two words equal outside a mask that misses the gain field decode to the same range, so the cached range stays in step |
| Codec.SameOutsideRangeKeepsMode | src/ADS1115_WE.cpp:131-133 | a word changed only in the gain field keeps its measurement mode |
| Codec.CompQueUpdate | src/ADS1115_WE.cpp:45-50 | after the update the queue field reads back the new setting |
| Codec.LatchUpdate | src/ADS1115_WE.cpp:52-57 | after the update the latch field reads back the new setting |
| Codec.AlertPolUpdate | src/ADS1115_WE.cpp:59-64 | after the update the polarity reads back the new setting |
| Codec.CompModeUpdate | src/ADS1115_WE.cpp:66-70 | after the update the comparator mode reads back the new setting |
| Codec.MeasureModeUpdate | src/ADS1115_WE.cpp:85-90 | after the update the mode bit reads back the new mode (either continuous spelling as continuous) |
| Codec.MuxUpdate | src/ADS1115_WE.cpp:136-141 | after the update the multiplexer reads back the new input pair |
| Codec.RangeUpdate | src/ADS1115_WE.cpp:131-133 | after the update the gain field reads back the new range, the rest unchanged |
| Codec.AlertsEnabled | src/ADS1115_WE.cpp:96-121 | definition, no contract: the alert queue field of the word is not `ADS1115_DISABLE_ALERT`, the `currentAlertPinMode != ADS1115_DISABLE_ALERT` half of the range-change test |
| Codec.Sps64UpdateCorrupts | src/ADS1115_WE.cpp:78-83 | setting the header's 64 SPS reads back as 32 SPS and switches the comparator to window mode |
| Codec.IntendedConvRateUpdateIsolates | src/ADS1115_WE.cpp:78-83 | with the device's codes every rate reads back as itself and only the data-rate field changes |
| Codec.StatusBusy | src/ADS1115_WE.cpp:143-146 | `!(conf >> 15) & 1` is true exactly when bit 15 is 0 |
| Codec.WithStartBit | src/ADS1115_WE.cpp:150 | definition, no contract: `currentConfReg \| (1 << 15)`, the word `startSingleMeasurement` writes |
| Codec.StartBitIsStartCode | src/ADS1115_WE.cpp:148-152 | `1 << 15` is the start code; or-ing it in sets bit 15, keeps the other bits, and the written word reads not busy (the device then clears bit 15 while it converts, which is not modelled) |
| Codec.HighByte | src/ADS1115_WE.cpp:210 | definition, no contract: `val >> 8`, the byte `writeRegister` sends first |
| Codec.LowByte | src/ADS1115_WE.cpp:209 | definition, no contract: `val & 255`, the byte `writeRegister` sends second |
| Codec.Join | src/ADS1115_WE.cpp:229 | `(MSByte << 8) + LSByte` has those two bytes as its high and low byte |
| Codec.SplitJoin | src/ADS1115_WE.cpp:208-231 | joining a word's high and low byte gives the word back |
| Codec.WriteFrame | src/ADS1115_WE.cpp:208-216 | the write frame is the register address, then bytes that join to the value |
| Codec.ReadValue | src/ADS1115_WE.cpp:218-231 | a read yields 0 when no byte arrives, otherwise the word with the received bytes as high and low byte |
| Codec.DeviceReply | src/ADS1115_WE.cpp:218-231 | the device answers with data, two bytes that read back as the register's word |
| Codec.ToInt16 | src/ADS1115_WE.cpp:166-169 | a word read as `int16_t` is negative exactly when bit 15 is set, and equals the word modulo 2^16 |
| Codec.FromInt16 | src/ADS1115_WE.cpp:72-74 | an `int16_t` passed as `uint16_t` has bit 15 set exactly when negative, and reads back as the same `int16_t` |
| Codec.Int16RoundTrip | src/ADS1115_WE.cpp:122-128 | a word read as `int16_t` and written back is unchanged |
| Codec.Wrap16 | src/ADS1115_WE.cpp:174 | narrowing to `int16_t` keeps the value modulo 2^16 and keeps values already in range |
| Codec.TruncDiv | src/ADS1115_WE.cpp:123 | C division: the quotient rounds toward zero, with a remainder of the dividend's sign smaller than the divisor |
| Codec.RescaledValue | src/ADS1115_WE.cpp:122-123 | definition, no contract: the threshold read as `int16_t`, times the old range, truncated toward zero after division by the new range (the model's stand-in for the `double` ratio) |
| Codec.RescaleFits | src/ADS1115_WE.cpp:123 | definition, no contract: the rescaled value fits the `int16_t` it is assigned to |
| Codec.RescaledLimit | src/ADS1115_WE.cpp:122-124 | the written limit, read as `int16_t`, is the old limit times old range over new range, truncated |
| Codec.RescaleKeepsVoltage | src/ADS1115_WE.cpp:123 | the rescaled limit stands for the old limit's voltage: old code times old range and new code times new range differ by less than the new range, with the sign kept |
| Codec.RescaleToWiderFits | src/ADS1115_WE.cpp:121-128 | changing to a wider range always fits in `int16_t` |
| Codec.RescaleSameRange | src/ADS1115_WE.cpp:121-128 | rescaling by a ratio of one leaves the limit word unchanged |
| Codec.RescaleToDoubleRange | src/ADS1115_WE.cpp:121-128 | doubling the range halves the limit, rounding toward zero |
| Codec.RescaleGuardAsWritten | src/ADS1115_WE.cpp:95-121 | definition, no contract: `currentRange != range` as written, the field index against the shifted header code |
| Codec.RescaleGuardIntended | src/ADS1115_WE.cpp:95-121 | definition, no contract: the same test with both sides as field indices (`range >> 9`) |
| Codec.GuardIntendedDetectsChange | src/ADS1115_WE.cpp:95-121 | the field-with-field test is true exactly when the gain field does not already hold the new range |
| Codec.CachedRangeUnchanged | src/ADS1115_WE.cpp:121 | when the cache is in step and the test sees no change, the cache already equals the new range's millivolts |
| Codec.GuardAsWrittenMisfires | src/ADS1115_WE.cpp:121 | on the reset word, the written test reports a change to 2048 mV although the gain field already holds it |
| Codec.GuardAsWrittenOverApproximates | src/ADS1115_WE.cpp:121 | the written test is true whenever the intended one is, always true for ranges other than 6144 mV, and exact for 6144 mV |
| Codec.ArduinoMap | src/ADS1115_WE.cpp:174 | definition, no contract: the Arduino core's `map(x, inMin, inMax, outMin, outMax)` as assumed here, with truncating division |
| Codec.ScaleToRange | src/ADS1115_WE.cpp:171-176 | -32767 maps to min and 32767 to max; when min <= max every raw result but -32768 lands in min..max |
| Codec.ScaleEnds | src/ADS1115_WE.cpp:174 | the `map` call takes the domain's ends to the target's ends, and the domain into the target when min <= max |
| Codec.ScaleMonotone | src/ADS1115_WE.cpp:174 | the `map` call never reverses the order of two raw results when min <= max |
| Codec.ScaleSymmetricZero | src/ADS1115_WE.h:213-219 | a symmetric target such as -1023..1023 maps 0 V to 0 |
| Settings.FieldMasksDisjoint | src/ADS1115_WE.cpp:45-141 | the masks of two different setter fields share no bit |
| Settings.SettingCodeInField | src/ADS1115_WE.cpp:45-141 | every code a setter ors in lies inside the mask it clears (64 SPS in the device's encoding) |
| Settings.Apply | src/ADS1115_WE.cpp:45-141 | definition, no contract: one setter call on the configuration bits, the field's mask cleared and its code or-ed in |
| Settings.ApplyIsFieldUpdate | src/ADS1115_WE.cpp:45-141 | one setter call on a word is the mask-and-or update of that word |
| Settings.ApplySetsField | src/ADS1115_WE.cpp:45-141 | after a call, the field it writes holds its code |
| Settings.ApplyKeepsOtherFields | src/ADS1115_WE.cpp:45-141 | a call leaves every other field's bits unchanged |
| Settings.Configure | src/ADS1115_WE.cpp:45-141 | definition, no contract: a series of setter calls, applied first to last |
| Settings.ConfigureKeepsUnwritten | src/ADS1115_WE.cpp:45-141 | a field that no call of a series writes keeps its bits through the whole series |
| Settings.ConfigureSnoc | src/ADS1115_WE.cpp:45-141 | one more call at the end of a series acts on the series' final word |
| Settings.SettingSurvives | src/ADS1115_WE.cpp:45-141 | a setting survives any later calls on other fields: its field holds its code at the end |
| Settings.LastSettingWins | src/ADS1115_WE.cpp:45-141 | the last call on a field decides that field, whatever came before |
| Driver.RescaleIntended | src/ADS1115_WE.cpp:95-121 | definition, no contract: `setVoltageRange_mV` rescales when alerts are on and the gain field differs from the new range (corrected test) |
| Driver.RescaleAsWritten | src/ADS1115_WE.cpp:95-121 | definition, no contract: the same decision with cpp:121's range test as written |
| Driver.LimitAfterRangeChange | src/ADS1115_WE.cpp:121-129 | definition, no contract: a threshold after `setVoltageRange_mV`, rescaled when `RescaleIntended` holds and kept otherwise |
| Driver.LimitAfterRangeChangeAsWritten | src/ADS1115_WE.cpp:121-129 | definition, no contract: the same with the range test as written, the as-written half of the cpp:121 finding at driver level |
| Driver.LimitAfterRangeChangeCases | src/ADS1115_WE.cpp:121-129 | a limit is kept when alerts are off or the range is unchanged, and otherwise becomes its rescaled value |
| Driver.GuardAsWrittenHarmlessWhenCached | src/ADS1115_WE.cpp:121-129 | while the cache is in step with the gain field, the written test leaves the same thresholds as the intended one |
| Driver.GuardAsWrittenRescalesUnchangedRange | src/ADS1115_WE.cpp:121-129 | with the cache out of step, re-selecting the current range doubles a limit of 1000 as written, and keeps it as intended |
| Driver.ADS1115.Synced | src/ADS1115_WE.cpp:92-134 | definition, no contract: the cached `voltageRange` is the millivolt value of the gain field, the invariant every setter keeps and `init` and `setVoltageRange_mV` establish |
| Driver.ADS1115.constructor | src/ADS1115_WE.cpp:18-20 | the driver takes the given bus address and the given register file |
| Driver.ADS1115.Default | src/ADS1115_WE.cpp:22-24 | the driver takes bus address 0x48 |
| Driver.ADS1115.ReadRegister | src/ADS1115_WE.cpp:218-231 | a read returns the addressed register's word and changes nothing |
| Driver.ADS1115.WriteRegister | src/ADS1115_WE.cpp:208-216 | a write stores the word in the addressed register and leaves the other three alone |
| Driver.ADS1115.Init | src/ADS1115_WE.cpp:32-43 | fails without change when the device does not acknowledge; otherwise leaves the reset word, 2048 mV cached and in step, and thresholds 0x8000 and 0x7FFF |
| Driver.ADS1115.SetAlertPinMode | src/ADS1115_WE.cpp:45-50 | only the queue field changes, it reads back as the argument, the cache stays in step |
| Driver.ADS1115.SetAlertLatch | src/ADS1115_WE.cpp:52-57 | only the latch bit changes, it reads back as the argument, the cache stays in step |
| Driver.ADS1115.SetAlertPol | src/ADS1115_WE.cpp:59-64 | only the polarity bit changes, it reads back as the argument, the cache stays in step |
| Driver.ADS1115.SetAlertModeAndLimit_V | src/ADS1115_WE.cpp:66-76 | only the comparator-mode bit of the configuration changes; the high and low thresholds read back as the given `int16_t` limits |
| Driver.ADS1115.SetConvRate | src/ADS1115_WE.cpp:78-83 | only the data-rate field changes and it reads back as the argument, 64 SPS included |
| Driver.ADS1115.SetMeasureMode | src/ADS1115_WE.cpp:85-90 | only the mode bit changes, it reads back as the argument, the cache stays in step |
| Driver.ADS1115.SetCompareChannels | src/ADS1115_WE.cpp:136-141 | only the multiplexer field changes, it reads back as the argument, the cache stays in step |
| Driver.ADS1115.SetVoltageRange_mV | src/ADS1115_WE.cpp:92-134 | the gain field and the cache both become the new range; every other bit of the entry word, the mode included, is kept; each threshold is rescaled exactly when alerts are on and the range changes |
| Driver.ADS1115.RescaleLimits | src/ADS1115_WE.cpp:122-128 | both thresholds become their rescaled values; conversion and configuration are untouched |
| Driver.ADS1115.IsBusy | src/ADS1115_WE.cpp:143-146 | busy exactly when bit 15 of the configuration reads 0 |
| Driver.ADS1115.StartSingleMeasurement | src/ADS1115_WE.cpp:148-152 | bit 15 is set, every other bit and register is kept, the cache stays in step |
| Driver.ADS1115.GetRawResult | src/ADS1115_WE.cpp:166-169 | the conversion register read as `int16_t`; nothing changes |
| Driver.ADS1115.GetResultWithRange | src/ADS1115_WE.cpp:171-176 | the raw result mapped onto min..max: -32767 gives min, 32767 gives max, and every raw result but -32768 lands in min..max when min <= max |
| Driver.ADS1115.GetVoltageRange_mV | src/ADS1115_WE.cpp:186-188 | the cached range, equal to the gain field's millivolts while in step |
| Driver.ADS1115.SetAlertPinToConversionReady | src/ADS1115_WE.cpp:190-193 | the low threshold becomes 0x0000 (sign bit clear) and the high threshold 0x8000 (sign bit set); configuration untouched |
| Driver.ADS1115.ClearAlert | src/ADS1115_WE.cpp:195-197 | a read of the conversion register that changes no register |
| Driver.RangeChangeHalvesLimits | src/ADS1115_WE.cpp:92-134 | after init, alerts on and limits of 16000 and -16000 at 2048 mV, changing to 4096 mV leaves limits of 8000 and -8000 |

## Left out

- `reset` (src/ADS1115_WE.cpp:26-30) sends the I2C general-call reset byte. Its effect on the device lies outside the driver, and the register file does not model power-on.
- `getResult_V` and `getResult_mV` compute in `float`. Floating point is not modelled.
- `calcLimit` computes in `float`. `Driver.ADS1115.SetAlertModeAndLimit_V` therefore takes the two limits as the `int16_t` values `calcLimit` would return.
- The three-argument `getResultWithRange` (src/ADS1115_WE.cpp:178-184) rounds a `double`. It is not modelled.
- The Wire transport is not modelled: bus timing, arbitration, and `endTransmission`'s status byte, which `writeRegister` returns and every caller drops. The device is the register file. Only the empty reply is modelled (`Codec.ReadValue`'s no-data case); a one-byte reply, whose missing low byte `Wire.read()` gives as 0xFF, is not.
- `init`'s address probe is the `acknowledged` parameter of `Driver.ADS1115.Init`.
- The device's own behaviour is not modelled: conversions, bit 15 clearing while a conversion runs, the ALERT/RDY pin, and the release of a latched alert on a read. `ClearAlert` is therefore only a read.
- The field `deviceMeasureMode` is declared but never used.
- The constructors leave `voltageRange` unset, as the source does. The model leaves it unconstrained.
- `Driver.ADS1115.SetVoltageRange_mV`: the source multiplies by the `double` ratio `old * 1.0 / new` and truncates. The model truncates the exact product `old * limit / new`. The two agree whenever the cached range is a table value; they can differ by one code only when the cache holds another value (before `init`) and the new range is 6144 mV.
- `Driver.ADS1115.SetVoltageRange_mV`: converting a rescaled limit that does not fit to `int16_t` is undefined in C++. The model requires both limits to fit whenever rescaling happens; `Codec.RescaleToWiderFits` shows that they always do when the range widens.
- `Codec.ScaleToRange`: the Arduino core's `map` is taken to be `(x - inMin) * (outMax - outMin) / (inMax - inMin) + outMin` with truncating division. Overflow of its 32-bit `long` arithmetic is not modelled; on such targets the product can overflow when `|max - min|` exceeds 32769.
- The ADS1015 variant and the example sketches are not part of this model.

## Findings

| source | as written | input that shows it | evidently intended | confidence | as-written member | corrected member |
|---|---|---|---|---|---|---|
| src/ADS1115_WE.h:65 | `ADS1115_64_SPS = 0x0050` | `setConvRate(ADS1115_64_SPS)` on any configuration: the data-rate field reads 0b010 (32 SPS) and bit 4 switches the comparator to window mode | 0x0060, the data-rate field value 0b011 that the TI ADS1115 datasheet's configuration register table assigns to 64 SPS | high; not executed | Codec.Sps64UpdateCorrupts | Codec.IntendedConvRateUpdateIsolates |
| src/ADS1115_WE.cpp:121 | `currentRange != range` compares the field index `(conf >> 9) & 7` (0..7) with the unshifted code (0x0000..0x0A00) | configuration 0x8583 (gain field 2048 mV), `setVoltageRange_mV(ADS1115_RANGE_2048)`: the test reports a change. With alerts on and the cache at 4096 mV, a limit of 1000 becomes 2000 | compare `currentRange` with `range >> 9` | high; not executed | Codec.GuardAsWrittenMisfires | Codec.GuardIntendedDetectsChange |
