/** The driver object `ADS1115_WE` (src/ADS1115_WE.cpp).

    The device is its register file: four 16-bit words reached over the bus, indexed by the
    register address (conversion, configuration, low threshold, high threshold). The driver
    reaches them only through `ReadRegister` and `WriteRegister`, which move the words as
    big-endian byte pairs. The driver's own state is the bus address and the cached
    full-scale range `voltageRange`, which the constructors leave unset. */
module Driver {
  import opened Registers
  import opened Codec

  /** Bus address used by the constructor without arguments. */
  const DefaultAddress: int := 0x48

  /** Whether `setVoltageRange_mV(r)` rescales the thresholds when the configuration
      register reads `conf` on entry: alerts on, and the gain field not already `r`. */
  predicate RescaleIntended(conf: Word, r: Range)
  {
    RescaleGuardIntended(conf, r) && AlertsEnabled(conf)
  }

  /** The same decision with the range test as the source writes it. */
  predicate RescaleAsWritten(conf: Word, r: Range)
  {
    RescaleGuardAsWritten(conf, r) && AlertsEnabled(conf)
  }

  /** The value a limit register holding `t` has after `setVoltageRange_mV(r)` entered with
      configuration `conf` and cached range `oldMv`. */
  function LimitAfterRangeChange(conf: Word, r: Range, t: Word, oldMv: int): Word
    requires RescaleIntended(conf, r) ==> RescaleFits(t, oldMv, RangeMv(r))
  {
    if RescaleIntended(conf, r) then RescaledLimit(t, oldMv, RangeMv(r)) else t
  }

  /** The same with the range test as written. */
  function LimitAfterRangeChangeAsWritten(conf: Word, r: Range, t: Word, oldMv: int): Word
    requires RescaleAsWritten(conf, r) ==> RescaleFits(t, oldMv, RangeMv(r))
  {
    if RescaleAsWritten(conf, r) then RescaledLimit(t, oldMv, RangeMv(r)) else t
  }

  /** A limit is left alone when alerts are off or the gain field already holds the new
      range; otherwise it becomes the same voltage counted in codes of the new range. */
  lemma LimitAfterRangeChangeCases(conf: Word, r: Range, t: Word, oldMv: int)
    requires RescaleIntended(conf, r) ==> RescaleFits(t, oldMv, RangeMv(r))
    ensures !AlertsEnabled(conf) || DecodeRange(conf) == Some(r) ==>
              LimitAfterRangeChange(conf, r, t, oldMv) == t
    ensures AlertsEnabled(conf) && DecodeRange(conf) != Some(r) ==>
              RescaleFits(t, oldMv, RangeMv(r)) &&
              ToInt16(LimitAfterRangeChange(conf, r, t, oldMv)) == RescaledValue(t, oldMv, RangeMv(r))
  {
    GuardIntendedDetectsChange(conf, r);
  }

  /** While the cached range is in step with the gain field, the written range test gives
      the same limits as the intended one: the extra rescaling it performs is by a ratio of
      one. */
  lemma GuardAsWrittenHarmlessWhenCached(conf: Word, r: Range, t: Word, mv: int)
    requires RangeCached(conf, mv)
    requires RescaleAsWritten(conf, r) ==> RescaleFits(t, mv, RangeMv(r))
    ensures RescaleIntended(conf, r) ==> RescaleFits(t, mv, RangeMv(r))
    ensures LimitAfterRangeChangeAsWritten(conf, r, t, mv) == LimitAfterRangeChange(conf, r, t, mv)
  {
    GuardAsWrittenOverApproximates(conf, r);
    if RescaleAsWritten(conf, r) && !RescaleIntended(conf, r) {
      CachedRangeUnchanged(conf, r, mv);
      RescaleSameRange(t, mv);
    }
  }

  /** With the cache out of step (gain field at 2048 mV, cache at 4096 mV, alerts on),
      asking for 2048 mV doubles a limit of 1000 as written, and keeps it as intended. */
  lemma GuardAsWrittenRescalesUnchangedRange()
    ensures RangeCached(0x8400, 2048) && AlertsEnabled(0x8400)
    ensures RescaleFits(1000, 4096, 2048)
    ensures LimitAfterRangeChangeAsWritten(0x8400, Range2048, 1000, 4096) == 2000
    ensures LimitAfterRangeChange(0x8400, Range2048, 1000, 4096) == 1000
  {
    TruncDivExact(2000, 2048);
    assert 1000 * 4096 == 2000 * 2048;
  }

  class ADS1115 {
    const i2cAddress: int
    const regs: array<Word>
    /** The full-scale range in millivolts, as last set through this driver. */
    var voltageRange: Word

    ghost predicate Valid()
      reads this
    {
      regs.Length == 4
    }

    /** The cached range equals the range the device's gain field holds. */
    ghost predicate Synced()
      reads this, regs
      requires Valid()
    {
      RangeCached(regs[ConfigReg], voltageRange)
    }

    constructor (addr: int, device: array<Word>)
      requires device.Length == 4
      ensures Valid() && i2cAddress == addr && regs == device
    {
      i2cAddress := addr;
      regs := device;
    }

    constructor Default(device: array<Word>)
      requires device.Length == 4
      ensures Valid() && i2cAddress == DefaultAddress && regs == device
    {
      i2cAddress := DefaultAddress;
      regs := device;
    }

    // ------------------------------------------------------------ register transfers

    /** `readRegister`: the device answers with the register's two bytes, which the driver
        joins back into the word. */
    method ReadRegister(reg: Byte) returns (v: Word)
      requires Valid() && reg < 4
      ensures v == regs[reg]
    {
      var reply := DeviceReply(regs[reg]);
      v := ReadValue(reply);
    }

    /** `writeRegister`: the register address and the two bytes go out, and the device stores the
        word they make up in the addressed register. */
    method WriteRegister(reg: Byte, val: Word)
      requires Valid() && reg < 4
      modifies regs
      ensures regs[reg] == val
      ensures forall i :: 0 <= i < regs.Length && i != reg as int ==> regs[i] == old(regs[i])
    {
      var frame := WriteFrame(reg, val);
      regs[frame[0]] := Join(frame[1], frame[2]);
    }

    // ------------------------------------------------------------ initialisation

    /** `init`: `acknowledged` is whether the device answered its address. Without an
        answer nothing is written; otherwise the configuration register gets its reset
        word, the range is set to 2048 mV (no rescaling, since the reset word disables
        alerts) and the thresholds are opened to their extremes. */
    method Init(acknowledged: bool) returns (ok: bool)
      requires Valid()
      modifies this, regs
      ensures ok == acknowledged
      ensures !ok ==> unchanged(this) && unchanged(regs)
      ensures regs[ConvReg] == old(regs[ConvReg])
      ensures ok ==> regs[ConfigReg] == ResetVal && regs[LoThreshReg] == 0x8000 && regs[HiThreshReg] == 0x7FFF
      ensures ok ==> voltageRange == 2048 && Synced()
    {
      if !acknowledged {
        return false;
      }
      WriteRegister(ConfigReg, ResetVal);
      SetVoltageRange_mV(Range2048);
      WriteRegister(LoThreshReg, 0x8000);
      WriteRegister(HiThreshReg, 0x7FFF);
      return true;
    }

    // ------------------------------------------------------------ field setters

    /** `setAlertPinMode`: the comparator-queue field takes the new value; every other bit
        of the configuration register is kept. The same holds for each field setter below. */
    method SetAlertPinMode(mode: CompQue)
      requires Valid()
      modifies regs
      ensures regs[ConfigReg] == FieldUpdate(old(regs[ConfigReg]), CompQueMask, CompQueCode(mode))
      ensures regs[ConvReg] == old(regs[ConvReg]) && regs[LoThreshReg] == old(regs[LoThreshReg]) && regs[HiThreshReg] == old(regs[HiThreshReg])
      ensures SameOutside(regs[ConfigReg], old(regs[ConfigReg]), CompQueMask)
      ensures DecodeCompQue(regs[ConfigReg]) == mode
      ensures old(Synced()) ==> Synced()
    {
      var currentConfReg := ReadRegister(ConfigReg);
      var newConf := FieldUpdate(currentConfReg, CompQueMask, CompQueCode(mode));
      FieldUpdateIsolates(currentConfReg, CompQueMask, CompQueCode(mode));
      SameOutsideKeepsRange(newConf, currentConfReg, CompQueMask, voltageRange);
      CompQueUpdate(currentConfReg, mode);
      WriteRegister(ConfigReg, newConf);
    }

    method SetAlertLatch(latch: Latch)
      requires Valid()
      modifies regs
      ensures regs[ConfigReg] == FieldUpdate(old(regs[ConfigReg]), LatchMask, LatchCode(latch))
      ensures regs[ConvReg] == old(regs[ConvReg]) && regs[LoThreshReg] == old(regs[LoThreshReg]) && regs[HiThreshReg] == old(regs[HiThreshReg])
      ensures SameOutside(regs[ConfigReg], old(regs[ConfigReg]), LatchMask)
      ensures DecodeLatch(regs[ConfigReg]) == latch
      ensures old(Synced()) ==> Synced()
    {
      var currentConfReg := ReadRegister(ConfigReg);
      var newConf := FieldUpdate(currentConfReg, LatchMask, LatchCode(latch));
      FieldUpdateIsolates(currentConfReg, LatchMask, LatchCode(latch));
      SameOutsideKeepsRange(newConf, currentConfReg, LatchMask, voltageRange);
      LatchUpdate(currentConfReg, latch);
      WriteRegister(ConfigReg, newConf);
    }

    method SetAlertPol(polarity: AlertPol)
      requires Valid()
      modifies regs
      ensures regs[ConfigReg] == FieldUpdate(old(regs[ConfigReg]), AlertPolMask, AlertPolCode(polarity))
      ensures regs[ConvReg] == old(regs[ConvReg]) && regs[LoThreshReg] == old(regs[LoThreshReg]) && regs[HiThreshReg] == old(regs[HiThreshReg])
      ensures SameOutside(regs[ConfigReg], old(regs[ConfigReg]), AlertPolMask)
      ensures DecodeAlertPol(regs[ConfigReg]) == polarity
      ensures old(Synced()) ==> Synced()
    {
      var currentConfReg := ReadRegister(ConfigReg);
      var newConf := FieldUpdate(currentConfReg, AlertPolMask, AlertPolCode(polarity));
      FieldUpdateIsolates(currentConfReg, AlertPolMask, AlertPolCode(polarity));
      SameOutsideKeepsRange(newConf, currentConfReg, AlertPolMask, voltageRange);
      AlertPolUpdate(currentConfReg, polarity);
      WriteRegister(ConfigReg, newConf);
    }

    /** `setAlertModeAndLimit_V`: the comparator mode goes into the configuration register,
        then the high and the low limit into their registers. The limits are taken as the
        16-bit codes `calcLimit` produced from the volt values. */
    method SetAlertModeAndLimit_V(mode: CompMode, hiLimit: Int16, loLimit: Int16)
      requires Valid()
      modifies regs
      ensures regs[ConfigReg] == FieldUpdate(old(regs[ConfigReg]), CompModeMask, CompModeCode(mode))
      ensures regs[HiThreshReg] == FromInt16(hiLimit) && regs[LoThreshReg] == FromInt16(loLimit)
      ensures regs[ConvReg] == old(regs[ConvReg])
      ensures SameOutside(regs[ConfigReg], old(regs[ConfigReg]), CompModeMask)
      ensures DecodeCompMode(regs[ConfigReg]) == mode
      ensures ToInt16(regs[HiThreshReg]) == hiLimit && ToInt16(regs[LoThreshReg]) == loLimit
      ensures old(Synced()) ==> Synced()
    {
      var currentConfReg := ReadRegister(ConfigReg);
      var newConf := FieldUpdate(currentConfReg, CompModeMask, CompModeCode(mode));
      FieldUpdateIsolates(currentConfReg, CompModeMask, CompModeCode(mode));
      SameOutsideKeepsRange(newConf, currentConfReg, CompModeMask, voltageRange);
      CompModeUpdate(currentConfReg, mode);
      WriteRegister(ConfigReg, newConf);
      WriteRegister(HiThreshReg, FromInt16(hiLimit));
      WriteRegister(LoThreshReg, FromInt16(loLimit));
    }

    /** `setConvRate`, with the data-rate values the device defines (64 SPS is 0x0060; see
        `IntendedConvRateCode`): only the data-rate field changes. */
    method SetConvRate(rate: ConvRate)
      requires Valid()
      modifies regs
      ensures regs[ConfigReg] == FieldUpdate(old(regs[ConfigReg]), ConvRateMask, IntendedConvRateCode(rate))
      ensures regs[ConvReg] == old(regs[ConvReg]) && regs[LoThreshReg] == old(regs[LoThreshReg]) && regs[HiThreshReg] == old(regs[HiThreshReg])
      ensures SameOutside(regs[ConfigReg], old(regs[ConfigReg]), ConvRateMask)
      ensures DecodeIntendedConvRate(regs[ConfigReg]) == rate
      ensures old(Synced()) ==> Synced()
    {
      var currentConfReg := ReadRegister(ConfigReg);
      var newConf := FieldUpdate(currentConfReg, ConvRateMask, IntendedConvRateCode(rate));
      IntendedConvRateUpdateIsolates(currentConfReg, rate);
      SameOutsideKeepsRange(newConf, currentConfReg, ConvRateMask, voltageRange);
      WriteRegister(ConfigReg, newConf);
    }

    method SetMeasureMode(mode: MeasureMode)
      requires Valid()
      modifies regs
      ensures regs[ConfigReg] == FieldUpdate(old(regs[ConfigReg]), MeasureModeMask, MeasureModeCode(mode))
      ensures regs[ConvReg] == old(regs[ConvReg]) && regs[LoThreshReg] == old(regs[LoThreshReg]) && regs[HiThreshReg] == old(regs[HiThreshReg])
      ensures SameOutside(regs[ConfigReg], old(regs[ConfigReg]), MeasureModeMask)
      ensures DecodeMeasureMode(regs[ConfigReg]) == (if mode == Single then Single else Continuous)
      ensures old(Synced()) ==> Synced()
    {
      var currentConfReg := ReadRegister(ConfigReg);
      var newConf := FieldUpdate(currentConfReg, MeasureModeMask, MeasureModeCode(mode));
      FieldUpdateIsolates(currentConfReg, MeasureModeMask, MeasureModeCode(mode));
      SameOutsideKeepsRange(newConf, currentConfReg, MeasureModeMask, voltageRange);
      MeasureModeUpdate(currentConfReg, mode);
      WriteRegister(ConfigReg, newConf);
    }

    method SetCompareChannels(mux: Mux)
      requires Valid()
      modifies regs
      ensures regs[ConfigReg] == FieldUpdate(old(regs[ConfigReg]), MuxMask, MuxCode(mux))
      ensures regs[ConvReg] == old(regs[ConvReg]) && regs[LoThreshReg] == old(regs[LoThreshReg]) && regs[HiThreshReg] == old(regs[HiThreshReg])
      ensures SameOutside(regs[ConfigReg], old(regs[ConfigReg]), MuxMask)
      ensures DecodeMux(regs[ConfigReg]) == mux
      ensures old(Synced()) ==> Synced()
    {
      var currentConfReg := ReadRegister(ConfigReg);
      var newConf := FieldUpdate(currentConfReg, MuxMask, MuxCode(mux));
      FieldUpdateIsolates(currentConfReg, MuxMask, MuxCode(mux));
      SameOutsideKeepsRange(newConf, currentConfReg, MuxMask, voltageRange);
      MuxUpdate(currentConfReg, mux);
      WriteRegister(ConfigReg, newConf);
    }

    // ------------------------------------------------------------ range change

    /** `setVoltageRange_mV`. The configuration word is read once on entry; single-shot mode
        is then written to the device, but the final write puts back that entry word with
        only the gain field replaced, so the mode bit ends as it was. The cache takes the
        new range. When the entry word has alerts on and its gain field differs from the new
        range (the test the source means to make; see `GuardAsWrittenHarmlessWhenCached`),
        both thresholds are rescaled by the cached old range over the new one. The conversion
        from floating point to `int16_t` is undefined when the result does not fit, hence
        the precondition. */
    method SetVoltageRange_mV(range: Range)
      requires Valid()
      requires RescaleIntended(regs[ConfigReg], range) ==>
                 RescaleFits(regs[HiThreshReg], voltageRange, RangeMv(range)) &&
                 RescaleFits(regs[LoThreshReg], voltageRange, RangeMv(range))
      modifies this, regs
      ensures voltageRange == RangeMv(range)
      ensures regs[ConfigReg] == FieldUpdate(old(regs[ConfigReg]), RangeMask, RangeCode(range))
      ensures SameOutside(regs[ConfigReg], old(regs[ConfigReg]), RangeMask)
      ensures DecodeRange(regs[ConfigReg]) == Some(range) && Synced()
      ensures DecodeMeasureMode(regs[ConfigReg]) == DecodeMeasureMode(old(regs[ConfigReg]))
      ensures regs[ConvReg] == old(regs[ConvReg])
      ensures regs[HiThreshReg] == LimitAfterRangeChange(old(regs[ConfigReg]), range, old(regs[HiThreshReg]), old(voltageRange))
      ensures regs[LoThreshReg] == LimitAfterRangeChange(old(regs[ConfigReg]), range, old(regs[LoThreshReg]), old(voltageRange))
    {
      var currentVoltageRange := voltageRange;
      var currentConfReg := ReadRegister(ConfigReg);

      SetMeasureMode(Single);

      voltageRange := RangeMv(range);

      if RescaleIntended(currentConfReg, range) {
        RescaleLimits(currentVoltageRange, voltageRange);
      }

      var newConf := FieldUpdate(currentConfReg, RangeMask, RangeCode(range));
      RangeUpdate(currentConfReg, range);
      SameOutsideRangeKeepsMode(newConf, currentConfReg);
      WriteRegister(ConfigReg, newConf);
    }

    /** The rescaling step of `setVoltageRange_mV`: each limit register is read and written
        back as the same voltage expressed in the new range. */
    method RescaleLimits(oldMv: int, newMv: int)
      requires Valid() && newMv > 0
      requires RescaleFits(regs[HiThreshReg], oldMv, newMv) && RescaleFits(regs[LoThreshReg], oldMv, newMv)
      modifies regs
      ensures regs[HiThreshReg] == RescaledLimit(old(regs[HiThreshReg]), oldMv, newMv)
      ensures regs[LoThreshReg] == RescaledLimit(old(regs[LoThreshReg]), oldMv, newMv)
      ensures regs[ConvReg] == old(regs[ConvReg]) && regs[ConfigReg] == old(regs[ConfigReg])
    {
      var alertLimit := ReadRegister(HiThreshReg);
      WriteRegister(HiThreshReg, RescaledLimit(alertLimit, oldMv, newMv));
      alertLimit := ReadRegister(LoThreshReg);
      WriteRegister(LoThreshReg, RescaledLimit(alertLimit, oldMv, newMv));
    }

    // ------------------------------------------------------------ status and results

    /** `isBusy`: a conversion is in progress exactly when bit 15 reads 0. */
    method IsBusy() returns (busy: bool)
      requires Valid()
      ensures busy <==> Bits(regs[ConfigReg]) & StatusMask == 0
    {
      var currentConfReg := ReadRegister(ConfigReg);
      busy := StatusBusy(currentConfReg);
    }

    /** `startSingleMeasurement`: bit 15 is set, every other bit is kept. */
    method StartSingleMeasurement()
      requires Valid()
      modifies regs
      ensures regs[ConfigReg] == WithStartBit(old(regs[ConfigReg]))
      ensures regs[ConvReg] == old(regs[ConvReg]) && regs[LoThreshReg] == old(regs[LoThreshReg]) && regs[HiThreshReg] == old(regs[HiThreshReg])
      ensures SameOutside(regs[ConfigReg], old(regs[ConfigReg]), StatusMask)
      ensures Bits(regs[ConfigReg]) & StatusMask == StatusCode(StartIsReady)
      ensures old(Synced()) ==> Synced()
    {
      var currentConfReg := ReadRegister(ConfigReg);
      StartBitIsStartCode(currentConfReg);
      SameOutsideKeepsRange(WithStartBit(currentConfReg), currentConfReg, StatusMask, voltageRange);
      WriteRegister(ConfigReg, WithStartBit(currentConfReg));
    }

    /** `getRawResult`: the conversion register as a signed 16-bit value. */
    method GetRawResult() returns (raw: Int16)
      requires Valid()
      ensures FromInt16(raw) == regs[ConvReg]
      ensures raw < 0 <==> regs[ConvReg] >= 0x8000
    {
      var word := ReadRegister(ConvReg);
      raw := ToInt16(word);
      Int16RoundTrip(word);
    }

    /** `getResultWithRange(min, max)`: the raw result mapped onto min..max. */
    method GetResultWithRange(min: Int16, max: Int16) returns (result: Int16)
      requires Valid()
      ensures result == ScaleToRange(ToInt16(regs[ConvReg]), min, max)
      ensures ToInt16(regs[ConvReg]) == -32767 ==> result == min
      ensures ToInt16(regs[ConvReg]) == 32767 ==> result == max
      ensures min <= max && ToInt16(regs[ConvReg]) != -32768 ==> min <= result <= max
    {
      var word := ReadRegister(ConvReg);
      var rawResult := ToInt16(word);
      result := ScaleToRange(rawResult, min, max);
    }

    /** `getVoltageRange_mV`: the cached range, which is the device's when in sync. */
    method GetVoltageRange_mV() returns (mv: Word)
      requires Valid()
      ensures mv == voltageRange
      ensures Synced() ==> DecodeRange(regs[ConfigReg]).Some? && mv == RangeMv(DecodeRange(regs[ConfigReg]).value)
    {
      mv := voltageRange;
    }

    // ------------------------------------------------------------ alert pin

    /** `setAlertPinToConversionReady`: low threshold 0x0000 and high threshold 0x8000, the
        sign-bit pattern that turns the alert pin into a conversion-ready signal. */
    method SetAlertPinToConversionReady()
      requires Valid()
      modifies regs
      ensures regs[LoThreshReg] == 0x0000 && regs[HiThreshReg] == 0x8000
      ensures regs[ConvReg] == old(regs[ConvReg]) && regs[ConfigReg] == old(regs[ConfigReg])
      ensures ToInt16(regs[HiThreshReg]) < 0 <= ToInt16(regs[LoThreshReg])
      ensures old(Synced()) ==> Synced()
    {
      WriteRegister(LoThreshReg, 0x0000);
      WriteRegister(HiThreshReg, 0x8000);
    }

    /** `clearAlert`: a read of the conversion register, which releases a latched alert on
        the device; no register changes. */
    method ClearAlert()
      requires Valid()
      ensures unchanged(this) && unchanged(regs)
    {
      var _ := ReadRegister(ConvReg);
    }
  }

  /** The reset word with the alert queue set to one conversion and the comparator in
      traditional mode has alerts on, and its range test fires for 4096 mV. */
  lemma AlertsOnAfterReset()
    ensures FieldUpdate(FieldUpdate(ResetVal, CompQueMask, CompQueCode(AssertAfter1)),
                        CompModeMask, CompModeCode(MaxLimit)) == 0x8580
    ensures RescaleIntended(0x8580, Range4096)
  {
  }

  /** A range change from 2048 mV to 4096 mV after `init`, with alerts on and limits at
      +-1000 mV (codes +-16000 at 2048 mV): both limit codes are halved. */
  method RangeChangeHalvesLimits(device: array<Word>)
    requires device.Length == 4
    modifies device
    ensures DecodeRange(device[ConfigReg]) == Some(Range4096)
    ensures ToInt16(device[HiThreshReg]) == 8000 && ToInt16(device[LoThreshReg]) == -8000
  {
    var adc := new ADS1115.Default(device);
    var ok := adc.Init(true);
    adc.SetAlertPinMode(AssertAfter1);
    adc.SetAlertModeAndLimit_V(MaxLimit, 16000, -16000);
    AlertsOnAfterReset();
    RescaleToDoubleRange(device[HiThreshReg], 2048);
    RescaleToDoubleRange(device[LoThreshReg], 2048);
    adc.SetVoltageRange_mV(Range4096);
  }
}
