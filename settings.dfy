/** A series of setter calls on the configuration register. Every field setter of
    src/ADS1115_WE.cpp clears one mask and ors in one code; these members follow the bits of
    the configuration word through any sequence of such calls. */
module Settings {
  import opened Registers
  import opened Codec

  /** The argument of one field setter: `setAlertPinMode`, `setAlertLatch`, `setAlertPol`,
      the configuration half of `setAlertModeAndLimit_V`, `setConvRate`, `setMeasureMode`,
      the gain-field write of `setVoltageRange_mV` and `setCompareChannels`. */
  datatype Setting =
    | AlertPinMode(q: CompQue)
    | AlertLatch(l: Latch)
    | AlertPolarity(p: AlertPol)
    | ComparatorMode(c: CompMode)
    | DataRate(r: ConvRate)
    | Measure(m: MeasureMode)
    | Gain(g: Range)
    | Channels(x: Mux)

  /** The configuration field a setter writes. */
  datatype Field =
    | CompQueField | LatchField | AlertPolField | CompModeField
    | ConvRateField | MeasureModeField | RangeField | MuxField

  /** The mask of a field, as the setters clear it. */
  function FieldMask(f: Field): bv16
  {
    match f
    case CompQueField => CompQueMask
    case LatchField => LatchMask
    case AlertPolField => AlertPolMask
    case CompModeField => CompModeMask
    case ConvRateField => ConvRateMask
    case MeasureModeField => MeasureModeMask
    case RangeField => RangeMask
    case MuxField => MuxMask
  }

  /** Distinct fields do not overlap. */
  lemma FieldMasksDisjoint(f: Field, g: Field)
    requires f != g
    ensures FieldMask(f) & FieldMask(g) == 0
  {
  }

  /** The bits of a word under a field's mask. */
  function FieldBits(conf: bv16, f: Field): bv16
  {
    conf & FieldMask(f)
  }

  function FieldOf(s: Setting): Field
  {
    match s
    case AlertPinMode(_) => CompQueField
    case AlertLatch(_) => LatchField
    case AlertPolarity(_) => AlertPolField
    case ComparatorMode(_) => CompModeField
    case DataRate(_) => ConvRateField
    case Measure(_) => MeasureModeField
    case Gain(_) => RangeField
    case Channels(_) => MuxField
  }

  /** The code the setter ors in (the data rate in the device's encoding). */
  function SettingCode(s: Setting): bv16
  {
    match s
    case AlertPinMode(q) => CompQueCode(q)
    case AlertLatch(l) => LatchCode(l)
    case AlertPolarity(p) => AlertPolCode(p)
    case ComparatorMode(c) => CompModeCode(c)
    case DataRate(r) => IntendedConvRateCode(r)
    case Measure(m) => MeasureModeCode(m)
    case Gain(g) => RangeCode(g)
    case Channels(x) => MuxCode(x)
  }

  /** Every setter's code stays inside the field it clears. */
  lemma SettingCodeInField(s: Setting)
    ensures SettingCode(s) & !FieldMask(FieldOf(s)) == 0
  {
    var c, m := SettingCode(s), FieldMask(FieldOf(s));
    match s
    case AlertPinMode(q) => assert c == CompQueCode(q) && m == CompQueMask; assert c & !m == 0;
    case AlertLatch(l) => assert c == LatchCode(l) && m == LatchMask; assert c & !m == 0;
    case AlertPolarity(p) => assert c == AlertPolCode(p) && m == AlertPolMask; assert c & !m == 0;
    case ComparatorMode(k) => assert c == CompModeCode(k) && m == CompModeMask; assert c & !m == 0;
    case DataRate(r) => assert c == IntendedConvRateCode(r) && m == ConvRateMask; assert c & !m == 0;
    case Measure(d) => assert c == MeasureModeCode(d) && m == MeasureModeMask; assert c & !m == 0;
    case Gain(g) => assert c == RangeCode(g) && m == RangeMask; assert c & !m == 0;
    case Channels(x) => assert c == MuxCode(x) && m == MuxMask; assert c & !m == 0;
  }

  /** One setter call's effect on the bits of the configuration word. */
  function Apply(conf: bv16, s: Setting): bv16
  {
    (conf & !FieldMask(FieldOf(s))) | SettingCode(s)
  }

  /** `Apply` is the field update a setter performs. */
  lemma ApplyIsFieldUpdate(conf: Word, s: Setting)
    ensures Bits(FieldUpdate(conf, FieldMask(FieldOf(s)), SettingCode(s))) == Apply(Bits(conf), s)
  {
  }

  /** The configuration bits after a series of setter calls, first call first. */
  function Configure(conf: bv16, ss: seq<Setting>): bv16
    decreases |ss|
  {
    if |ss| == 0 then conf else Configure(Apply(conf, ss[0]), ss[1..])
  }

  /** A call leaves its code in its field. */
  lemma ApplySetsField(conf: bv16, s: Setting)
    ensures FieldBits(Apply(conf, s), FieldOf(s)) == SettingCode(s)
  {
    SettingCodeInField(s);
  }

  /** A call keeps every other field. */
  lemma ApplyKeepsOtherFields(conf: bv16, s: Setting, f: Field)
    requires FieldOf(s) != f
    ensures FieldBits(Apply(conf, s), f) == FieldBits(conf, f)
  {
    FieldMasksDisjoint(FieldOf(s), f);
    SettingCodeInField(s);
  }

  /** A field that no call of the series writes keeps its bits. */
  lemma {:induction false} ConfigureKeepsUnwritten(conf: bv16, ss: seq<Setting>, f: Field)
    requires forall i :: 0 <= i < |ss| ==> FieldOf(ss[i]) != f
    ensures FieldBits(Configure(conf, ss), f) == FieldBits(conf, f)
    decreases |ss|
  {
    if |ss| > 0 {
      ApplyKeepsOtherFields(conf, ss[0], f);
      ConfigureKeepsUnwritten(Apply(conf, ss[0]), ss[1..], f);
    }
  }

  /** Calling one more setter at the end of a series updates the series' final word. */
  lemma {:induction false} ConfigureSnoc(conf: bv16, ss: seq<Setting>, s: Setting)
    ensures Configure(conf, ss + [s]) == Apply(Configure(conf, ss), s)
    decreases |ss|
  {
    if |ss| == 0 {
      assert ss + [s] == [s];
    } else {
      assert (ss + [s])[1..] == ss[1..] + [s];
      ConfigureSnoc(Apply(conf, ss[0]), ss[1..], s);
    }
  }

  /** A setting survives every later call of the series that writes another field: its
      field reads back its code from the final word. */
  lemma {:induction false} SettingSurvives(conf: bv16, s: Setting, later: seq<Setting>)
    requires forall i :: 0 <= i < |later| ==> FieldOf(later[i]) != FieldOf(s)
    ensures FieldBits(Configure(conf, [s] + later), FieldOf(s)) == SettingCode(s)
  {
    assert ([s] + later)[1..] == later;
    ConfigureKeepsUnwritten(Apply(conf, s), later, FieldOf(s));
    ApplySetsField(conf, s);
  }

  /** The last call on a field decides it, whatever came before. */
  lemma LastSettingWins(conf: bv16, earlier: seq<Setting>, s: Setting)
    ensures FieldBits(Configure(conf, earlier + [s]), FieldOf(s)) == SettingCode(s)
  {
    ConfigureSnoc(conf, earlier, s);
    ApplySetsField(Configure(conf, earlier), s);
  }
}
