/** Register map, configuration-register field masks and field encodings of the
    ADS1115 driver (src/ADS1115_WE.h).

    Every field value is a 16-bit word that is already shifted to its position in the
    configuration register, exactly as the header's enums are, so that a setter can OR it
    into the register. Each `...Code` function gives the enum's value; each `Decode...`
    function reads the field back out of a configuration word. */
module Registers {

  datatype Option<T> = None | Some(value: T)

  /** A 16-bit register word (`uint16_t`) and a byte on the bus (`uint8_t`). */
  type Word = x: int | 0 <= x < 0x1_0000
  type Byte = x: int | 0 <= x < 0x100

  /** The word seen as sixteen bits, for the bitwise operations on the configuration
      register. */
  function Bits(w: Word): bv16
  {
    w as bv16
  }

  /** Sixteen bits read as a word. */
  function ToWord(b: bv16): (w: Word)
    ensures Bits(w) == b
  {
    b as int
  }

  // Register addresses: the first byte of every bus transfer.
  const ConvReg: Byte := 0x00
  const ConfigReg: Byte := 0x01
  const LoThreshReg: Byte := 0x02
  const HiThreshReg: Byte := 0x03

  /** Configuration word written by `init`: the device's power-on defaults. */
  const ResetVal: Word := 0x8583

  // Masks the setters clear before OR-ing in a field value.
  const CompQueMask: bv16 := 0x0003
  const LatchMask: bv16 := 0x0004
  const AlertPolMask: bv16 := 0x0008
  const CompModeMask: bv16 := 0x0010
  const ConvRateMask: bv16 := 0x00E0
  const MeasureModeMask: bv16 := 0x0100
  const RangeMask: bv16 := 0x0E00
  const MuxMask: bv16 := 0x7000
  const StatusMask: bv16 := 0x8000

  // ---------------------------------------------------------------- comparator queue

  datatype CompQue = AssertAfter1 | AssertAfter2 | AssertAfter4 | DisableAlert

  function CompQueCode(q: CompQue): (c: bv16)
    ensures c & !CompQueMask == 0
    ensures c == 0x0003 <==> q == DisableAlert
  {
    match q
    case AssertAfter1 => 0x0000
    case AssertAfter2 => 0x0001
    case AssertAfter4 => 0x0002
    case DisableAlert => 0x0003
  }

  function DecodeCompQue(conf: Word): (q: CompQue)
    ensures CompQueCode(q) == Bits(conf) & CompQueMask
  {
    var f := Bits(conf) & CompQueMask;
    if f == 0x0000 then AssertAfter1
    else if f == 0x0001 then AssertAfter2
    else if f == 0x0002 then AssertAfter4
    else DisableAlert
  }

  // ---------------------------------------------------------------- latch, polarity, comparator mode

  datatype Latch = LatchDisabled | LatchEnabled

  function LatchCode(l: Latch): (c: bv16)
    ensures c & !LatchMask == 0
    ensures c == LatchMask <==> l == LatchEnabled
  {
    match l
    case LatchDisabled => 0x0000
    case LatchEnabled => 0x0004
  }

  function DecodeLatch(conf: Word): (l: Latch)
    ensures LatchCode(l) == Bits(conf) & LatchMask
  {
    if Bits(conf) & LatchMask == 0 then LatchDisabled else LatchEnabled
  }

  datatype AlertPol = ActLow | ActHigh

  function AlertPolCode(p: AlertPol): (c: bv16)
    ensures c & !AlertPolMask == 0
    ensures c == AlertPolMask <==> p == ActHigh
  {
    match p
    case ActLow => 0x0000
    case ActHigh => 0x0008
  }

  function DecodeAlertPol(conf: Word): (p: AlertPol)
    ensures AlertPolCode(p) == Bits(conf) & AlertPolMask
  {
    if Bits(conf) & AlertPolMask == 0 then ActLow else ActHigh
  }

  datatype CompMode = MaxLimit | Window

  function CompModeCode(m: CompMode): (c: bv16)
    ensures c & !CompModeMask == 0
    ensures c == CompModeMask <==> m == Window
  {
    match m
    case MaxLimit => 0x0000
    case Window => 0x0010
  }

  function DecodeCompMode(conf: Word): (m: CompMode)
    ensures CompModeCode(m) == Bits(conf) & CompModeMask
  {
    if Bits(conf) & CompModeMask == 0 then MaxLimit else Window
  }

  // ---------------------------------------------------------------- conversion rate

  datatype ConvRate = Sps8 | Sps16 | Sps32 | Sps64 | Sps128 | Sps250 | Sps475 | Sps860

  /** The header's values, including the one for 64 SPS (0x0050), which is not a value of
      the three-bit data-rate field: it sets bit 4, the comparator-mode bit. */
  function ConvRateCode(r: ConvRate): (c: bv16)
    ensures r != Sps64 ==> c & !ConvRateMask == 0
    ensures r == Sps64 ==> c & !ConvRateMask == CompModeCode(Window)
  {
    match r
    case Sps8 => 0x0000
    case Sps16 => 0x0020
    case Sps32 => 0x0040
    case Sps64 => 0x0050
    case Sps128 => 0x0080
    case Sps250 => 0x00A0
    case Sps475 => 0x00C0
    case Sps860 => 0x00E0
  }

  /** Reads the data-rate field against the header's values. The field value 0x0060 has no
      header name, because the header's 64 SPS value is 0x0050. */
  function DecodeConvRate(conf: Word): (r: Option<ConvRate>)
    ensures r.Some? ==> ConvRateCode(r.value) & ConvRateMask == Bits(conf) & ConvRateMask
    ensures r.Some? ==> r.value != Sps64
    ensures r.None? <==> Bits(conf) & ConvRateMask == 0x0060
  {
    var f := Bits(conf) & ConvRateMask;
    if f == 0x0000 then Some(Sps8)
    else if f == 0x0020 then Some(Sps16)
    else if f == 0x0040 then Some(Sps32)
    else if f == 0x0080 then Some(Sps128)
    else if f == 0x00A0 then Some(Sps250)
    else if f == 0x00C0 then Some(Sps475)
    else if f == 0x00E0 then Some(Sps860)
    else None
  }

  /** The data-rate encoding the device expects: 64 SPS is the field value 0b011, 0x0060. */
  function IntendedConvRateCode(r: ConvRate): (c: bv16)
    ensures c & !ConvRateMask == 0
  {
    match r
    case Sps8 => 0x0000
    case Sps16 => 0x0020
    case Sps32 => 0x0040
    case Sps64 => 0x0060
    case Sps128 => 0x0080
    case Sps250 => 0x00A0
    case Sps475 => 0x00C0
    case Sps860 => 0x00E0
  }

  function DecodeIntendedConvRate(conf: Word): (r: ConvRate)
    ensures IntendedConvRateCode(r) == Bits(conf) & ConvRateMask
  {
    var f := Bits(conf) & ConvRateMask;
    if f == 0x0000 then Sps8
    else if f == 0x0020 then Sps16
    else if f == 0x0040 then Sps32
    else if f == 0x0060 then Sps64
    else if f == 0x0080 then Sps128
    else if f == 0x00A0 then Sps250
    else if f == 0x00C0 then Sps475
    else Sps860
  }

  // ---------------------------------------------------------------- measurement mode

  /** `Continous` is the header's misspelled name, kept beside `Continuous`; both are 0. */
  datatype MeasureMode = Continous | Continuous | Single

  function MeasureModeCode(m: MeasureMode): (c: bv16)
    ensures c & !MeasureModeMask == 0
    ensures c == MeasureModeMask <==> m == Single
  {
    match m
    case Continous => 0x0000
    case Continuous => 0x0000
    case Single => 0x0100
  }

  function DecodeMeasureMode(conf: Word): (m: MeasureMode)
    ensures MeasureModeCode(m) == Bits(conf) & MeasureModeMask
    ensures m != Continous
  {
    if Bits(conf) & MeasureModeMask == 0 then Continuous else Single
  }

  // ---------------------------------------------------------------- full-scale range

  datatype Range = Range6144 | Range4096 | Range2048 | Range1024 | Range0512 | Range0256

  function RangeCode(r: Range): (c: bv16)
    ensures c & !RangeMask == 0
  {
    match r
    case Range6144 => 0x0000
    case Range4096 => 0x0200
    case Range2048 => 0x0400
    case Range1024 => 0x0600
    case Range0512 => 0x0800
    case Range0256 => 0x0A00
  }

  /** The full-scale range in millivolts, as `setVoltageRange_mV`'s switch assigns it. */
  function RangeMv(r: Range): (mv: int)
    ensures 256 <= mv <= 6144
  {
    match r
    case Range6144 => 6144
    case Range4096 => 4096
    case Range2048 => 2048
    case Range1024 => 1024
    case Range0512 => 512
    case Range0256 => 256
  }

  /** Millivolts by range index, the index being the three-bit gain field. */
  const RangeTable: seq<int> := [6144, 4096, 2048, 1024, 512, 256]

  /** The gain field as an index 0..7: `(conf >> 9) & 7`. */
  function RangeIndex(conf: Word): (i: nat)
    ensures i < 8
    ensures i as bv16 << 9 == Bits(conf) & RangeMask
  {
    ((Bits(conf) >> 9) & 7) as nat
  }

  /** Reads the gain field against the header's values; 6 and 7 have no header name. */
  function DecodeRange(conf: Word): (r: Option<Range>)
    ensures r.Some? ==> RangeCode(r.value) == Bits(conf) & RangeMask
    ensures r.None? <==> RangeIndex(conf) >= 6
  {
    var f := Bits(conf) & RangeMask;
    if f == 0x0000 then Some(Range6144)
    else if f == 0x0200 then Some(Range4096)
    else if f == 0x0400 then Some(Range2048)
    else if f == 0x0600 then Some(Range1024)
    else if f == 0x0800 then Some(Range0512)
    else if f == 0x0A00 then Some(Range0256)
    else None
  }

  // ---------------------------------------------------------------- input multiplexer

  datatype Mux =
    | Comp0_1 | Comp0_3 | Comp1_3 | Comp2_3
    | Comp0_Gnd | Comp1_Gnd | Comp2_Gnd | Comp3_Gnd

  function MuxCode(m: Mux): (c: bv16)
    ensures c & !MuxMask == 0
  {
    match m
    case Comp0_1 => 0x0000
    case Comp0_3 => 0x1000
    case Comp1_3 => 0x2000
    case Comp2_3 => 0x3000
    case Comp0_Gnd => 0x4000
    case Comp1_Gnd => 0x5000
    case Comp2_Gnd => 0x6000
    case Comp3_Gnd => 0x7000
  }

  function DecodeMux(conf: Word): (m: Mux)
    ensures MuxCode(m) == Bits(conf) & MuxMask
  {
    var f := Bits(conf) & MuxMask;
    if f == 0x0000 then Comp0_1
    else if f == 0x1000 then Comp0_3
    else if f == 0x2000 then Comp1_3
    else if f == 0x3000 then Comp2_3
    else if f == 0x4000 then Comp0_Gnd
    else if f == 0x5000 then Comp1_Gnd
    else if f == 0x6000 then Comp2_Gnd
    else Comp3_Gnd
  }

  // ---------------------------------------------------------------- status / start bit

  datatype StatusOrStart = Busy | StartIsReady

  function StatusCode(s: StatusOrStart): (c: bv16)
    ensures c & !StatusMask == 0
    ensures c == StatusMask <==> s == StartIsReady
  {
    match s
    case Busy => 0x0000
    case StartIsReady => 0x8000
  }

  // ---------------------------------------------------------------- properties of the encodings

  /** Neighbouring field masks do not overlap, and together the masks cover all sixteen bits. */
  lemma MasksPartitionWord()
    ensures CompQueMask | LatchMask | AlertPolMask | CompModeMask | ConvRateMask
            | MeasureModeMask | RangeMask | MuxMask | StatusMask == 0xFFFF
    ensures CompQueMask & LatchMask == 0 && LatchMask & AlertPolMask == 0
    ensures AlertPolMask & CompModeMask == 0 && CompModeMask & ConvRateMask == 0
    ensures ConvRateMask & MeasureModeMask == 0 && MeasureModeMask & RangeMask == 0
    ensures RangeMask & MuxMask == 0 && MuxMask & StatusMask == 0
  {
  }

  /** Each enum is encoded injectively, and decoding its code gives it back (the misspelled
      continuous mode decodes to the correctly spelled one, which has the same value). */
  lemma AlertCodesRoundTrip(q: CompQue, l: Latch, p: AlertPol, c: CompMode)
    ensures DecodeCompQue(ToWord(CompQueCode(q))) == q
    ensures DecodeLatch(ToWord(LatchCode(l))) == l
    ensures DecodeAlertPol(ToWord(AlertPolCode(p))) == p
    ensures DecodeCompMode(ToWord(CompModeCode(c))) == c
  {
  }

  lemma CodesRoundTrip(m: Mux, s: Range, mm: MeasureMode)
    ensures DecodeMux(ToWord(MuxCode(m))) == m
    ensures DecodeRange(ToWord(RangeCode(s))) == Some(s)
    ensures DecodeMeasureMode(ToWord(MeasureModeCode(mm))) == if mm == Continous then Continuous else mm
  {
  }

  /** Distinct enum values have distinct codes, except the two spellings of continuous. */
  lemma CodesDistinct(m1: Mux, m2: Mux, r1: Range, r2: Range, mm1: MeasureMode, mm2: MeasureMode)
    ensures MuxCode(m1) == MuxCode(m2) <==> m1 == m2
    ensures RangeCode(r1) == RangeCode(r2) <==> r1 == r2
    ensures MeasureModeCode(mm1) == MeasureModeCode(mm2) <==> (mm1 == Single <==> mm2 == Single)
    ensures MeasureModeCode(Continous) == MeasureModeCode(Continuous) == 0
  {
  }

  /** The range codes are the multiples 0..5 of 0x0200, and the index `code >> 9` selects
      the range's millivolts from the table 6144, 4096, 2048, 1024, 512, 256. */
  lemma RangeCodeIndexesTable(r: Range)
    ensures RangeIndex(ToWord(RangeCode(r))) < |RangeTable|
    ensures RangeCode(r) == (RangeIndex(ToWord(RangeCode(r))) as bv16) * 0x0200
    ensures RangeTable[RangeIndex(ToWord(RangeCode(r)))] == RangeMv(r)
  {
  }

  /** The header's 64 SPS value lands in two fields: the data-rate field reads as 32 SPS,
      and the comparator-mode field reads as window mode. */
  lemma Sps64SetsComparatorBit()
    ensures DecodeConvRate(ToWord(ConvRateCode(Sps64))) == Some(Sps32)
    ensures DecodeCompMode(ToWord(ConvRateCode(Sps64))) == Window
    ensures forall r :: r != Sps64 ==> DecodeConvRate(ToWord(ConvRateCode(r))) == Some(r)
  {
  }

  /** With the intended encoding all eight rates round-trip through the three-bit field. */
  lemma IntendedConvRateRoundTrip(r: ConvRate, conf: Word)
    ensures DecodeIntendedConvRate(ToWord(IntendedConvRateCode(r))) == r
    ensures IntendedConvRateCode(DecodeIntendedConvRate(conf)) == Bits(conf) & ConvRateMask
    ensures r != Sps64 ==> IntendedConvRateCode(r) == ConvRateCode(r)
  {
  }

  /** The reset word decodes to the defaults the header documents. */
  lemma ResetValDefaults()
    ensures DecodeCompQue(ResetVal) == DisableAlert
    ensures DecodeLatch(ResetVal) == LatchDisabled
    ensures DecodeAlertPol(ResetVal) == ActLow
    ensures DecodeCompMode(ResetVal) == MaxLimit
    ensures DecodeConvRate(ResetVal) == Some(Sps128) && DecodeIntendedConvRate(ResetVal) == Sps128
    ensures DecodeMeasureMode(ResetVal) == Single
    ensures DecodeRange(ResetVal) == Some(Range2048)
    ensures DecodeMux(ResetVal) == Comp0_1
    ensures Bits(ResetVal) & StatusMask == StatusCode(StartIsReady)
  {
  }
}
