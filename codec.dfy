/** The pure arithmetic and bit logic of src/ADS1115_WE.cpp: the read-modify-write of a
    configuration field, the busy test, the big-endian byte framing of register transfers,
    two's-complement reinterpretation of 16-bit words, the threshold rescaling on a range
    change and the integer range mapping of `getResultWithRange`. */
module Codec {
  import opened Registers

  type Int16 = x: int | -0x8000 <= x < 0x8000

  // ---------------------------------------------------------------- field update

  /** `conf &= ~mask; conf |= value;`: the step every setter performs. Bits outside the mask
      keep their value unless `value` itself has bits there. */
  function FieldUpdate(conf: Word, mask: bv16, value: bv16): (r: Word)
    ensures Bits(r) & !mask == (Bits(conf) & !mask) | (value & !mask)
    ensures Bits(r) & mask == value & mask
  {
    ToWord((Bits(conf) & !mask) | value)
  }

  /** `a` and `b` hold the same bits outside `mask`. */
  predicate SameOutside(a: Word, b: Word, mask: bv16)
  {
    Bits(a) & !mask == Bits(b) & !mask
  }

  /** When the value lies inside the mask, only the field changes and it becomes the value. */
  lemma FieldUpdateIsolates(conf: Word, mask: bv16, value: bv16)
    requires value & !mask == 0
    ensures SameOutside(FieldUpdate(conf, mask, value), conf, mask)
    ensures Bits(FieldUpdate(conf, mask, value)) & mask == value
  {
  }

  /** The cached millivolt value `mv` names the range held in the gain field of `conf`. */
  predicate RangeCached(conf: Word, mv: int)
  {
    match DecodeRange(conf)
    case Some(r) => mv == RangeMv(r)
    case None => false
  }

  /** Words that agree outside a mask clear of the gain field hold the same range. */
  lemma SameOutsideKeepsRange(a: Word, b: Word, mask: bv16, mv: int)
    requires SameOutside(a, b, mask) && mask & RangeMask == 0
    ensures DecodeRange(a) == DecodeRange(b)
    ensures RangeCached(a, mv) <==> RangeCached(b, mv)
  {
    assert Bits(a) & RangeMask == Bits(b) & RangeMask by {
      assert RangeMask & !mask == RangeMask;
      assert Bits(a) & RangeMask == (Bits(a) & !mask) & RangeMask;
      assert Bits(b) & RangeMask == (Bits(b) & !mask) & RangeMask;
    }
  }

  /** Words that agree outside the gain field are in the same conversion mode. */
  lemma SameOutsideRangeKeepsMode(a: Word, b: Word)
    requires SameOutside(a, b, RangeMask)
    ensures DecodeMeasureMode(a) == DecodeMeasureMode(b)
  {
    assert Bits(a) & MeasureModeMask == (Bits(a) & !RangeMask) & MeasureModeMask;
    assert Bits(b) & MeasureModeMask == (Bits(b) & !RangeMask) & MeasureModeMask;
  }

  /** Each setter's field reads back as the value it wrote. */
  lemma CompQueUpdate(conf: Word, q: CompQue)
    ensures DecodeCompQue(FieldUpdate(conf, CompQueMask, CompQueCode(q))) == q
  {
  }

  lemma LatchUpdate(conf: Word, l: Latch)
    ensures DecodeLatch(FieldUpdate(conf, LatchMask, LatchCode(l))) == l
  {
  }

  lemma AlertPolUpdate(conf: Word, p: AlertPol)
    ensures DecodeAlertPol(FieldUpdate(conf, AlertPolMask, AlertPolCode(p))) == p
  {
  }

  lemma CompModeUpdate(conf: Word, m: CompMode)
    ensures DecodeCompMode(FieldUpdate(conf, CompModeMask, CompModeCode(m))) == m
  {
  }

  lemma MeasureModeUpdate(conf: Word, m: MeasureMode)
    ensures DecodeMeasureMode(FieldUpdate(conf, MeasureModeMask, MeasureModeCode(m)))
            == if m == Single then Single else Continuous
  {
  }

  lemma MuxUpdate(conf: Word, m: Mux)
    ensures DecodeMux(FieldUpdate(conf, MuxMask, MuxCode(m))) == m
  {
  }

  lemma RangeUpdate(conf: Word, r: Range)
    ensures DecodeRange(FieldUpdate(conf, RangeMask, RangeCode(r))) == Some(r)
    ensures SameOutside(FieldUpdate(conf, RangeMask, RangeCode(r)), conf, RangeMask)
  {
  }

  /** The comparator-queue field does not read "alert disabled" (`conf & 3 != 3`). */
  predicate AlertsEnabled(conf: Word)
  {
    Bits(conf) & CompQueMask != CompQueCode(DisableAlert)
  }

  /** The header's 64 SPS value, written by a setter, lands the data-rate field on 32 SPS
      and switches the comparator to window mode. */
  lemma Sps64UpdateCorrupts(conf: Word)
    ensures DecodeConvRate(FieldUpdate(conf, ConvRateMask, ConvRateCode(Sps64))) == Some(Sps32)
    ensures DecodeCompMode(FieldUpdate(conf, ConvRateMask, ConvRateCode(Sps64))) == Window
    ensures SameOutside(FieldUpdate(conf, ConvRateMask, ConvRateCode(Sps64)), conf, ConvRateMask | CompModeMask)
  {
  }

  /** With the intended encoding, setting any rate changes the data-rate field only and
      reads back as that rate. */
  lemma IntendedConvRateUpdateIsolates(conf: Word, rate: ConvRate)
    ensures SameOutside(FieldUpdate(conf, ConvRateMask, IntendedConvRateCode(rate)), conf, ConvRateMask)
    ensures DecodeIntendedConvRate(FieldUpdate(conf, ConvRateMask, IntendedConvRateCode(rate))) == rate
  {
  }

  // ---------------------------------------------------------------- status bit

  /** `!(conf >> 15) & 1`: the device reports a conversion in progress with bit 15 clear. */
  function StatusBusy(conf: Word): (busy: bool)
    ensures busy <==> Bits(conf) & StatusMask == StatusCode(Busy)
  {
    var status := Bits(conf) >> 15;
    var notStatus: bv16 := if status == 0 then 1 else 0;
    notStatus & 1 == 1
  }

  /** `1 << 15`, the bit `startSingleMeasurement` ORs in. */
  const StartBit: bv16 := 1 << 15

  /** `conf |= (1 << 15)`: the word with the start bit set. */
  function WithStartBit(conf: Word): Word
  {
    ToWord(Bits(conf) | StartBit)
  }

  /** The start bit is the header's START_ISREADY value; setting it keeps every other bit,
      and the written word reads as not busy. */
  lemma StartBitIsStartCode(conf: Word)
    ensures StartBit == StatusCode(StartIsReady) == StatusMask
    ensures SameOutside(WithStartBit(conf), conf, StatusMask)
    ensures Bits(WithStartBit(conf)) & StatusMask == StatusCode(StartIsReady)
    ensures !StatusBusy(WithStartBit(conf))
  {
  }

  // ---------------------------------------------------------------- byte framing

  /** `val >> 8` of an unsigned word: its high byte. */
  function HighByte(v: Word): Byte
  {
    v / 256
  }

  /** `val & 255`: its low byte. */
  function LowByte(v: Word): Byte
  {
    v % 256
  }

  /** `(MSByte << 8) + LSByte`: the word a two-byte reply stands for. */
  function Join(ms: Byte, ls: Byte): (v: Word)
    ensures HighByte(v) == ms && LowByte(v) == ls
  {
    ms * 256 + ls
  }

  /** Splitting a word into its bytes and joining them again gives the word back. */
  lemma SplitJoin(v: Word)
    ensures Join(HighByte(v), LowByte(v)) == v
  {
  }

  /** The bytes `writeRegister` sends: the register address, then the high byte, then the
      low byte. */
  function WriteFrame(reg: Byte, val: Word): (frame: seq<Byte>)
    ensures |frame| == 3 && frame[0] == reg
    ensures Join(frame[1], frame[2]) == val
  {
    SplitJoin(val);
    [reg, HighByte(val), LowByte(val)]
  }

  /** What `requestFrom` delivers: nothing, or the two bytes of a register, high first. */
  datatype Reply = NoData | Data(ms: Byte, ls: Byte)

  /** `readRegister`'s result: 0 when no byte is available, the joined bytes otherwise. */
  function ReadValue(reply: Reply): (v: Word)
    ensures reply.NoData? ==> v == 0
    ensures reply.Data? ==> HighByte(v) == reply.ms && LowByte(v) == reply.ls
  {
    match reply
    case NoData => 0
    case Data(ms, ls) => Join(ms, ls)
  }

  /** The device answers a read of a register holding `v` with its two bytes, high first. */
  function DeviceReply(v: Word): (reply: Reply)
    ensures reply.Data?
    ensures ReadValue(reply) == v
  {
    SplitJoin(v);
    Data(HighByte(v), LowByte(v))
  }

  // ---------------------------------------------------------------- 16-bit integers

  /** A register word read into an `int16_t` variable (two's complement). */
  function ToInt16(v: Word): (i: Int16)
    ensures i < 0 <==> v >= 0x8000
    ensures (i - v) % 0x1_0000 == 0
  {
    if v < 0x8000 then v else v - 0x1_0000
  }

  /** An `int16_t` value passed where a `uint16_t` word is expected. */
  function FromInt16(i: Int16): (v: Word)
    ensures v >= 0x8000 <==> i < 0
    ensures ToInt16(v) == i
  {
    if i >= 0 then i else i + 0x1_0000
  }

  lemma Int16RoundTrip(v: Word)
    ensures FromInt16(ToInt16(v)) == v
  {
  }

  /** Narrowing of an integer result to `int16_t` (modulo 2^16, as the compilers the
      library targets do). */
  function Wrap16(i: int): (r: Int16)
    ensures (r - i) % 0x1_0000 == 0
    ensures -0x8000 <= i < 0x8000 ==> r == i
  {
    (i + 0x8000) % 0x1_0000 - 0x8000
  }

  // ---------------------------------------------------------------- truncating division

  /** C's integer division by a positive divisor: the quotient is truncated toward zero. */
  function TruncDiv(a: int, b: int): (q: int)
    requires b > 0
    ensures 0 <= a ==> 0 <= q * b <= a < q * b + b
    ensures a < 0 ==> q * b - b < a <= q * b <= 0
  {
    DivBounds(if a >= 0 then a else -a, b);
    if a >= 0 then a / b else -((-a) / b)
  }

  lemma DivBounds(a: int, b: int)
    requires a >= 0 && b > 0
    ensures 0 <= (a / b) * b <= a < (a / b) * b + b
  {
    assert a == (a / b) * b + a % b;
  }

  lemma MulStrict(x: int, y: int, c: int)
    requires x < y && c > 0
    ensures x * c < y * c
  {
    assert (y - x) * c > 0;
  }

  lemma MulMonotone(x: int, y: int, c: int)
    requires x <= y && c >= 0
    ensures x * c <= y * c
  {
    assert (y - x) * c >= 0;
  }

  /** Multiples of `c` closer than `c` apart come in the order of their factors. */
  lemma QuotientOrder(p: int, q: int, c: int)
    requires c > 0 && p * c < q * c + c
    ensures p <= q
  {
    assert (p - q - 1) * c == p * c - q * c - c;
    if p - q - 1 >= 0 {
      MulMonotone(0, p - q - 1, c);
    }
  }

  /** The truncated quotient is the only integer with its bounds. */
  lemma TruncDivUnique(a: int, b: int, q: int)
    requires b > 0
    requires 0 <= a ==> q * b <= a < q * b + b
    requires a < 0 ==> q * b - b < a <= q * b
    ensures TruncDiv(a, b) == q
  {
    var p := TruncDiv(a, b);
    QuotientOrder(p, q, b);
    QuotientOrder(q, p, b);
  }

  lemma TruncDivExact(k: int, b: int)
    requires b > 0
    ensures TruncDiv(k * b, b) == k
  {
    if k >= 0 {
      MulMonotone(0, k, b);
    } else {
      MulStrict(k, 0, b);
    }
    TruncDivUnique(k * b, b, k);
  }

  lemma TruncDivMonotone(a: int, b: int, c: int)
    requires a <= b && c > 0
    ensures TruncDiv(a, c) <= TruncDiv(b, c)
  {
    QuotientOrder(TruncDiv(a, c), TruncDiv(b, c), c);
  }

  // ---------------------------------------------------------------- threshold rescaling

  /** The threshold `t` rescaled from a range of `oldMv` to one of `newMv`, before it is
      narrowed back to 16 bits. */
  function RescaledValue(t: Word, oldMv: int, newMv: int): int
    requires newMv > 0
  {
    TruncDiv(ToInt16(t) * oldMv, newMv)
  }

  /** The rescaled threshold is representable as `int16_t`; otherwise the conversion from
      floating point in `setVoltageRange_mV` has undefined behaviour. */
  predicate RescaleFits(t: Word, oldMv: int, newMv: int)
    requires newMv > 0
  {
    -0x8000 <= RescaledValue(t, oldMv, newMv) < 0x8000
  }

  /** `alertLimit * (oldRange * 1.0 / newRange)`, truncated and written back as a word. */
  function RescaledLimit(t: Word, oldMv: int, newMv: int): (r: Word)
    requires newMv > 0 && RescaleFits(t, oldMv, newMv)
    ensures ToInt16(r) == RescaledValue(t, oldMv, newMv)
  {
    FromInt16(RescaledValue(t, oldMv, newMv))
  }

  /** Rescaling keeps the threshold's voltage: the old code times the old range and the new
      code times the new range differ by less than one code of the new range, and the sign
      is kept. */
  lemma RescaleKeepsVoltage(t: Word, oldMv: int, newMv: int)
    requires 0 <= oldMv && 0 < newMv && RescaleFits(t, oldMv, newMv)
    ensures var n := ToInt16(RescaledLimit(t, oldMv, newMv)) * newMv;
            var o := ToInt16(t) * oldMv;
            -newMv < o - n < newMv && (o >= 0 ==> n >= 0) && (o <= 0 ==> n <= 0)
  {
  }

  /** Moving to an equal or wider range never overflows. */
  lemma RescaleToWiderFits(t: Word, oldMv: int, newMv: int)
    requires 0 <= oldMv <= newMv && 0 < newMv
    ensures RescaleFits(t, oldMv, newMv)
  {
    var x := ToInt16(t);
    ProductBetween(x, oldMv, newMv);
    TruncDivExact(x, newMv);
    TruncDivExact(0, newMv);
    if x >= 0 {
      TruncDivMonotone(0 * newMv, x * oldMv, newMv);
      TruncDivMonotone(x * oldMv, x * newMv, newMv);
    } else {
      TruncDivMonotone(x * newMv, x * oldMv, newMv);
      TruncDivMonotone(x * oldMv, 0 * newMv, newMv);
    }
  }

  /** `x * oldMv` lies between 0 and `x * newMv` when `oldMv` lies between 0 and `newMv`. */
  lemma ProductBetween(x: int, oldMv: int, newMv: int)
    requires 0 <= oldMv <= newMv
    ensures x >= 0 ==> 0 <= x * oldMv <= x * newMv
    ensures x < 0 ==> x * newMv <= x * oldMv <= 0
  {
    assert x * newMv - x * oldMv == x * (newMv - oldMv);
  }

  /** Rescaling to the same range gives the threshold back unchanged. */
  lemma RescaleSameRange(t: Word, mv: int)
    requires mv > 0
    ensures RescaleFits(t, mv, mv) && RescaledLimit(t, mv, mv) == t
  {
    TruncDivExact(ToInt16(t), mv);
  }

  /** Doubling the range halves the threshold, truncating toward zero. */
  lemma RescaleToDoubleRange(t: Word, mv: int)
    requires mv > 0
    ensures RescaleFits(t, mv, 2 * mv)
    ensures ToInt16(RescaledLimit(t, mv, 2 * mv)) == TruncDiv(ToInt16(t), 2)
  {
    RescaleToWiderFits(t, mv, 2 * mv);
    var x := ToInt16(t);
    var h := TruncDiv(x, 2);
    if x >= 0 {
      MulMonotone(h * 2, x, mv);
      MulMonotone(x + 1, h * 2 + 2, mv);
    } else {
      MulMonotone(x, h * 2, mv);
      MulMonotone(h * 2 - 1, x, mv);
    }
    TruncDivUnique(x * mv, 2 * mv, h);
  }

  // ---------------------------------------------------------------- rescaling guard

  /** The range-change test as `setVoltageRange_mV` writes it: the field index read from the
      register, `(conf >> 9) & 7`, compared with the unshifted range code. */
  predicate RescaleGuardAsWritten(conf: Word, r: Range)
  {
    RangeIndex(conf) as bv16 != RangeCode(r)
  }

  /** The test a range change calls for: the field index against the requested index. */
  predicate RescaleGuardIntended(conf: Word, r: Range)
  {
    RangeIndex(conf) as bv16 != RangeCode(r) >> 9
  }

  /** The intended test is true exactly when the gain field does not already hold `r`. */
  lemma GuardIntendedDetectsChange(conf: Word, r: Range)
    ensures RescaleGuardIntended(conf, r) <==> DecodeRange(conf) != Some(r)
  {
  }

  /** When the cache is in step with the gain field and the intended test sees no change,
      the cached range already is the requested one. */
  lemma CachedRangeUnchanged(conf: Word, r: Range, mv: int)
    requires RangeCached(conf, mv) && !RescaleGuardIntended(conf, r)
    ensures mv == RangeMv(r)
  {
    GuardIntendedDetectsChange(conf, r);
  }

  /** The written test disagrees with the intended one: for the reset word, whose gain field
      already holds 2048 mV, asking for 2048 mV again is taken for a range change. */
  lemma GuardAsWrittenMisfires()
    ensures DecodeRange(ResetVal) == Some(Range2048)
    ensures RescaleGuardAsWritten(ResetVal, Range2048)
    ensures !RescaleGuardIntended(ResetVal, Range2048)
  {
  }

  /** The written test only errs toward rescaling, and for 6144 mV it is exact. */
  lemma GuardAsWrittenOverApproximates(conf: Word, r: Range)
    ensures RescaleGuardIntended(conf, r) ==> RescaleGuardAsWritten(conf, r)
    ensures r == Range6144 ==> (RescaleGuardAsWritten(conf, r) <==> RescaleGuardIntended(conf, r))
    ensures r != Range6144 ==> RescaleGuardAsWritten(conf, r)
  {
  }

  // ---------------------------------------------------------------- result range mapping

  /** Arduino's integer `map`: `(x - inMin) * (outMax - outMin) / (inMax - inMin) + outMin`,
      with C's truncating division. */
  function ArduinoMap(x: int, inMin: int, inMax: int, outMin: int, outMax: int): int
    requires inMin < inMax
  {
    TruncDiv((x - inMin) * (outMax - outMin), inMax - inMin) + outMin
  }

  /** `getResultWithRange(min, max)`: the raw result mapped from -32767..32767 onto
      min..max and narrowed to `int16_t`. The two ends of the domain reach the two ends of
      the target, and every raw result except -32768 stays inside the target. */
  function ScaleToRange(raw: Int16, min: Int16, max: Int16): (r: Int16)
    ensures raw == -32767 ==> r == min
    ensures raw == 32767 ==> r == max
    ensures min <= max && raw != -32768 ==> min <= r <= max
  {
    ScaleEnds(raw, min, max);
    Wrap16(ArduinoMap(raw, -32767, 32767, min, max))
  }

  lemma ScaleEnds(raw: int, min: int, max: int)
    ensures raw == -32767 ==> ArduinoMap(raw, -32767, 32767, min, max) == min
    ensures raw == 32767 ==> ArduinoMap(raw, -32767, 32767, min, max) == max
    ensures -32767 <= raw <= 32767 && min <= max ==>
              min <= ArduinoMap(raw, -32767, 32767, min, max) <= max
  {
    if raw == 32767 {
      TruncDivExact(max - min, 65534);
    } else if -32767 <= raw <= 32767 && min <= max {
      var d := max - min;
      var q := TruncDiv((raw + 32767) * d, 65534);
      MulMonotone(0, raw + 32767, d);
      MulMonotone(raw + 32767, 65534, d);
      if q > d { MulStrict(d, q, 65534); }
    }
  }

  /** The mapping is monotone when min <= max, including the out-of-domain raw -32768. */
  lemma ScaleMonotone(x: int, y: int, min: int, max: int)
    requires -32768 <= x <= y <= 32767 && min <= max
    ensures ArduinoMap(x, -32767, 32767, min, max) <= ArduinoMap(y, -32767, 32767, min, max)
  {
    MulMonotone(x + 32767, y + 32767, max - min);
    TruncDivMonotone((x + 32767) * (max - min), (y + 32767) * (max - min), 65534);
  }

  /** A symmetric target maps the raw zero onto zero: -1023..1023 gives 0 for 0. */
  lemma ScaleSymmetricZero(m: Int16)
    requires 0 <= m
    ensures ScaleToRange(0, -m, m) == 0
  {
    TruncDivExact(m, 65534);
    assert (0 + 32767) * (m - -m) == m * 65534;
  }
}
