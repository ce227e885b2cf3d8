/** The two axis normalisers: `uni_hid_parser_process_axis`, driven by the HID descriptor's
    logical range, and the Switch parser's `calibrate_axis` with the stick calibration
    that `parse_stick_calibration` unpacks. */
module Axes {
  import opened Common
  import opened Arithmetic

  type Twelve = v: int | 0 <= v < 4096

  const RANGE: int := 1024   // AXIS_NORMALIZE_RANGE

  // ---------------------------------------------------------------- stick calibration

  datatype Cal = Cal(min: int, center: int, max: int)

  function Low12(a: Byte, b: Byte): (v: Twelve) {
    var lo: int, hi: int := a, b;
    lo + hi % 16 * 256
  }

  function High12(b: Byte, c: Byte): (v: Twelve) {
    var lo: int, hi: int := b, c;
    lo / 16 + hi * 16
  }

  function Around(center: Twelve, below: Twelve, above: Twelve): Cal {
    var c: int, lo: int, hi: int := center, below, above;
    Cal(c - lo, c, c + hi)
  }

  /** `parse_stick_calibration`: the two sticks store max, center and min in different orders. */
  function ParseStick(data: seq<Byte>, isLeft: bool): (xy: (Cal, Cal))
    requires |data| >= 9
  {
    var x0, y0 := Low12(data[0], data[1]), High12(data[1], data[2]);
    var x1, y1 := Low12(data[3], data[4]), High12(data[4], data[5]);
    var x2, y2 := Low12(data[6], data[7]), High12(data[7], data[8]);
    if isLeft then (Around(x1, x2, x0), Around(y1, y2, y0))
    else (Around(x0, x1, x2), Around(y0, y1, y2))
  }

  predicate Ordered(c: Cal) { c.min <= c.center <= c.max && -4095 <= c.min && 0 <= c.center < 4096 && c.max <= 8190 }
  predicate Strict(c: Cal) { c.min < c.center < c.max }

  lemma ParsedIsOrdered(data: seq<Byte>, isLeft: bool)
    requires |data| >= 9
    ensures Ordered(ParseStick(data, isLeft).0) && Ordered(ParseStick(data, isLeft).1)
  {
  }

  /** Two 12-bit values packed into three bytes, as the controller's flash holds them. */
  function Pack(x: Twelve, y: Twelve): (b: seq<Byte>)
    ensures |b| == 3
  {
    [x % 256, x / 256 + y % 16 * 16, y / 16]
  }

  lemma PackRoundTrip(x: Twelve, y: Twelve)
    ensures Low12(Pack(x, y)[0], Pack(x, y)[1]) == x
    ensures High12(Pack(x, y)[1], Pack(x, y)[2]) == y
  {
    var b: int, hi: int, lo: int := Pack(x, y)[1], x / 256, y % 16;
    assert b == hi + lo * 16 && 0 <= hi < 16;
    DivMod16(lo, hi);
  }

  lemma DivMod16(q: int, r: int)
    requires q >= 0 && 0 <= r < 16
    ensures (r + q * 16) / 16 == q && (r + q * 16) % 16 == r
  {
  }

  /** From the center less the lower reach to the center plus the upper one. */
  function Reach(center: int, lower: int, upper: int): Cal { Cal(center - lower, center, center + upper) }

  /** Whatever center, lower and upper reach were written to flash in the order of the
      given side are the ones that come back. */
  lemma ParseStickRoundTrip(cx: Twelve, cy: Twelve, lx: Twelve, ly: Twelve, ux: Twelve, uy: Twelve)
    ensures ParseStick(Pack(ux, uy) + Pack(cx, cy) + Pack(lx, ly), true) == (Reach(cx, lx, ux), Reach(cy, ly, uy))
    ensures ParseStick(Pack(cx, cy) + Pack(lx, ly) + Pack(ux, uy), false) == (Reach(cx, lx, ux), Reach(cy, ly, uy))
  {
    PackRoundTrip(cx, cy);
    PackRoundTrip(lx, ly);
    PackRoundTrip(ux, uy);
    var a, b := Pack(ux, uy) + Pack(cx, cy) + Pack(lx, ly), Pack(cx, cy) + Pack(lx, ly) + Pack(ux, uy);
    assert a[0..3] == Pack(ux, uy) && a[3..6] == Pack(cx, cy) && a[6..9] == Pack(lx, ly);
    assert b[0..3] == Pack(cx, cy) && b[3..6] == Pack(lx, ly) && b[6..9] == Pack(ux, uy);
  }

  // ---------------------------------------------------------------- calibrate_axis

  datatype Result = DivisionByZero | Value(v: int)

  function Clamp(v: int, lo: int, hi: int): int {
    if v > hi then hi else if v < lo then lo else v
  }

  function CalibrateAxis(v: int, cal: Cal): Result {
    if v > cal.center then
      if cal.max == cal.center then DivisionByZero
      else Value(Clamp(TDiv(TDiv((v - cal.center) * RANGE, 2), cal.max - cal.center), -RANGE / 2, RANGE / 2))
    else
      if cal.center == cal.min then DivisionByZero
      else Value(Clamp(TDiv(TDiv((cal.center - v) * -RANGE, 2), cal.center - cal.min), -RANGE / 2, RANGE / 2))
  }

  /** The value before the clamp, as one truncated quotient. */
  function Scaled(v: int, cal: Cal): int
    requires Strict(cal)
  {
    if v > cal.center then TDiv((v - cal.center) * 512, cal.max - cal.center)
    else TDiv((v - cal.center) * 512, cal.center - cal.min)
  }

  lemma CalibrateIsScaled(v: int, cal: Cal)
    requires Strict(cal)
    ensures CalibrateAxis(v, cal) == Value(Clamp(Scaled(v, cal), -512, 512))
  {
    if v > cal.center {
      assert (v - cal.center) * 1024 == ((v - cal.center) * 512) * 2;
      TDivMultiple((v - cal.center) * 512, 2);
    } else {
      assert (cal.center - v) * -1024 == ((v - cal.center) * 512) * 2;
      TDivMultiple((v - cal.center) * 512, 2);
    }
  }

  /** A strict calibration sends min, center and max to -512, 0 and 512. */
  lemma CalibrateEndpoints(cal: Cal)
    requires Strict(cal)
    ensures CalibrateAxis(cal.min, cal) == Value(-512)
    ensures CalibrateAxis(cal.center, cal) == Value(0)
    ensures CalibrateAxis(cal.max, cal) == Value(512)
  {
    CalibrateIsScaled(cal.min, cal);
    CalibrateIsScaled(cal.center, cal);
    CalibrateIsScaled(cal.max, cal);
    ScaledAt(cal, cal.min, -512, cal.center - cal.min);
    ScaledAt(cal, cal.center, 0, cal.center - cal.min);
    ScaledAt(cal, cal.max, 512, cal.max - cal.center);
  }

  lemma ScaledAt(cal: Cal, v: int, q: int, d: int)
    requires Strict(cal) && d == (if v > cal.center then cal.max - cal.center else cal.center - cal.min)
    requires (v - cal.center) * 512 == q * d
    ensures Scaled(v, cal) == q
  {
    TDivMultiple(q, d);
  }

  /** With a strict calibration the result is monotone in the reading, between -512 and 512. */
  lemma CalibrateMonotone(v: int, w: int, cal: Cal)
    requires Strict(cal) && v <= w
    ensures CalibrateAxis(v, cal).Value? && CalibrateAxis(w, cal).Value?
    ensures -512 <= CalibrateAxis(v, cal).v <= CalibrateAxis(w, cal).v <= 512
  {
    CalibrateIsScaled(v, cal);
    CalibrateIsScaled(w, cal);
    if w <= cal.center {
      TDivMono((v - cal.center) * 512, (w - cal.center) * 512, cal.center - cal.min);
    } else if v > cal.center {
      TDivMono((v - cal.center) * 512, (w - cal.center) * 512, cal.max - cal.center);
    } else {
      TDivMono((v - cal.center) * 512, 0, cal.center - cal.min);
      TDivMono(0, (w - cal.center) * 512, cal.max - cal.center);
      TDivMultiple(0, cal.center - cal.min);
      TDivMultiple(0, cal.max - cal.center);
    }
  }

  /** No 12-bit reading divides by zero. */
  ghost predicate Total(cal: Cal) { forall v: Twelve :: CalibrateAxis(v, cal).Value? }

  /** A calibration without upper reach does no harm if no reading lies above its center. */
  predicate Usable(cal: Cal) { cal.min < cal.center && (cal.center < cal.max || cal.center == 4095) }

  lemma CalibrateTotalIff(cal: Cal)
    requires Ordered(cal)
    ensures Total(cal) <==> Usable(cal)
  {
    if Total(cal) {
      var c: Twelve := cal.center;
      assert CalibrateAxis(c, cal).Value?;
      if cal.center < 4095 {
        var up: Twelve := cal.center + 1;
        assert CalibrateAxis(up, cal).Value?;
      }
    }
  }

  /** Every usable calibration is monotone on the readings there are. */
  lemma UsableMonotone(v: Twelve, w: Twelve, cal: Cal)
    requires Ordered(cal) && Usable(cal) && v <= w
    ensures CalibrateAxis(v, cal).Value? && CalibrateAxis(w, cal).Value?
    ensures -512 <= CalibrateAxis(v, cal).v <= CalibrateAxis(w, cal).v <= 512
  {
    CalibrateMonotone(v, w, if cal.center < cal.max then cal else cal.(max := cal.center + 1));
  }

  predicate GoodAxis(center: Twelve, below: Twelve, above: Twelve) { below > 0 && (above > 0 || center == 4095) }

  /** The condition on the stored reaches under which both axes of a stick never divide by
      zero. */
  predicate GoodStick(data: seq<Byte>, isLeft: bool)
    requires |data| >= 9
  {
    var x0, y0 := Low12(data[0], data[1]), High12(data[1], data[2]);
    var x1, y1 := Low12(data[3], data[4]), High12(data[4], data[5]);
    var x2, y2 := Low12(data[6], data[7]), High12(data[7], data[8]);
    if isLeft then GoodAxis(x1, x2, x0) && GoodAxis(y1, y2, y0) else GoodAxis(x0, x1, x2) && GoodAxis(y0, y1, y2)
  }

  lemma ParsedTotalIff(data: seq<Byte>, isLeft: bool)
    requires |data| >= 9
    ensures Total(ParseStick(data, isLeft).0) && Total(ParseStick(data, isLeft).1) <==> GoodStick(data, isLeft)
  {
    ParsedIsOrdered(data, isLeft);
    CalibrateTotalIff(ParseStick(data, isLeft).0);
    CalibrateTotalIff(ParseStick(data, isLeft).1);
  }

  // ---------------------------------------------------------------- process_axis

  function Pow2(n: nat): (p: nat)
    ensures p > 0
  {
    if n == 0 then 1 else 2 * Pow2(n - 1)
  }

  /** An `int32_t` assigned from a 32-bit unsigned expression. */
  function ToInt32(u: int): (v: int)
    ensures Int32(v)
  {
    var w := u % 0x1_0000_0000;
    if w < 0x8000_0000 then w else w - 0x1_0000_0000
  }

  /** Logical maximum, repaired for devices that report -1. */
  function AxisMax(max: int, reportSize: nat): int {
    if max == -1 then Pow2(reportSize) - 1 else max
  }

  function Centered(value: int, min: int, range: int): int {
    ToInt32(value - TDiv(range, 2) - min)
  }

  /** `uni_hid_parser_process_axis`; `value` is the raw field as `uint32_t`. */
  function ProcessAxis(min: int, max: int, reportSize: nat, value: int): Result {
    var range := AxisMax(max, reportSize) - min + 1;
    if range == 0 then DivisionByZero
    else Value(TDiv(Centered(value, min, range) * RANGE, range))
  }

  /** The raw field that carries the signed reading `v`. */
  function Raw(v: int): int { v % 0x1_0000_0000 }

  lemma CenteredExact(v: int, min: int, range: int)
    requires 0 < range <= 0x40_0000 && Int32(min) && min <= v < min + range
    ensures Centered(Raw(v), min, range) == v - min - range / 2
  {
    var c := v - min - range / 2;
    assert Abs(range) / 2 == range / 2;
    var k := v / 0x1_0000_0000;
    assert Raw(v) - range / 2 - min == c - k * 0x1_0000_0000;
    ModShift(c, k);
  }

  lemma ModShift(c: int, k: int)
    requires Int32(c)
    ensures ToInt32(c - k * 0x1_0000_0000) == c
  {
    var m := 0x1_0000_0000;
    if c >= 0 {
      ModUnique(c - k * m, -k, c);
    } else {
      ModUnique(c - k * m, -k - 1, c + m);
    }
  }

  lemma ModUnique(x: int, q: int, r: int)
    requires x == q * 0x1_0000_0000 + r && 0 <= r < 0x1_0000_0000
    ensures x % 0x1_0000_0000 == r
  {
  }

  /** For every descriptor range up to 2^22 and every reading inside it the axis value is
      between -512 and 511 and grows with the reading, in spite of the unsigned
      subtraction. */
  lemma ProcessAxisMonotone(min: int, max: int, reportSize: nat, v: int, w: int)
    requires Int32(min)
    requires var top := AxisMax(max, reportSize); min <= v <= w <= top && top - min < 0x40_0000
    ensures var a, b := ProcessAxis(min, max, reportSize, Raw(v)), ProcessAxis(min, max, reportSize, Raw(w));
      a.Value? && b.Value? && -512 <= a.v <= b.v <= 511
  {
    var range := AxisMax(max, reportSize) - min + 1;
    var h := range / 2;
    CenteredExact(v, min, range);
    CenteredExact(w, min, range);
    var a, b := (v - min - h) * 1024, (w - min - h) * 1024;
    TDivMono(a, b, range);
    assert -512 * range <= a && b < 512 * range;
    TDivMultiple(-512, range);
    TDivMono(-512 * range, a, range);
    TDivBelow(b, 512, range);
  }

  /** The axis value is the linear map of the reading, cut toward zero: less than one unit
      from the exact value and never past it; the middle of the range gives 0. */
  lemma ProcessAxisLinear(min: int, max: int, reportSize: nat, v: int)
    requires Int32(min)
    requires var top := AxisMax(max, reportSize); min <= v <= top && top - min < 0x40_0000
    ensures var range := AxisMax(max, reportSize) - min + 1;
      var exact, a := (v - min - range / 2) * RANGE, ProcessAxis(min, max, reportSize, Raw(v));
      && a.Value?
      && Abs(exact - a.v * range) < range
      && (exact >= 0 ==> 0 <= a.v * range <= exact)
      && (exact <= 0 ==> exact <= a.v * range <= 0)
      && (v == min + range / 2 ==> a.v == 0)
  {
    var range := AxisMax(max, reportSize) - min + 1;
    CenteredExact(v, min, range);
    TruncatedQuotient((v - min - range / 2) * RANGE, range);
  }

  /** The size of the field matters only for a device that reports -1, which is then treated
      as one that reports the largest value of its field. */
  lemma {:induction false} RepairExact(min: int, max: int, size: nat, other: nat, value: int)
    ensures max != -1 ==> ProcessAxis(min, max, size, value) == ProcessAxis(min, max, other, value)
    ensures ProcessAxis(min, -1, size, value) == ProcessAxis(min, Pow2(size) - 1, other, value)
  {
    assert Pow2(size) - 1 != -1;
  }

  lemma TruncatedQuotient(exact: int, range: int)
    requires range > 0
    ensures Abs(exact - TDiv(exact, range) * range) < range
    ensures exact >= 0 ==> 0 <= TDiv(exact, range) * range <= exact
    ensures exact <= 0 ==> exact <= TDiv(exact, range) * range <= 0
    ensures exact == 0 ==> TDiv(exact, range) == 0
  {
    TDivStandard(exact, range);
    var q := Abs(exact) / range;
    assert q * range >= 0 by { MulMono(0, q, range); }
    SignedProduct(q, range, exact, range);
  }

  /** A byte-wide axis that reports its maximum as -1 is read as one from 0 to 255, each step
      worth four. */
  lemma {:induction false} ByteAxis(v: int)
    requires 0 <= v < 256
    ensures ProcessAxis(0, -1, 8, v) == ProcessAxis(0, 255, 8, v) == Value(4 * (v - 128))
  {
    EightBits();
    CenteredExact(v, 0, 256);
    assert Raw(v) == v;
    TDivMultiple(4 * (v - 128), 256);
    assert (v - 128) * 1024 == 4 * (v - 128) * 256;
  }

  lemma {:induction false} EightBits()
    ensures Pow2(8) == 256
  {
    assert Pow2(4) == 16;
  }

  /** `centered * AXIS_NORMALIZE_RANGE` stays within `int32_t`. */
  predicate ProductFits(v: int, min: int, range: int) {
    Int32((v - min - range / 2) * RANGE)
  }

  /** The 32-bit product never overflows for a reading in range exactly when the range has
      at most 2^22 values. */
  lemma ProductFitsIff(min: int, range: int)
    requires range > 0
    ensures (forall v :: min <= v < min + range ==> ProductFits(v, min, range)) <==> range <= 0x40_0000
  {
    if forall v :: min <= v < min + range ==> ProductFits(v, min, range) {
      assert ProductFits(min + range - 1, min, range);
    }
  }
}
