/** The DualSense feature-report handshake, its motion-sensor calibration and the scaling of
    motion data (`uni_hid_parser_ds5.c`). */
module Ds5Calibration {
  import opened Arithmetic

  type I16 = v: int | -0x8000 <= v < 0x8000

  const ACC_RES_PER_G: int := 8192
  const ACC_RANGE: int := 4 * 8192
  const GYRO_RES_PER_DEG_S: int := 1024
  const GYRO_RANGE: int := 2048 * 1024
  const INT16_MAX: int := 32767

  datatype Axis = Axis(bias: int, numer: int, denom: int)

  datatype Motion = Motion(x: Axis, y: Axis, z: Axis)

  /** The fields of `ds5_feature_report_calibration_t`. */
  datatype Calibration = Calibration(
    pitchBias: I16, yawBias: I16, rollBias: I16,
    pitchPlus: I16, pitchMinus: I16, yawPlus: I16, yawMinus: I16, rollPlus: I16, rollMinus: I16,
    speedPlus: I16, speedMinus: I16,
    accXPlus: I16, accXMinus: I16, accYPlus: I16, accYMinus: I16, accZPlus: I16, accZMinus: I16)

  const GYRO_DEFAULT: Axis := Axis(0, GYRO_RANGE, INT16_MAX)
  const ACC_DEFAULT: Axis := Axis(0, ACC_RANGE, INT16_MAX)

  // ---------------------------------------------------------------- calibration data

  function OrDefault(a: Axis, d: Axis): Axis { if a.denom == 0 then d else a }

  function Gyro(speed2x: int, denom: int): Axis {
    OrDefault(Axis(0, speed2x * GYRO_RES_PER_DEG_S, denom), GYRO_DEFAULT)
  }

  /** The pitch axis adds the bias to the minus reading, the other two subtract it. */
  function GyroFrom(r: Calibration): Motion {
    var pb: int, pp: int, pm: int := r.pitchBias, r.pitchPlus, r.pitchMinus;
    var yb: int, yp: int, ym: int := r.yawBias, r.yawPlus, r.yawMinus;
    var rb: int, rp: int, rm: int := r.rollBias, r.rollPlus, r.rollMinus;
    var sp: int, sm: int := r.speedPlus, r.speedMinus;
    Motion(Gyro(sp + sm, Abs(pp - pb) + Abs(pm + pb)),
           Gyro(sp + sm, Abs(yp - yb) + Abs(ym - yb)),
           Gyro(sp + sm, Abs(rp - rb) + Abs(rm - rb)))
  }

  function Accel(plus: I16, minus: I16): Axis {
    var p: int, m: int := plus, minus;
    OrDefault(Axis(p - TDiv(p - m, 2), 2 * ACC_RES_PER_G, p - m), ACC_DEFAULT)
  }

  function AccelFrom(r: Calibration): Motion {
    Motion(Accel(r.accXPlus, r.accXMinus), Accel(r.accYPlus, r.accYMinus), Accel(r.accZPlus, r.accZMinus))
  }

  predicate Between(v: int, a: int, b: int) { a <= v <= b || b <= v <= a }

  /** The accelerometer bias lies between the two readings unless equal nonzero readings made
      the axis fall back to its defaults. */
  lemma BiasBetweenIff(plus: I16, minus: I16)
    ensures Between(Accel(plus, minus).bias, minus, plus) <==> plus != minus || plus == 0
    ensures Int16(Accel(plus, minus).bias)
  {
  }

  // ---------------------------------------------------------------- scaling

  function Scale(a: Axis, raw: I16): int
    requires a.denom != 0
  {
    MultFrac(a.numer, raw, a.denom)
  }

  predicate AccelOk(a: Axis) {
    a.denom != 0 && (a.numer == 2 * ACC_RES_PER_G || a.numer == ACC_RANGE)
  }

  lemma {:induction false} ScaleMagnitude(a: Axis, raw: I16)
    requires a.denom != 0
    ensures Abs(Scale(a, raw)) == Abs(a.numer) * Abs(raw) / Abs(a.denom)
    ensures Scale(a, raw) < 0 ==> ((a.numer * raw < 0) != (a.denom < 0))
    ensures Scale(a, raw) > 0 ==> ((a.numer * raw < 0) == (a.denom < 0))
  {
    MultFracExact(a.numer, raw, a.denom);
    AbsOfProduct(a.numer, raw);
    assert Abs(a.numer) * Abs(raw) == Abs(a.numer * raw);
    AbsOfQuotient(a.numer * raw, a.denom);
  }

  lemma {:induction false} AbsOfQuotient(p: int, d: int)
    requires d != 0
    ensures Abs(TDiv(p, d)) == Abs(p) / Abs(d)
  {
    assert Abs(p) / Abs(d) >= 0;
  }

  lemma {:induction false} MagnitudeBound(n: nat, k: nat, m: nat, d: nat)
    requires d > 0 && k <= m
    ensures n * k / d <= n * m / d
  {
    MulMono(k, m, n);
    assert n * k <= n * m;
    assert n * k >= 0 && n * m >= 0 by { MulMono(0, k, n); MulMono(0, m, n); }
    DivMono(n * k, n * m, d);
  }

  /** A scaled acceleration always fits the 32-bit field it is stored in. */
  lemma {:induction false} AccelFits(a: Axis, raw: I16)
    requires AccelOk(a)
    ensures Int32(Scale(a, raw))
  {
    ScaleMagnitude(a, raw);
    MagnitudeBound(Abs(a.numer), Abs(raw), 0x8000, Abs(a.denom));
    QuotientShrinks(Abs(a.numer) * 0x8000, Abs(a.denom));
  }

  /** Every reading of an axis scales into 32 bits exactly when the most negative one does. */
  lemma {:induction false} FitsIffExtremeFits(a: Axis)
    requires a.denom != 0
    ensures (forall raw: I16 :: Int32(Scale(a, raw))) <==> Int32(Scale(a, -0x8000))
  {
    if Int32(Scale(a, -0x8000)) {
      forall raw: I16 ensures Int32(Scale(a, raw)) {
        ExtremeDominates(a, raw);
      }
    }
  }

  lemma {:induction false} ExtremeDominates(a: Axis, raw: I16)
    requires a.denom != 0 && Int32(Scale(a, -0x8000))
    ensures Int32(Scale(a, raw))
  {
    var N, D := Abs(a.numer), Abs(a.denom);
    ScaleMagnitude(a, raw);
    ScaleMagnitude(a, -0x8000);
    MagnitudeBound(N, Abs(raw), 0x8000, D);
    if raw > 0 {
      MagnitudeBound(N, Abs(raw), 0x7fff, D);
      if N * 0x8000 / D == 0x8000_0000 {
        OneLess(N, D);
      }
    } else if raw < 0 {
      AbsProduct(a.numer, raw);
      AbsProduct(a.numer, -0x8000);
    }
  }

  lemma {:induction false} OneLess(n: nat, d: nat)
    requires d > 0 && n * 0x8000 / d == 0x8000_0000
    ensures n * 0x7fff / d < 0x8000_0000
  {
    assert n * 0x8000 < (0x8000_0000 + 1) * d;
    assert n * 0x8000 >= 0x8000_0000 * d;
    assert n >= 0x1_0000 * d;
    assert n * 0x7fff < 0x8000_0000 * d;
    var k := n * 0x7fff / d;
    assert k * d <= n * 0x7fff;
    if k >= 0x8000_0000 {
      MulMono(0x8000_0000, k, d);
    }
  }

  /** The condition on numerator and denominator: the largest magnitude, 32768 times the
      numerator, stays below 2^31 denominators - or 2^31 + 1 if it is negative. */
  predicate SpreadSuffices(numer: int, denom: int) {
    Abs(numer) * 0x8000 < (0x8000_0000 + (if (numer < 0) == (denom < 0) then 1 else 0)) * Abs(denom)
  }

  lemma {:induction false} QuotientBelow(n: nat, d: nat, k: nat)
    requires d > 0
    ensures n / d < k <==> n < k * d
  {
    var q := n / d;
    assert q * d <= n < (q + 1) * d;
    if q < k {
      MulMono(q + 1, k, d);
    } else {
      MulMono(k, q, d);
    }
  }

  lemma {:induction false} ExtremeFitsIff(a: Axis)
    requires a.denom != 0
    ensures Int32(Scale(a, -0x8000)) <==> SpreadSuffices(a.numer, a.denom)
  {
    var N, D := Abs(a.numer), Abs(a.denom);
    ScaleMagnitude(a, -0x8000);
    var k := if (a.numer < 0) == (a.denom < 0) then 0x8000_0001 else 0x8000_0000;
    QuotientBelow(N * 0x8000, D, k);
    AbsProduct(a.numer, -0x8000);
  }

  /** Every reading of an axis scales into 32 bits if and only if the spread suffices. */
  lemma {:induction false} FitsIff(a: Axis)
    requires a.denom != 0
    ensures (forall raw: I16 :: Int32(Scale(a, raw))) <==> SpreadSuffices(a.numer, a.denom)
  {
    FitsIffExtremeFits(a);
    ExtremeFitsIff(a);
  }

  // ---------------------------------------------------------------- the handshake

  datatype Phase = PairingRequested | FirmwareRequested | CalibrationRequested | Ready

  datatype Ds5 = Ds5(phase: Phase, gyro: Motion, accel: Motion)

  const SETUP: Ds5 :=
    Ds5(PairingRequested, Motion(GYRO_DEFAULT, GYRO_DEFAULT, GYRO_DEFAULT), Motion(ACC_DEFAULT, ACC_DEFAULT, ACC_DEFAULT))

  datatype Feature = PairingInfo | Firmware | CalibrationReport(r: Calibration) | UnknownReport

  function Next(s: Ds5, f: Feature): Ds5 {
    match f
    case PairingInfo => s.(phase := FirmwareRequested)
    case Firmware => s.(phase := CalibrationRequested)
    case CalibrationReport(r) => Ds5(Ready, GyroFrom(r), AccelFrom(r))
    case UnknownReport => s
  }

  function Run(s: Ds5, fs: seq<Feature>): Ds5
    decreases |fs|
  {
    if fs == [] then s else Run(Next(s, fs[0]), fs[1..])
  }

  predicate Divisible(m: Motion) { m.x.denom != 0 && m.y.denom != 0 && m.z.denom != 0 }

  ghost predicate Inv(s: Ds5) {
    Divisible(s.gyro) && AccelOk(s.accel.x) && AccelOk(s.accel.y) && AccelOk(s.accel.z)
  }

  lemma {:induction false} RunKeeps(s: Ds5, fs: seq<Feature>)
    requires Inv(s)
    ensures Inv(Run(s, fs))
    decreases |fs|
  {
    if fs != [] {
      RunKeeps(Next(s, fs[0]), fs[1..]);
    }
  }

  /** After setup, for feature reports of any content in any order: no calibration
      denominator is ever zero and every scaled acceleration fits 32 bits. */
  lemma {:induction false} CalibrationSafe(fs: seq<Feature>, raw: I16)
    ensures var s := Run(SETUP, fs);
      && Divisible(s.gyro) && Divisible(s.accel)
      && Int32(Scale(s.accel.x, raw)) && Int32(Scale(s.accel.y, raw)) && Int32(Scale(s.accel.z, raw))
  {
    RunKeeps(SETUP, fs);
    var s := Run(SETUP, fs);
    AccelFits(s.accel.x, raw);
    AccelFits(s.accel.y, raw);
    AccelFits(s.accel.z, raw);
  }

  lemma {:induction false} RunAppend(s: Ds5, fs: seq<Feature>, f: Feature)
    ensures Run(s, fs + [f]) == Next(Run(s, fs), f)
    decreases |fs|
  {
    if fs == [] {
      assert fs + [f] == [f];
      assert Run(Next(s, f), [f][1..]) == Next(s, f);
    } else {
      assert (fs + [f])[0] == fs[0] && (fs + [f])[1..] == fs[1..] + [f];
      RunAppend(Next(s, fs[0]), fs[1..], f);
    }
  }

  ghost predicate AlwaysFits(a: Axis)
    requires a.denom != 0
  {
    forall raw: I16 :: Int32(Scale(a, raw))
  }

  function Speed2x(r: Calibration): int {
    var p: int, m: int := r.speedPlus, r.speedMinus;
    p + m
  }

  function PitchSpread(r: Calibration): nat {
    var b: int, p: int, m: int := r.pitchBias, r.pitchPlus, r.pitchMinus;
    Abs(p - b) + Abs(m + b)
  }

  function YawSpread(r: Calibration): nat {
    var b: int, p: int, m: int := r.yawBias, r.yawPlus, r.yawMinus;
    Abs(p - b) + Abs(m - b)
  }

  function RollSpread(r: Calibration): nat {
    var b: int, p: int, m: int := r.rollBias, r.rollPlus, r.rollMinus;
    Abs(p - b) + Abs(m - b)
  }

  /** An axis of a report is safe if it falls back to the defaults, or if 2^25 times the
      speed stays below 2^31 spreads (2^31 + 1 for a speed that is not negative). */
  predicate GyroSafe(speed2x: int, spread: nat) {
    spread == 0 || Abs(speed2x) * 0x200_0000 < (0x8000_0000 + (if speed2x >= 0 then 1 else 0)) * spread
  }

  lemma {:induction false} GyroFitsIff(speed2x: int, spread: nat)
    ensures Gyro(speed2x, spread).denom != 0
    ensures AlwaysFits(Gyro(speed2x, spread)) <==> GyroSafe(speed2x, spread)
  {
    FitsIff(Gyro(speed2x, spread));
  }

  /** After any handshake that ends with the calibration report `r`, all readings of all
      three gyroscope axes scale into 32 bits if and only if `r` is safe on each axis. */
  lemma {:induction false} GyroFitsExact(fs: seq<Feature>, r: Calibration)
    ensures var g := Run(SETUP, fs + [CalibrationReport(r)]).gyro;
      && Divisible(g)
      && (AlwaysFits(g.x) <==> GyroSafe(Speed2x(r), PitchSpread(r)))
      && (AlwaysFits(g.y) <==> GyroSafe(Speed2x(r), YawSpread(r)))
      && (AlwaysFits(g.z) <==> GyroSafe(Speed2x(r), RollSpread(r)))
  {
    RunAppend(SETUP, fs, CalibrationReport(r));
    GyroFitsIff(Speed2x(r), PitchSpread(r));
    GyroFitsIff(Speed2x(r), YawSpread(r));
    GyroFitsIff(Speed2x(r), RollSpread(r));
  }

  /** After any handshake that ends with the calibration report `r`, the bias of each
      accelerometer axis lies between its two readings if and only if they differ or are
      both zero; otherwise the axis fell back to its defaults. */
  lemma {:induction false} AccelBiasExact(fs: seq<Feature>, r: Calibration)
    ensures var a := Run(SETUP, fs + [CalibrationReport(r)]).accel;
      && (Between(a.x.bias, r.accXMinus, r.accXPlus) <==> r.accXPlus != r.accXMinus || r.accXPlus == 0)
      && (Between(a.y.bias, r.accYMinus, r.accYPlus) <==> r.accYPlus != r.accYMinus || r.accYPlus == 0)
      && (Between(a.z.bias, r.accZMinus, r.accZPlus) <==> r.accZPlus != r.accZMinus || r.accZPlus == 0)
  {
    RunAppend(SETUP, fs, CalibrationReport(r));
    BiasBetweenIff(r.accXPlus, r.accXMinus);
    BiasBetweenIff(r.accYPlus, r.accYMinus);
    BiasBetweenIff(r.accZPlus, r.accZMinus);
  }

  /** A gyroscope axis of a report, in numbers. */
  predicate GyroAxis(a: Axis, speed2x: int, spread: int) {
    a == if spread == 0 then Axis(0, 2097152, 32767) else Axis(0, speed2x * 1024, spread)
  }

  /** The middle of the two readings, a half going to the plus reading. */
  function Middle(plus: int, minus: int): int {
    if plus > minus then (plus + minus + 1) / 2 else (plus + minus) / 2
  }

  /** An accelerometer axis of a report: the middle of its readings, and twice 8192 over their
      difference. */
  function AccelAxis(plus: int, minus: int): Axis {
    if plus == minus then Axis(0, 32768, 32767) else Axis(Middle(plus, minus), 16384, plus - minus)
  }

  /** After any handshake that ends with the calibration report `r` the handshake is done, and
      all six axes are the report's. */
  lemma {:induction false} ReportExact(fs: seq<Feature>, r: Calibration)
    ensures var s := Run(SETUP, fs + [CalibrationReport(r)]);
      && s.phase.Ready?
      && GyroAxis(s.gyro.x, Speed2x(r), PitchSpread(r))
      && GyroAxis(s.gyro.y, Speed2x(r), YawSpread(r))
      && GyroAxis(s.gyro.z, Speed2x(r), RollSpread(r))
      && s.accel == Motion(AccelAxis(r.accXPlus, r.accXMinus), AccelAxis(r.accYPlus, r.accYMinus), AccelAxis(r.accZPlus, r.accZMinus))
  {
    RunAppend(SETUP, fs, CalibrationReport(r));
  }

  /** The other reports move the handshake on and leave the calibration alone. */
  lemma {:induction false} OtherReports(fs: seq<Feature>)
    ensures var s := Run(SETUP, fs);
      && Run(SETUP, fs + [PairingInfo]) == s.(phase := FirmwareRequested)
      && Run(SETUP, fs + [Firmware]) == s.(phase := CalibrationRequested)
      && Run(SETUP, fs + [UnknownReport]) == s
  {
    RunAppend(SETUP, fs, PairingInfo);
    RunAppend(SETUP, fs, Firmware);
    RunAppend(SETUP, fs, UnknownReport);
  }

  /** What the numbers mean: the difference between the two readings of an accelerometer axis
      scales to exactly 2 g of 8192, and the spread of a gyroscope axis to exactly its
      speed of 1024 a degree per second. */
  lemma {:induction false} ScaleMeaning(plus: I16, minus: I16, speed2x: int, spread: I16)
    requires plus != minus && spread > 0
    requires -0x8000 <= plus as int - minus as int < 0x8000
    ensures Scale(Accel(plus, minus), plus - minus) == 2 * 8192
    ensures Scale(Gyro(speed2x, spread), spread) == speed2x * 1024
  {
    var d: int := plus - minus;
    MultFracExact(16384, d, d);
    ExactQuotient(16384, d);
    MultFracExact(speed2x * 1024, spread, spread);
    ExactQuotient(speed2x * 1024, spread);
  }

  lemma {:induction false} ExactQuotient(n: int, d: int)
    requires d != 0
    ensures TDiv(n * d, d) == n
  {
    AbsProduct(n, d);
    DivUnique(Abs(n * d), Abs(d), Abs(n));
  }

  /** Full speed over the smallest spread. */
  const FAST: Calibration :=
    Calibration(0, 0, 0, 1, 0, 1, 0, 1, 0, 32767, 32767, 8192, -8192, 8192, -8192, 8192, -8192)

  /** A gyroscope value need not fit: after the handshake with this report the reading 32767
      overflows on every axis. */
  lemma {:induction false} GyroCanOverflow()
    ensures var g := Run(SETUP, [PairingInfo, Firmware] + [CalibrationReport(FAST)]).gyro;
      && Divisible(g)
      && !Int32(Scale(g.x, 32767)) && !Int32(Scale(g.y, 32767)) && !Int32(Scale(g.z, 32767))
  {
    RunAppend(SETUP, [PairingInfo, Firmware], CalibrationReport(FAST));
    var a := Axis(0, 65534 * 1024, 1);
    assert GyroFrom(FAST) == Motion(a, a, a);
    MultFracExact(a.numer, 32767, a.denom);
  }

  // ---------------------------------------------------------------- the code

  class Ds5Instance {
    var phase: Phase
    const gyro: array<Axis>
    const accel: array<Axis>

    ghost predicate Valid()
      reads this, gyro, accel
    {
      gyro.Length == 3 && accel.Length == 3 && gyro != accel && Inv(View())
    }

    ghost function View(): Ds5
      requires gyro.Length == 3 && accel.Length == 3
      reads this, gyro, accel
    {
      Ds5(phase, Motion(gyro[0], gyro[1], gyro[2]), Motion(accel[0], accel[1], accel[2]))
    }

    constructor ()
      ensures Valid() && fresh(gyro) && fresh(accel) && View() == SETUP
    {
      phase := PairingRequested;
      gyro := new Axis[3](_ => GYRO_DEFAULT);
      accel := new Axis[3](_ => ACC_DEFAULT);
    }

    /** The sanity loops: an axis without spread falls back to its defaults. */
    static method Repair(axes: array<Axis>, fallback: Axis)
      modifies axes
      ensures forall i :: 0 <= i < axes.Length ==> axes[i] == OrDefault(old(axes[i]), fallback)
    {
      var i := 0;
      while i < axes.Length
        invariant i <= axes.Length
        invariant forall j :: 0 <= j < i ==> axes[j] == OrDefault(old(axes[j]), fallback)
        invariant forall j :: i <= j < axes.Length ==> axes[j] == old(axes[j])
      {
        if axes[i].denom == 0 {
          axes[i] := fallback;
        }
        i := i + 1;
      }
    }

    method SetGyro(r: Calibration)
      requires gyro.Length == 3
      modifies gyro
      ensures Motion(gyro[0], gyro[1], gyro[2]) == GyroFrom(r)
    {
      var speed2x := (r.speedPlus as int) + (r.speedMinus as int);
      var pb: int, yb: int, rb: int := r.pitchBias, r.yawBias, r.rollBias;
      gyro[0] := Axis(0, speed2x * GYRO_RES_PER_DEG_S, Abs(r.pitchPlus - pb) + Abs(r.pitchMinus + pb));
      gyro[1] := Axis(0, speed2x * GYRO_RES_PER_DEG_S, Abs(r.yawPlus - yb) + Abs(r.yawMinus - yb));
      gyro[2] := Axis(0, speed2x * GYRO_RES_PER_DEG_S, Abs(r.rollPlus - rb) + Abs(r.rollMinus - rb));
      Repair(gyro, GYRO_DEFAULT);
    }

    method SetAccel(r: Calibration)
      requires accel.Length == 3
      modifies accel
      ensures Motion(accel[0], accel[1], accel[2]) == AccelFrom(r)
    {
      var xp: int, yp: int, zp: int := r.accXPlus, r.accYPlus, r.accZPlus;
      var range2g := xp - r.accXMinus;
      accel[0] := Axis(xp - TDiv(range2g, 2), 2 * ACC_RES_PER_G, range2g);
      range2g := yp - r.accYMinus;
      accel[1] := Axis(yp - TDiv(range2g, 2), 2 * ACC_RES_PER_G, range2g);
      range2g := zp - r.accZMinus;
      accel[2] := Axis(zp - TDiv(range2g, 2), 2 * ACC_RES_PER_G, range2g);
      Repair(accel, ACC_DEFAULT);
    }

    method ParseFeatureReport(f: Feature)
      requires Valid()
      modifies this, gyro, accel
      ensures Valid() && View() == Next(old(View()), f)
    {
      match f {
        case PairingInfo => phase := FirmwareRequested;
        case Firmware => phase := CalibrationRequested;
        case CalibrationReport(r) =>
          SetGyro(r);
          SetAccel(r);
          phase := Ready;
        case UnknownReport =>
      }
    }

    /** Scales one motion sample; input is ignored until the handshake is done. */
    method ScaleAccel(raw: seq<I16>) returns (out: seq<int>)
      requires Valid() && |raw| == 3
      ensures phase != Ready ==> out == []
      ensures phase == Ready ==>
                |out| == 3 && forall i :: 0 <= i < 3 ==> Int32(out[i]) && out[i] == TDiv(accel[i].numer * raw[i], accel[i].denom)
    {
      if phase != Ready {
        return [];
      }
      out := [];
      var i := 0;
      while i < 3
        invariant i == |out| <= 3
        invariant forall j :: 0 <= j < i ==> Int32(out[j]) && out[j] == TDiv(accel[j].numer * raw[j], accel[j].denom)
      {
        MultFracExact(accel[i].numer, raw[i], accel[i].denom);
        AccelFits(accel[i], raw[i]);
        out := out + [MultFrac(accel[i].numer, raw[i], accel[i].denom)];
        i := i + 1;
      }
    }
  }
}
