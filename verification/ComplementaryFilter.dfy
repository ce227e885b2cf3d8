/** The complementary filter of `mpu6050_read_angles`, over the reals.  `atan2` (already in
    degrees) and `sqrt` are parameters with the range facts of the real functions. */
module ComplementaryFilter {

  import opened Common

  datatype Trig = Trig(atan2Deg: (real, real) -> real, sqrt: real -> real)

  ghost predicate Plausible(t: Trig) {
    && (forall y, x :: -180.0 <= t.atan2Deg(y, x) <= 180.0)
    && (forall y, x :: x >= 0.0 ==> -90.0 <= t.atan2Deg(y, x) <= 90.0)
    && (forall x :: x >= 0.0 ==> t.sqrt(x) >= 0.0)
  }

  /** One I2C read: 14 register bytes and the time in microseconds. */
  datatype Sample = Sample(data: seq<Byte>, time: nat)

  predicate IsSample(s: Sample) { |s.data| == 14 && s.time < CLOCK }

  const CLOCK: nat := 0x1_0000_0000_0000_0000   // uint64_t

  datatype Filter = Filter(pitch: real, roll: real, lastTime: nat)

  // ---------------------------------------------------------------- one step

  /** `(int16_t)((hi << 8) | lo)`. */
  function SignedWord(hi: Byte, lo: Byte): (v: int)
    ensures -32768 <= v < 32768 && v % 65536 == hi as int * 256 + lo as int
  {
    var h: int, l: int := hi, lo;
    var u := h * 256 + l;
    if u < 32768 then u else u - 65536
  }

  function Elapsed(f: Filter, s: Sample): (dt: real)
    requires IsSample(s) && f.lastTime < CLOCK
    ensures 0.0 <= dt <= 0.5
  {
    var us := (s.time - f.lastTime) % CLOCK;
    var dt := us as real / 1000000.0;
    if dt > 0.5 then 0.01 else dt
  }

  function Square(x: real): real { x * x }

  function PitchAcc(t: Trig, s: Sample): real
    requires IsSample(s)
  {
    t.atan2Deg(SignedWord(s.data[2], s.data[3]) as real, SignedWord(s.data[4], s.data[5]) as real)
  }

  function RollAcc(t: Trig, s: Sample): real
    requires IsSample(s)
  {
    var x := SignedWord(s.data[0], s.data[1]) as real;
    var y := SignedWord(s.data[2], s.data[3]) as real;
    var z := SignedWord(s.data[4], s.data[5]) as real;
    t.atan2Deg(-x, t.sqrt(Square(y) + Square(z)))
  }

  function GyroX(s: Sample): real
    requires IsSample(s)
  {
    SignedWord(s.data[8], s.data[9]) as real / 65.5
  }

  function GyroY(s: Sample): real
    requires IsSample(s)
  {
    SignedWord(s.data[10], s.data[11]) as real / 65.5
  }

  function Blend(angle: real, rate: real, dt: real, acc: real): real {
    0.98 * (angle + rate * dt) + (1.0 - 0.98) * acc
  }

  function Next(t: Trig, f: Filter, s: Sample): (r: Filter)
    requires IsSample(s) && f.lastTime < CLOCK
    ensures r.lastTime == s.time
  {
    var dt := Elapsed(f, s);
    Filter(Blend(f.pitch, GyroX(s), dt, PitchAcc(t, s)), Blend(f.roll, GyroY(s), dt, RollAcc(t, s)), s.time)
  }

  ghost predicate AllSamples(ss: seq<Sample>) { forall i :: 0 <= i < |ss| ==> IsSample(ss[i]) }

  ghost function Run(t: Trig, f: Filter, ss: seq<Sample>): (r: Filter)
    requires AllSamples(ss) && f.lastTime < CLOCK
    decreases |ss|
  {
    if ss == [] then f else Run(t, Next(t, f, ss[0]), ss[1..])
  }

  /** `v` is the signed 16-bit value of two register bytes, high byte first. */
  predicate IsWord(v: int, hi: Byte, lo: Byte) {
    -32768 <= v < 32768 && (v == hi as int * 256 + lo as int || v + 65536 == hi as int * 256 + lo as int)
  }

  /** One step from the register bytes alone: bytes 0 to 5 are the accelerations, 8 to 11 the
      rates in 65.5ths of a degree per second; each angle turns with its rate and is drawn to
      the accelerometer's by a fiftieth. */
  lemma {:induction false} StepExact(t: Trig, f: Filter, s: Sample, ax: int, ay: int, az: int, gx: int, gy: int, dt: real)
    requires IsSample(s) && f.lastTime <= s.time && dt == (s.time - f.lastTime) as real / 1000000.0 <= 0.5
    requires IsWord(ax, s.data[0], s.data[1]) && IsWord(ay, s.data[2], s.data[3]) && IsWord(az, s.data[4], s.data[5])
    requires IsWord(gx, s.data[8], s.data[9]) && IsWord(gy, s.data[10], s.data[11])
    ensures Next(t, f, s).pitch
         == 0.98 * (f.pitch + gx as real / 65.5 * dt) + 0.02 * t.atan2Deg(ay as real, az as real)
    ensures Next(t, f, s).roll
         == 0.98 * (f.roll + gy as real / 65.5 * dt)
            + 0.02 * t.atan2Deg(-(ax as real), t.sqrt(Square(ay as real) + Square(az as real)))
  {
    WordExact(ax, s.data[0], s.data[1]);
    WordExact(ay, s.data[2], s.data[3]);
    WordExact(az, s.data[4], s.data[5]);
    WordExact(gx, s.data[8], s.data[9]);
    WordExact(gy, s.data[10], s.data[11]);
    assert Elapsed(f, s) == dt;
  }

  lemma {:induction false} WordExact(v: int, hi: Byte, lo: Byte)
    requires IsWord(v, hi, lo)
    ensures SignedWord(hi, lo) == v
  {
  }

  /** After a gap of more than half a second the step is taken as a hundredth. */
  lemma {:induction false} LongGap(f: Filter, s: Sample)
    requires IsSample(s) && f.lastTime <= s.time && (s.time - f.lastTime) as real / 1000000.0 > 0.5
    ensures Elapsed(f, s) == 0.01
  {
  }

  // ---------------------------------------------------------------- bounds

  predicate Bounded(v: real) { -12437.0 <= v <= 12437.0 }

  lemma BlendBounded(angle: real, rate: real, dt: real, acc: real)
    requires Bounded(angle) && 0.0 <= dt <= 0.5 && -180.0 <= acc <= 180.0
    requires -32768.0 <= rate * 65.5 <= 32768.0
    ensures Bounded(Blend(angle, rate, dt, acc))
  {
    var m := 32768.0 / 65.5;
    assert -m <= rate <= m;
    assert -m * 0.5 <= rate * dt <= m * 0.5 by {
      ProductBound(rate, dt, m);
    }
  }

  lemma ProductBound(rate: real, dt: real, m: real)
    requires 0.0 <= dt <= 0.5 && -m <= rate <= m
    ensures -m * 0.5 <= rate * dt <= m * 0.5
  {
    NonNegative(m - rate, dt);
    NonNegative(m + rate, dt);
    NonNegative(m, 0.5 - dt);
    assert (m - rate) * dt == m * dt - rate * dt;
    assert (m + rate) * dt == m * dt + rate * dt;
    assert m * (0.5 - dt) == m * 0.5 - m * dt;
  }

  lemma NonNegative(a: real, b: real)
    requires a >= 0.0 && b >= 0.0
    ensures a * b >= 0.0
  {
  }

  /** For every sequence of samples and any clock, angles that start within 12437 degrees
      stay there. */
  lemma {:induction false} AnglesBounded(t: Trig, f: Filter, ss: seq<Sample>)
    requires Plausible(t) && AllSamples(ss) && f.lastTime < CLOCK && Bounded(f.pitch) && Bounded(f.roll)
    ensures Bounded(Run(t, f, ss).pitch) && Bounded(Run(t, f, ss).roll)
    decreases |ss|
  {
    if ss != [] {
      var s, dt := ss[0], Elapsed(f, ss[0]);
      BlendBounded(f.pitch, GyroX(s), dt, PitchAcc(t, s));
      BlendBounded(f.roll, GyroY(s), dt, RollAcc(t, s));
      AnglesBounded(t, Next(t, f, s), ss[1..]);
    }
  }

  // ---------------------------------------------------------------- forgetting the start

  function Decay(n: nat): (d: real) { if n == 0 then 1.0 else 0.98 * Decay(n - 1) }

  lemma BlendGap(a: real, b: real, rate: real, dt: real, acc: real)
    ensures Blend(a, rate, dt, acc) - Blend(b, rate, dt, acc) == 0.98 * (a - b)
  {
  }

  lemma NextGap(t: Trig, f: Filter, g: Filter, s: Sample)
    requires IsSample(s) && f.lastTime == g.lastTime < CLOCK
    ensures Next(t, f, s).pitch - Next(t, g, s).pitch == 0.98 * (f.pitch - g.pitch)
    ensures Next(t, f, s).roll - Next(t, g, s).roll == 0.98 * (f.roll - g.roll)
  {
    BlendGap(f.pitch, g.pitch, GyroX(s), Elapsed(f, s), PitchAcc(t, s));
    BlendGap(f.roll, g.roll, GyroY(s), Elapsed(f, s), RollAcc(t, s));
  }

  /** The gap `gap` after `n` samples, shrunk one sample at a time. */
  function Shrunk(gap: real, n: nat): real
    decreases n
  {
    if n == 0 then gap else Shrunk(0.98 * gap, n - 1)
  }

  lemma {:induction false} ShrunkIsDecay(gap: real, n: nat)
    ensures Shrunk(gap, n) == Decay(n) * gap
    decreases n
  {
    if n > 0 {
      ShrunkIsDecay(0.98 * gap, n - 1);
    }
  }

  predicate GapShrunk(f: Filter, g: Filter, f': Filter, g': Filter, n: nat) {
    && f'.pitch - g'.pitch == Shrunk(f.pitch - g.pitch, n)
    && f'.roll - g'.roll == Shrunk(f.roll - g.roll, n)
  }

  lemma {:induction false} GapShrinks(t: Trig, f: Filter, g: Filter, ss: seq<Sample>)
    requires AllSamples(ss) && f.lastTime == g.lastTime < CLOCK
    ensures GapShrunk(f, g, Run(t, f, ss), Run(t, g, ss), |ss|)
    decreases |ss|
  {
    if ss != [] {
      NextGap(t, f, g, ss[0]);
      GapShrinks(t, Next(t, f, ss[0]), Next(t, g, ss[0]), ss[1..]);
    }
  }

  /** `last` is what 0.98^n leaves of `gap`. */
  predicate Faded(last: real, gap: real, n: nat) { last == Decay(n) * gap }

  lemma ShrunkFades(gap: real, n: nat)
    ensures Faded(Shrunk(gap, n), gap, n)
  {
    ShrunkIsDecay(gap, n);
  }

  predicate GapFaded(f: Filter, g: Filter, f': Filter, g': Filter, n: nat) {
    Faded(f'.pitch - g'.pitch, f.pitch - g.pitch, n) && Faded(f'.roll - g'.roll, f.roll - g.roll, n)
  }

  lemma GapFades(f: Filter, g: Filter, f': Filter, g': Filter, n: nat)
    requires GapShrunk(f, g, f', g', n)
    ensures GapFaded(f, g, f', g', n)
  {
    ShrunkFades(f.pitch - g.pitch, n);
    ShrunkFades(f.roll - g.roll, n);
  }

  /** Two filters fed the same samples differ by exactly 0.98^n times their first gap. */
  lemma StartForgotten(t: Trig, f: Filter, g: Filter, ss: seq<Sample>)
    requires AllSamples(ss) && f.lastTime == g.lastTime < CLOCK
    ensures GapFaded(f, g, Run(t, f, ss), Run(t, g, ss), |ss|)
  {
    GapShrinks(t, f, g, ss);
    GapFades(f, g, Run(t, f, ss), Run(t, g, ss), |ss|);
  }

  // ---------------------------------------------------------------- convergence

  /** A board at rest: no rotation, and the accelerometer angles are `p` and `r`. */
  ghost predicate AtRest(t: Trig, s: Sample, p: real, r: real)
    requires IsSample(s)
  {
    GyroX(s) == 0.0 && GyroY(s) == 0.0 && PitchAcc(t, s) == p && RollAcc(t, s) == r
  }

  lemma BlendAtRest(angle: real, dt: real, acc: real)
    ensures Blend(angle, 0.0, dt, acc) - acc == 0.98 * (angle - acc)
  {
  }

  lemma NextAtRest(t: Trig, f: Filter, s: Sample, p: real, r: real)
    requires IsSample(s) && f.lastTime < CLOCK && AtRest(t, s, p, r)
    ensures Next(t, f, s).pitch - p == 0.98 * (f.pitch - p)
    ensures Next(t, f, s).roll - r == 0.98 * (f.roll - r)
  {
    BlendAtRest(f.pitch, Elapsed(f, s), p);
    BlendAtRest(f.roll, Elapsed(f, s), r);
  }

  lemma {:induction false} ErrorShrinks(t: Trig, f: Filter, ss: seq<Sample>, p: real, r: real)
    requires AllSamples(ss) && f.lastTime < CLOCK
    requires forall i :: 0 <= i < |ss| ==> AtRest(t, ss[i], p, r)
    ensures Run(t, f, ss).pitch - p == Shrunk(f.pitch - p, |ss|)
    ensures Run(t, f, ss).roll - r == Shrunk(f.roll - r, |ss|)
    decreases |ss|
  {
    if ss != [] {
      assert AtRest(t, ss[0], p, r);
      NextAtRest(t, f, ss[0], p, r);
      ErrorShrinks(t, Next(t, f, ss[0]), ss[1..], p, r);
    }
  }

  /** At rest the error against the accelerometer angle shrinks by 0.98 with every sample. */
  lemma Converges(t: Trig, f: Filter, ss: seq<Sample>, p: real, r: real)
    requires AllSamples(ss) && f.lastTime < CLOCK
    requires forall i :: 0 <= i < |ss| ==> AtRest(t, ss[i], p, r)
    ensures Faded(Run(t, f, ss).pitch - p, f.pitch - p, |ss|)
    ensures Faded(Run(t, f, ss).roll - r, f.roll - r, |ss|)
  {
    ErrorShrinks(t, f, ss, p, r);
    ShrunkFades(f.pitch - p, |ss|);
    ShrunkFades(f.roll - r, |ss|);
  }

  /** The share of an error that survives vanishes: after n samples at most 49/(49+n). */
  lemma {:induction false} DecayVanishes(n: nat)
    ensures 0.0 < Decay(n) && Decay(n) * (49.0 + n as real) <= 49.0
  {
    if n > 0 {
      DecayVanishes(n - 1);
      var d, x := Decay(n - 1), n as real;
      assert (n - 1) as real == x - 1.0;
      NonNegative(d, x - 1.0);
      assert d * (48.0 + x) - 0.98 * d * (49.0 + x) == 0.02 * (d * (x - 1.0));
    }
  }

  // ---------------------------------------------------------------- the code

  /** The raw registers put together and scaled. */
  method Measure(t: Trig, s: Sample) returns (pitchAcc: real, rollAcc: real, gyroX: real, gyroY: real)
    requires IsSample(s)
    ensures pitchAcc == PitchAcc(t, s) && rollAcc == RollAcc(t, s)
    ensures gyroX == GyroX(s) && gyroY == GyroY(s)
  {
    var d := s.data;
    var accelX := SignedWord(d[0], d[1]) as real;
    var accelY := SignedWord(d[2], d[3]) as real;
    var accelZ := SignedWord(d[4], d[5]) as real;
    gyroX := SignedWord(d[8], d[9]) as real / 65.5;
    gyroY := SignedWord(d[10], d[11]) as real / 65.5;
    pitchAcc := t.atan2Deg(accelY, accelZ);
    rollAcc := t.atan2Deg(-accelX, t.sqrt(Square(accelY) + Square(accelZ)));
  }

  method Fuse(angle: real, rate: real, dt: real, acc: real) returns (r: real)
    ensures r == Blend(angle, rate, dt, acc)
  {
    var alpha := 0.98;
    r := alpha * (angle + rate * dt) + (1.0 - alpha) * acc;
  }

  class Mpu6050 {
    var pitch: real
    var roll: real
    var lastTime: nat

    function View(): Filter
      reads this
    {
      Filter(pitch, roll, lastTime)
    }

    constructor (now: nat)
      requires now < CLOCK
      ensures View() == Filter(0.0, 0.0, now)
    {
      pitch, roll, lastTime := 0.0, 0.0, now;
    }

    /** `read` is the I2C result; a failed transfer changes nothing.  The two angles are
        reported swapped and negated. */
    method ReadAngles(t: Trig, ok: bool, s: Sample) returns (err: bool, outPitch: real, outRoll: real)
      requires IsSample(s) && lastTime < CLOCK
      modifies this
      ensures err == !ok
      ensures View() == if ok then Next(t, old(View()), s) else old(View())
      ensures ok ==> outPitch == -roll && outRoll == -pitch
    {
      err, outPitch, outRoll := !ok, 0.0, 0.0;
      if ok {
        ghost var was := View();
        var us := (s.time - lastTime) % CLOCK;
        var dt := us as real / 1000000.0;
        lastTime := s.time;
        if dt > 0.5 {
          dt := 0.01;
        }
        assert dt == Elapsed(was, s);
        var pitchAcc, rollAcc, gyroX, gyroY := Measure(t, s);
        pitch := Fuse(pitch, gyroX, dt, pitchAcc);
        roll := Fuse(roll, gyroY, dt, rollAcc);
        outPitch := -roll;
        outRoll := -pitch;
      }
    }
  }
}
