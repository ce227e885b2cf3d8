/** The flight loop of `app_main`, with the stick variables written by the Bluetooth task.
    Every read of a stick, every write of a stick and every motor update is a step of its
    own, and the two tasks interleave freely.  Arithmetic is over the reals. */
module FlightLoop {
  import Pid

  datatype Sticks = Sticks(throttle: int, yaw: int, pitch: int, roll: int)

  datatype Stick = Throttle | Yaw | Pitch | Roll

  datatype Write = Write(stick: Stick, value: int)

  /** The values one iteration found at each of its stick reads (0 where it did not read). */
  datatype Reads = Reads(throttleTest: int, throttleMap: int,
                         pitchHigh: int, pitchLow: int, pitchMap: int,
                         rollHigh: int, rollLow: int, rollMap: int)

  const NO_READS := Reads(0, 0, 0, 0, 0, 0, 0, 0)

  datatype Angles = Angles(pitch: real, roll: real)

  datatype Pids = Pids(pitch: Pid.State, roll: Pid.State)

  datatype Speeds = Speeds(fl: real, fr: real, bl: real, br: real)

  const STOPPED := Speeds(0.0, 0.0, 0.0, 0.0)
  const GAINS := Pid.Gains(1.2, 0.0, 0.5, 20.0, 40.0)
  const DT: real := 0.01

  // ---------------------------------------------------------------- commands

  function MapValue(value: int, inMin: int, inMax: int, outMin: real, outMax: real): real
    requires inMin != inMax
  {
    (value - inMin) as real * (outMax - outMin) / (inMax - inMin) as real + outMin
  }

  function ThrottleCommand(r: Reads): real {
    if r.throttleTest < -20 then MapValue(r.throttleMap, -20, -512, 0.0, 100.0) else 0.0
  }

  function TiltCommand(high: int, low: int, mapped: int): real {
    if high > 20 || low < -20 then MapValue(mapped, -512, 511, -30.0, 30.0) else 0.0
  }

  predicate PowerOn(r: Reads) { ThrottleCommand(r) > 2.0 }

  /** Motors get power exactly when the tested throttle left the dead zone and the throttle
      mapped afterwards - possibly another value - is at most -30. */
  lemma {:induction false} PowerOnIff(r: Reads)
    ensures PowerOn(r) <==> r.throttleTest < -20 && r.throttleMap <= -30
  {
    var v := r.throttleMap;
    assert MapValue(v, -20, -512, 0.0, 100.0) == (v + 20) as real * 100.0 / -492.0;
  }

  /** A stick in its range asks for a tilt between -30 and 30 degrees, in stick order, with
      the ends of the stick at the ends of the tilt. */
  lemma TiltExact(v: int, w: int)
    requires -512 <= v <= w <= 511
    ensures -30.0 <= MapValue(v, -512, 511, -30.0, 30.0) <= MapValue(w, -512, 511, -30.0, 30.0) <= 30.0
    ensures MapValue(v, -512, 511, -30.0, 30.0) == -30.0 <==> v == -512
    ensures MapValue(w, -512, 511, -30.0, 30.0) == 30.0 <==> w == 511
  {
  }

  /** The commands as formulas of the stick values. */
  lemma {:induction false} CommandsExact(r: Reads, high: int, low: int, mapped: int)
    ensures ThrottleCommand(r) == if r.throttleTest < -20 then (r.throttleMap + 20) as real * 100.0 / -492.0 else 0.0
    ensures TiltCommand(high, low, mapped)
         == if high > 20 || low < -20 then (mapped + 512) as real * 60.0 / 1023.0 - 30.0 else 0.0
  {
    assert MapValue(mapped, -512, 511, -30.0, 30.0) == (mapped + 512) as real * 60.0 / 1023.0 - 30.0;
    assert MapValue(r.throttleMap, -20, -512, 0.0, 100.0) == (r.throttleMap + 20) as real * 100.0 / -492.0;
  }

  // ---------------------------------------------------------------- mixer and motors

  function Mixer(throttle: real, pitch: real, roll: real): Speeds {
    Speeds(throttle + pitch - roll, throttle + pitch + roll, throttle - pitch - roll, throttle - pitch + roll)
  }

  /** The mixer loses nothing: the four speeds determine throttle and both corrections. */
  lemma MixerInvertible(throttle: real, pitch: real, roll: real)
    ensures var m := Mixer(throttle, pitch, roll);
            && throttle == (m.fl + m.fr + m.bl + m.br) / 4.0
            && pitch == (m.fl + m.fr - m.bl - m.br) / 4.0
            && roll == (m.fr + m.br - m.fl - m.bl) / 4.0
  {
  }

  function Limit(m: Speeds): Speeds {
    Speeds(Pid.Clamp(m.fl, 0.0, 100.0), Pid.Clamp(m.fr, 0.0, 100.0),
           Pid.Clamp(m.bl, 0.0, 100.0), Pid.Clamp(m.br, 0.0, 100.0))
  }

  function Duty(speed: real): int {
    (Pid.Clamp(speed, 0.0, 100.0) / 100.0 * 1023.0).Floor
  }

  function SpeedOf(m: Speeds, i: nat): real {
    if i == 0 then m.fl else if i == 1 then m.fr else if i == 2 then m.bl else m.br
  }

  lemma DutyRange(speed: real)
    ensures 0 <= Duty(speed) <= 1023
    ensures speed <= 0.0 ==> Duty(speed) == 0
    ensures Duty(speed) == 1023 <==> speed >= 100.0
  {
  }

  /** Within the range a duty is 10.23 times the percentage, cut to an integer. */
  lemma DutyExact(speed: real)
    requires 0.0 <= speed <= 100.0
    ensures Duty(speed) as real <= 10.23 * speed < Duty(speed) as real + 1.0
  {
  }

  lemma DutyMonotone(a: real, b: real)
    requires a <= b
    ensures Duty(a) <= Duty(b)
  {
  }

  /** Limiting and truncating never turn a correction round: positive roll gives both right
      motors at least the duty of their left partners, positive pitch both front motors at
      least that of the rear ones. */
  lemma {:induction false} CorrectionKeepsItsSense(throttle: real, pitch: real, roll: real)
    ensures var m := Limit(Mixer(throttle, pitch, roll));
            && (roll >= 0.0 ==> Duty(m.fl) <= Duty(m.fr) && Duty(m.bl) <= Duty(m.br))
            && (roll <= 0.0 ==> Duty(m.fr) <= Duty(m.fl) && Duty(m.br) <= Duty(m.bl))
            && (pitch >= 0.0 ==> Duty(m.bl) <= Duty(m.fl) && Duty(m.br) <= Duty(m.fr))
            && (pitch <= 0.0 ==> Duty(m.fl) <= Duty(m.bl) && Duty(m.fr) <= Duty(m.br))
  {
    var m := Limit(Mixer(throttle, pitch, roll));
    if roll >= 0.0 { DutyMonotone(m.fl, m.fr); DutyMonotone(m.bl, m.br); }
    if roll <= 0.0 { DutyMonotone(m.fr, m.fl); DutyMonotone(m.br, m.bl); }
    if pitch >= 0.0 { DutyMonotone(m.bl, m.fl); DutyMonotone(m.br, m.fr); }
    if pitch <= 0.0 { DutyMonotone(m.fl, m.bl); DutyMonotone(m.fr, m.br); }
  }

  // ---------------------------------------------------------------- one computation

  function NextPids(p: Pids, r: Reads, a: Angles): Pids {
    if PowerOn(r) then
      Pids(Pid.Next(p.pitch, PitchInput(r, a), DT), Pid.Next(p.roll, RollInput(r, a), DT))
    else
      Pids(Pid.Reset(p.pitch), Pid.Reset(p.roll))
  }

  function PitchInput(r: Reads, a: Angles): Pid.Input {
    Pid.Input(TiltCommand(r.pitchHigh, r.pitchLow, r.pitchMap), a.pitch)
  }

  function RollInput(r: Reads, a: Angles): Pid.Input {
    Pid.Input(TiltCommand(r.rollHigh, r.rollLow, r.rollMap), a.roll)
  }

  function NextSpeeds(p: Pids, r: Reads, a: Angles): Speeds {
    if PowerOn(r) then
      Limit(Mixer(ThrottleCommand(r),
                  Pid.Output(p.pitch, PitchInput(r, a), DT), Pid.Output(p.roll, RollInput(r, a), DT)))
    else
      STOPPED
  }

  // ---------------------------------------------------------------- which angle goes where

  predicate Powered(r: Reads) { r.throttleTest < -20 && r.throttleMap <= -30 }

  /** What the stick asks for, less what was measured. */
  function TiltError(high: int, low: int, mapped: int, measured: real): real {
    Tilt(high, low, mapped) - measured
  }

  /** In a powered iteration the pitch controller sees the commanded pitch less the measured
      pitch, the roll controller the commanded roll less the measured roll; otherwise both
      are reset. */
  lemma {:induction false} ErrorsExact(p: Pids, r: Reads, a: Angles)
    ensures Powered(r) ==> NextPids(p, r, a).pitch.prevError == TiltError(r.pitchHigh, r.pitchLow, r.pitchMap, a.pitch)
    ensures Powered(r) ==> NextPids(p, r, a).roll.prevError == TiltError(r.rollHigh, r.rollLow, r.rollMap, a.roll)
    ensures !Powered(r) ==> NextPids(p, r, a) == Pids(Pid.Init(p.pitch.gains), Pid.Init(p.roll.gains))
  {
    PowerOnIff(r);
    CommandsExact(r, r.pitchHigh, r.pitchLow, r.pitchMap);
    CommandsExact(r, r.rollHigh, r.rollLow, r.rollMap);
  }

  /** The two controllers do not disturb each other: what becomes of one depends on its own
      past, its own stick, its own angle and the throttle alone. */
  lemma {:induction false} AxesApart(p: Pids, q: Pids, r: Reads, o: Reads, a: Angles, b: Angles)
    requires Powered(r) == Powered(o)
    ensures (p.pitch, r.pitchHigh, r.pitchLow, r.pitchMap, a.pitch) == (q.pitch, o.pitchHigh, o.pitchLow, o.pitchMap, b.pitch) ==>
              NextPids(p, r, a).pitch == NextPids(q, o, b).pitch
    ensures (p.roll, r.rollHigh, r.rollLow, r.rollMap, a.roll) == (q.roll, o.rollHigh, o.rollLow, o.rollMap, b.roll) ==>
              NextPids(p, r, a).roll == NextPids(q, o, b).roll
  {
    PowerOnIff(r);
    PowerOnIff(o);
  }

  function Bound(v: real, lo: real, hi: real): real { if v < lo then lo else if v > hi then hi else v }

  /** The correction of a fresh controller: 1.2 times the error and a quarter of its slope
      over a hundredth of a second, at most 40 either way. */
  lemma {:induction false} FirstCorrection(i: Pid.Input)
    ensures Pid.Output(Pid.Init(GAINS), i, DT) == Bound(26.2 * (i.setpoint - i.measured), -40.0, 40.0)
  {
    var e := i.setpoint - i.measured;
    assert Pid.Derivative(Pid.Init(GAINS), i, DT) == 50.0 * e;
  }

  /** The tilt a stick asks for. */
  function Tilt(high: int, low: int, mapped: int): real {
    if high > 20 || low < -20 then (mapped + 512) as real * 60.0 / 1023.0 - 30.0 else 0.0
  }

  /** Throttle plus and minus the two corrections, front and rear, left and right, within 0
      and 100 percent. */
  function Mixed(t: real, p: real, q: real): Speeds {
    Speeds(Bound(t + p - q, 0.0, 100.0), Bound(t + p + q, 0.0, 100.0),
           Bound(t - p - q, 0.0, 100.0), Bound(t - p + q, 0.0, 100.0))
  }

  /** The speeds of any powered iteration: each controller is asked with its own stick and its
      own angle. */
  lemma {:induction false} SpeedsExact(p: Pids, r: Reads, a: Angles)
    ensures Powered(r) ==>
      NextSpeeds(p, r, a)
      == Mixed((r.throttleMap + 20) as real * 100.0 / -492.0,
               Pid.Output(p.pitch, Pid.Input(Tilt(r.pitchHigh, r.pitchLow, r.pitchMap), a.pitch), 0.01),
               Pid.Output(p.roll, Pid.Input(Tilt(r.rollHigh, r.rollLow, r.rollMap), a.roll), 0.01))
    ensures !Powered(r) ==> NextSpeeds(p, r, a) == Speeds(0.0, 0.0, 0.0, 0.0)
  {
    PowerOnIff(r);
    CommandsExact(r, r.pitchHigh, r.pitchLow, r.pitchMap);
    CommandsExact(r, r.rollHigh, r.rollLow, r.rollMap);
  }

  /** The speeds of a first powered iteration, in terms of sticks and angles alone. */
  lemma {:induction false} FirstSpeedsExact(r: Reads, a: Angles)
    requires Powered(r)
    ensures NextSpeeds(Init().pids, r, a)
         == Mixed((r.throttleMap + 20) as real * 100.0 / -492.0,
                  Bound(26.2 * TiltError(r.pitchHigh, r.pitchLow, r.pitchMap, a.pitch), -40.0, 40.0),
                  Bound(26.2 * TiltError(r.rollHigh, r.rollLow, r.rollMap, a.roll), -40.0, 40.0))
  {
    SpeedsExact(Init().pids, r, a);
    FirstCorrection(Pid.Input(Tilt(r.pitchHigh, r.pitchLow, r.pitchMap), a.pitch));
    FirstCorrection(Pid.Input(Tilt(r.rollHigh, r.rollLow, r.rollMap), a.roll));
  }

  predicate Centred(r: Reads) {
    -20 <= r.pitchLow && r.pitchHigh <= 20 && -20 <= r.rollLow && r.rollHigh <= 20
  }

  /** Sticks centred and controllers fresh, the motors work against the measured angles. */
  predicate Levels(a: Angles, fl: int, fr: int, bl: int, br: int) {
    && (a.pitch >= 0.0 ==> fl <= bl && fr <= br)
    && (a.pitch <= 0.0 ==> bl <= fl && br <= fr)
    && (a.roll >= 0.0 ==> fr <= fl && br <= bl)
    && (a.roll <= 0.0 ==> fl <= fr && bl <= br)
  }

  lemma {:induction false} LevelsItself(r: Reads, a: Angles)
    ensures var m := NextSpeeds(Init().pids, r, a);
      Centred(r) ==> Levels(a, Duty(m.fl), Duty(m.fr), Duty(m.bl), Duty(m.br))
  {
    PowerOnIff(r);
    if Powered(r) && Centred(r) {
      FirstCorrection(PitchInput(r, a));
      FirstCorrection(RollInput(r, a));
      CorrectionKeepsItsSense(ThrottleCommand(r), Pid.Output(Pid.Init(GAINS), PitchInput(r, a), DT),
                              Pid.Output(Pid.Init(GAINS), RollInput(r, a), DT));
    }
  }

  // ---------------------------------------------------------------- the two tasks

  datatype Pc =
    | Sense
    | TestThrottle | MapThrottle
    | TestPitchHigh | TestPitchLow | MapPitch
    | TestRollHigh | TestRollLow | MapRoll
    | Compute
    | Drive(motor: nat)
    | Wait(good: bool)     // `good`: this iteration's sensor read succeeded

  datatype State = State(
    sticks: Sticks,
    writes: seq<Write>,    // what the running Bluetooth callback still has to store
    pc: Pc,
    angles: Angles,
    seen: Reads,
    pids: Pids,
    speeds: Speeds,
    duties: seq<int>,
    setBy: seq<Reads>)        // history: what the iteration that set each duty had read

  function Init(): State {
    State(Sticks(0, 0, 0, 0), [], Sense, Angles(0.0, 0.0), NO_READS,
          Pids(Pid.Init(GAINS), Pid.Init(GAINS)), STOPPED, [0, 0, 0, 0],
          [NO_READS, NO_READS, NO_READS, NO_READS])
  }

  datatype Event =
    | Disconnected
    | Data(ry: int, rx: int, y: int, x: int)
    | Store
    | Sensor(ok: bool, angles: Angles)
    | Loop

  predicate Enabled(s: State, e: Event) {
    match e
    case Disconnected => s.writes == []
    case Data(_, _, _, _) => s.writes == []
    case Store => s.writes != []
    case Sensor(_, _) => s.pc == Sense
    case Loop => s.pc != Sense
  }

  function StickWrites(throttle: int, yaw: int, pitch: int, roll: int): seq<Write> {
    [Write(Throttle, throttle), Write(Yaw, yaw), Write(Pitch, pitch), Write(Roll, roll)]
  }

  function Stored(k: Sticks, w: Write): Sticks {
    match w.stick
    case Throttle => k.(throttle := w.value)
    case Yaw => k.(yaw := w.value)
    case Pitch => k.(pitch := w.value)
    case Roll => k.(roll := w.value)
  }

  function Next(s: State, e: Event): State
    requires Enabled(s, e)
  {
    match e
    case Disconnected => s.(writes := StickWrites(0, 0, 0, 0))
    case Data(ry, rx, y, x) => s.(writes := StickWrites(ry, rx, y, x))
    case Store => s.(sticks := Stored(s.sticks, s.writes[0]), writes := s.writes[1..])
    case Sensor(ok, a) => if ok then s.(pc := TestThrottle, angles := a, seen := NO_READS) else s.(pc := Wait(false))
    case Loop => Looped(s)
  }

  /** The next statement of the loop that touches anything shared. */
  function Looped(s: State): State {
    var k, r := s.sticks, s.seen;
    match s.pc
    case Sense => s
    case TestThrottle =>
      s.(seen := r.(throttleTest := k.throttle), pc := if k.throttle < -20 then MapThrottle else TestPitchHigh)
    case MapThrottle => s.(seen := r.(throttleMap := k.throttle), pc := TestPitchHigh)
    case TestPitchHigh =>
      s.(seen := r.(pitchHigh := k.pitch), pc := if k.pitch > 20 then MapPitch else TestPitchLow)
    case TestPitchLow =>
      s.(seen := r.(pitchLow := k.pitch), pc := if k.pitch < -20 then MapPitch else TestRollHigh)
    case MapPitch => s.(seen := r.(pitchMap := k.pitch), pc := TestRollHigh)
    case TestRollHigh =>
      s.(seen := r.(rollHigh := k.roll), pc := if k.roll > 20 then MapRoll else TestRollLow)
    case TestRollLow =>
      s.(seen := r.(rollLow := k.roll), pc := if k.roll < -20 then MapRoll else Compute)
    case MapRoll => s.(seen := r.(rollMap := k.roll), pc := Compute)
    case Compute =>
      s.(pids := NextPids(s.pids, r, s.angles), speeds := NextSpeeds(s.pids, r, s.angles), pc := Drive(0))
    case Drive(i) =>
      s.(duties := if i < |s.duties| then s.duties[i := Duty(SpeedOf(s.speeds, i))] else s.duties,
         setBy := if i < |s.setBy| then s.setBy[i := s.seen] else s.setBy,
         pc := if i < 3 then Drive(i + 1) else Wait(true))
    case Wait(_) => s.(pc := Sense)
  }

  predicate ValidRun(s: State, es: seq<Event>)
    decreases |es|
  {
    es == [] || (Enabled(s, es[0]) && ValidRun(Next(s, es[0]), es[1..]))
  }

  function After(s: State, es: seq<Event>): State
    requires ValidRun(s, es)
    decreases |es|
  {
    if es == [] then s else After(Next(s, es[0]), es[1..])
  }

  lemma {:induction false} AfterConcat(s: State, a: seq<Event>, b: seq<Event>)
    requires ValidRun(s, a + b)
    ensures ValidRun(s, a) && ValidRun(After(s, a), b) && After(s, a + b) == After(After(s, a), b)
    decreases |a|
  {
    if a == [] {
      assert a + b == b;
    } else {
      assert (a + b)[0] == a[0] && (a + b)[1..] == a[1..] + b;
      AfterConcat(Next(s, a[0]), a[1..], b);
    }
  }

  /** What a callback stores, once all four of its stores are made: each axis of the right
      stick and of the left one in its place, or four zeros. */
  lemma {:induction false} CallbacksExact(s: State, ry: int, rx: int, y: int, x: int)
    requires s.writes == []
    ensures FourStores(Next(s, Data(ry, rx, y, x)), Sticks(ry, rx, y, x))
    ensures FourStores(Next(s, Disconnected), Sticks(0, 0, 0, 0))
  {
  }

  predicate FourStores(s: State, k: Sticks) {
    && Enabled(s, Store) && Enabled(Next(s, Store), Store)
    && var t := Next(Next(s, Store), Store);
       Enabled(t, Store) && Enabled(Next(t, Store), Store)
       && Next(Next(t, Store), Store) == s.(sticks := k, writes := [])
  }

  // ---------------------------------------------------------------- what every step keeps

  predicate DutiesInRange(d: seq<int>) { |d| == 4 && forall i :: 0 <= i < 4 ==> 0 <= d[i] <= 1023 }

  predicate PidSound(p: Pid.State) { p.gains == GAINS && Pid.Within(p.integral, GAINS.iLimit) }

  /** The first `n` motors already have the speed this iteration computed. */
  predicate Driven(s: State, n: nat) {
    && |s.duties| == |s.setBy| == 4 && n <= 4
    && forall i :: 0 <= i < n ==> s.duties[i] == Duty(SpeedOf(s.speeds, i)) && s.setBy[i] == s.seen
  }

  /** No motor runs but by an iteration that had found the throttle up. */
  predicate Accounted(s: State) {
    |s.duties| == |s.setBy| == 4 && forall i :: 0 <= i < 4 ==> s.duties[i] != 0 ==> PowerOn(s.setBy[i])
  }

  predicate PoweredOnlyByThrottle(s: State) { s.speeds == STOPPED || PowerOn(s.seen) }

  predicate LoopInv(s: State) {
    match s.pc
    case Drive(i) => i < 4 && Driven(s, i) && PoweredOnlyByThrottle(s)
    case Wait(_) => Driven(s, 4) && PoweredOnlyByThrottle(s)
    case Sense => Driven(s, 4) && PoweredOnlyByThrottle(s)
    case _ => true
  }

  predicate Inv(s: State) {
    DutiesInRange(s.duties) && PidSound(s.pids.pitch) && PidSound(s.pids.roll) && LoopInv(s) && Accounted(s)
  }

  lemma PidKeeps(p: Pid.State, i: Pid.Input)
    requires PidSound(p)
    ensures PidSound(Pid.Next(p, i, DT)) && PidSound(Pid.Reset(p))
  {
  }

  lemma {:induction false} ComputeKeeps(s: State)
    requires Inv(s) && s.pc == Compute
    ensures Inv(Looped(s))
  {
    PidKeeps(s.pids.pitch, PitchInput(s.seen, s.angles));
    PidKeeps(s.pids.roll, RollInput(s.seen, s.angles));
  }

  lemma {:induction false} DriveKeeps(s: State)
    requires Inv(s) && s.pc.Drive?
    ensures Inv(Looped(s))
  {
    DutyRange(SpeedOf(s.speeds, s.pc.motor));
    DutyRange(0.0);
  }

  lemma {:induction false} StepKeeps(s: State, e: Event)
    requires Inv(s) && Enabled(s, e)
    ensures Inv(Next(s, e))
  {
    if e.Loop? && s.pc.Compute? {
      ComputeKeeps(s);
    } else if e.Loop? && s.pc.Drive? {
      DriveKeeps(s);
    }
  }

  lemma {:induction false} RunKeeps(s: State, es: seq<Event>)
    requires Inv(s) && ValidRun(s, es)
    ensures Inv(After(s, es))
    decreases |es|
  {
    if es != [] {
      StepKeeps(s, es[0]);
      RunKeeps(Next(s, es[0]), es[1..]);
    }
  }

  lemma {:induction false} InitInv()
    ensures Inv(Init())
  {
    DutyRange(0.0);
  }

  /** In every interleaving, at every moment: all duties are in 0..1023, and a running motor
      was set by an iteration that mapped a throttle of at most -30.  Between iterations,
      after good and failed reads alike, that is the last good one. */
  lemma {:induction false} FlightSafe(es: seq<Event>, i: nat)
    requires ValidRun(Init(), es) && i < 4
    ensures var s := After(Init(), es);
            && DutiesInRange(s.duties) && |s.setBy| == 4
            && (s.duties[i] != 0 ==> s.setBy[i].throttleTest < -20 && s.setBy[i].throttleMap <= -30)
            && (s.pc.Sense? || s.pc.Wait? ==> s.setBy[i] == s.seen)
  {
    InitInv();
    RunKeeps(Init(), es);
    PowerOnIff(After(Init(), es).setBy[i]);
  }

  /** In every interleaving both controllers keep their gains, and what they have summed up
      stays within 20. */
  lemma {:induction false} ControllersSafe(es: seq<Event>)
    requires ValidRun(Init(), es)
    ensures var p := After(Init(), es).pids;
      && p.pitch.gains == p.roll.gains == Pid.Gains(1.2, 0.0, 0.5, 20.0, 40.0)
      && -20.0 <= p.pitch.integral <= 20.0 && -20.0 <= p.roll.integral <= 20.0
  {
    InitInv();
    RunKeeps(Init(), es);
  }

  // ---------------------------------------------------------------- failed reads

  /** Only driving a motor changes a duty, and only that motor's. */
  lemma OnlyDriveChangesDuties(s: State, e: Event, i: nat)
    requires Enabled(s, e) && i < |s.duties|
    ensures |Next(s, e).duties| == |s.duties|
    ensures Next(s, e).duties[i] != s.duties[i] ==> e.Loop? && s.pc == Drive(i)
  {
  }

  predicate NoGoodRead(es: seq<Event>) { forall i :: 0 <= i < |es| ==> es[i].Sensor? ==> !es[i].ok }

  predicate Resting(s: State) { s.pc == Wait(false) || s.pc == Sense }

  lemma {:induction false} RestingHolds(s: State, es: seq<Event>)
    requires Resting(s) && ValidRun(s, es) && NoGoodRead(es)
    ensures After(s, es).duties == s.duties && After(s, es).pids == s.pids && Resting(After(s, es))
    decreases |es|
  {
    if es != [] {
      assert es[0].Sensor? ==> !es[0].ok;
      RestingHolds(Next(s, es[0]), es[1..]);
    }
  }

  /** From a failed sensor read on nothing the loop owns changes, however many more reads
      fail and whatever the other task does meanwhile. */
  lemma {:induction false} FailedReadHolds(s: State, a: Angles, es: seq<Event>)
    requires Enabled(s, Sensor(false, a)) && ValidRun(Next(s, Sensor(false, a)), es) && NoGoodRead(es)
    ensures Next(s, Sensor(false, a)).pc == Wait(false)
    ensures After(Next(s, Sensor(false, a)), es).duties == s.duties
    ensures After(Next(s, Sensor(false, a)), es).pids == s.pids
  {
    RestingHolds(Next(s, Sensor(false, a)), es);
  }

  // ---------------------------------------------------------------- losing the controller

  predicate NoPowerIn(ws: seq<Write>) {
    forall i :: 0 <= i < |ws| ==> ws[i].stick == Throttle ==> ws[i].value > -30
  }

  /** Neither the stored throttle nor one about to be stored asks for power. */
  predicate Quiet(s: State) { s.sticks.throttle > -30 && NoPowerIn(s.writes) }

  predicate Harmless(e: Event) { e.Data? ==> e.ry > -30 }

  predicate AllHarmless(es: seq<Event>) { forall i :: 0 <= i < |es| ==> Harmless(es[i]) }

  predicate AllOff(s: State) { s.duties == [0, 0, 0, 0] }

  /** An iteration that can only end with all motors off. */
  predicate Cutting(s: State) {
    Quiet(s) && match s.pc
    case Sense => AllOff(s)
    case Wait(_) => AllOff(s)
    case TestThrottle => |s.duties| == 4 && s.seen.throttleMap > -30
    case MapThrottle => |s.duties| == 4
    case Drive(i) => i < 4 && |s.duties| == 4 && s.speeds == STOPPED && forall j :: 0 <= j < i ==> s.duties[j] == 0
    case _ => |s.duties| == 4 && !PowerOn(s.seen)
  }

  lemma {:induction false} QuietKeeps(s: State, e: Event)
    requires Quiet(s) && Enabled(s, e) && Harmless(e)
    ensures Quiet(Next(s, e))
  {
    if e.Store? {
      var w := s.writes[0];
      assert w.stick == Throttle ==> w.value > -30;
    }
  }

  lemma {:induction false} DriveCuts(s: State)
    requires Cutting(s) && s.pc.Drive?
    ensures Cutting(Looped(s)) && (AllOff(s) ==> AllOff(Looped(s)))
  {
    DutyRange(0.0);
    assert SpeedOf(s.speeds, s.pc.motor) == 0.0;
    var d := Looped(s).duties;
    if s.pc.motor == 3 {
      assert d == [d[0], d[1], d[2], d[3]];
    }
  }

  lemma {:induction false} LoopCuts(s: State)
    requires Cutting(s) && s.pc != Sense
    ensures Cutting(Looped(s)) && (AllOff(s) ==> AllOff(Looped(s)))
  {
    PowerOnIff(s.seen);
    PowerOnIff(Looped(s).seen);
    if s.pc.Drive? {
      DriveCuts(s);
    }
  }

  lemma {:induction false} StepCuts(s: State, e: Event)
    requires Cutting(s) && Enabled(s, e) && Harmless(e)
    ensures Cutting(Next(s, e)) && (AllOff(s) ==> AllOff(Next(s, e)))
  {
    QuietKeeps(s, e);
    if e.Loop? {
      LoopCuts(s);
    }
  }

  /** The loop steps left before the iteration waits. */
  function StepsLeft(pc: Pc): nat {
    match pc
    case TestThrottle => 13
    case MapThrottle => 12
    case TestPitchHigh => 11
    case TestPitchLow => 10
    case MapPitch => 9
    case TestRollHigh => 8
    case TestRollLow => 7
    case MapRoll => 6
    case Compute => 5
    case Drive(i) => if i < 4 then 4 - i else 1
    case _ => 0
  }

  function LoopSteps(es: seq<Event>): nat
    decreases |es|
  {
    if es == [] then 0 else (if es[0].Loop? then 1 else 0) + LoopSteps(es[1..])
  }

  lemma LoopAdvances(s: State)
    requires StepsLeft(s.pc) > 0
    ensures StepsLeft(Looped(s).pc) < StepsLeft(s.pc)
  {
  }

  /** Once a cutting iteration has had its steps, the motors are off - and stay off for as
      long as no new data asks for power. */
  lemma {:induction false} CutsOff(s: State, es: seq<Event>)
    requires Cutting(s) && ValidRun(s, es) && AllHarmless(es)
    requires AllOff(s) || LoopSteps(es) >= StepsLeft(s.pc)
    ensures AllOff(After(s, es))
    decreases |es|
  {
    if es != [] {
      var e, n := es[0], Next(s, es[0]);
      assert Harmless(e);
      StepCuts(s, e);
      if !AllOff(s) && e.Loop? {
        LoopAdvances(s);
      }
      assert AllOff(n) || LoopSteps(es[1..]) >= StepsLeft(n.pc);
      CutsOff(n, es[1..]);
    }
  }

  /** Once the loop has started no motor runs before controller data asks for power, whatever the
      sensors say and however the tasks interleave. */
  lemma {:induction false} NothingFliesUnasked(es: seq<Event>)
    requires ValidRun(Init(), es) && AllHarmless(es)
    ensures AllOff(After(Init(), es))
  {
    CutsOff(Init(), es);
  }

  /** The loop steps left before the next sensor read. */
  function StepsToSense(pc: Pc): nat { if pc.Sense? then 0 else StepsLeft(pc) + 1 }

  /** The other task cannot hold the loop up: between two sensor reads lie at most 14 of its
      steps, and until then there is always a next one. */
  lemma {:induction false} IterationsEnd(s: State, es: seq<Event>)
    requires ValidRun(s, es) && forall i :: 0 <= i < |es| ==> !es[i].Sensor?
    ensures LoopSteps(es) + StepsToSense(After(s, es).pc) <= StepsToSense(s.pc) <= 14
    ensures Enabled(After(s, es), Loop) <==> StepsToSense(After(s, es).pc) > 0
    decreases |es|
  {
    if es != [] {
      assert !es[0].Sensor?;
      if es[0].Loop? && StepsLeft(s.pc) > 0 {
        LoopAdvances(s);
      }
      IterationsEnd(Next(s, es[0]), es[1..]);
    }
  }

  lemma {:induction false} StaysQuiet(s: State, es: seq<Event>)
    requires Quiet(s) && ValidRun(s, es) && AllHarmless(es)
    ensures Quiet(After(s, es))
    decreases |es|
  {
    if es != [] {
      assert Harmless(es[0]);
      QuietKeeps(s, es[0]);
      StaysQuiet(Next(s, es[0]), es[1..]);
    }
  }

  /** From any state the system can be in: once a disconnect has stored its first value, the
      first good sensor read after it starts an iteration that ends, within 13 steps of the
      loop, with all four motors off; and off they stay while no controller data with a
      throttle of -30 or less arrives.  `before` and `after` hold anything else both tasks
      do. */
  lemma {:induction false} DisconnectStopsMotors(s: State, before: seq<Event>, a: Angles, after: seq<Event>)
    requires Inv(s) && s.writes == []
    requires var gone := Next(Next(s, Disconnected), Store);
             && ValidRun(gone, before + [Sensor(true, a)] + after)
             && AllHarmless(before) && AllHarmless(after) && LoopSteps(after) >= 13
    ensures AllOff(After(Next(Next(s, Disconnected), Store), before + [Sensor(true, a)] + after))
  {
    var gone := Next(Next(s, Disconnected), Store);
    AfterConcat(gone, before + [Sensor(true, a)], after);
    AfterConcat(gone, before, [Sensor(true, a)]);
    StaysQuiet(gone, before);
    StepKeeps(s, Disconnected);
    StepKeeps(Next(s, Disconnected), Store);
    RunKeeps(gone, before);
    var ready := After(gone, before);
    var started := After(ready, [Sensor(true, a)]);
    assert started == Next(ready, Sensor(true, a));
    CutsOff(started, after);
  }

  // ---------------------------------------------------------------- undisturbed iterations

  /** What an iteration reads when no stick changes while it runs. */
  function Snapshot(k: Sticks): Reads {
    Reads(k.throttle, if k.throttle < -20 then k.throttle else 0,
          k.pitch, if k.pitch > 20 then 0 else k.pitch, if k.pitch > 20 || k.pitch < -20 then k.pitch else 0,
          k.roll, if k.roll > 20 then 0 else k.roll, if k.roll > 20 || k.roll < -20 then k.roll else 0)
  }

  /** The loop alone, up to its wait. */
  function Settle(s: State): State
    decreases StepsLeft(s.pc)
  {
    if StepsLeft(s.pc) == 0 then s else LoopAdvances(s); Settle(Looped(s))
  }

  lemma {:induction false} SettleIsRun(s: State) returns (es: seq<Event>)
    requires s.pc != Sense
    ensures ValidRun(s, es) && After(s, es) == Settle(s) && forall i :: 0 <= i < |es| ==> es[i] == Loop
    decreases StepsLeft(s.pc)
  {
    es := [];
    if StepsLeft(s.pc) > 0 {
      LoopAdvances(s);
      var rest := SettleIsRun(Looped(s));
      es := [Loop] + rest;
      assert es[1..] == rest;
    }
  }

  function ThrottleSeen(r: Reads, k: Sticks): Reads {
    r.(throttleTest := k.throttle, throttleMap := if k.throttle < -20 then k.throttle else r.throttleMap)
  }

  function PitchSeen(r: Reads, k: Sticks): Reads {
    r.(pitchHigh := k.pitch,
       pitchLow := if k.pitch > 20 then r.pitchLow else k.pitch,
       pitchMap := if k.pitch > 20 || k.pitch < -20 then k.pitch else r.pitchMap)
  }

  function RollSeen(r: Reads, k: Sticks): Reads {
    r.(rollHigh := k.roll,
       rollLow := if k.roll > 20 then r.rollLow else k.roll,
       rollMap := if k.roll > 20 || k.roll < -20 then k.roll else r.rollMap)
  }

  lemma {:induction false} ThrottleStage(s: State)
    requires s.pc == TestThrottle
    ensures Settle(s) == Settle(s.(pc := TestPitchHigh, seen := ThrottleSeen(s.seen, s.sticks)))
  {
    assert Settle(s) == Settle(Looped(s));
  }

  lemma {:induction false} PitchStage(s: State)
    requires s.pc == TestPitchHigh
    ensures Settle(s) == Settle(s.(pc := TestRollHigh, seen := PitchSeen(s.seen, s.sticks)))
  {
    var n := Looped(s);
    assert Settle(s) == Settle(n) == Settle(Looped(n));
    if n.pc == TestPitchLow && s.sticks.pitch < -20 {
      assert Settle(Looped(n)) == Settle(Looped(Looped(n)));
    }
  }

  lemma SettleStep(s: State)
    requires StepsLeft(s.pc) > 0
    ensures Settle(s) == Settle(Looped(s))
  {
  }

  /** The state in which the roll tests leave the loop, and how many steps that takes. */
  lemma {:induction false} RollPath(s: State) returns (two: bool)
    requires s.pc == TestRollHigh
    ensures var t, n := s.(pc := Compute, seen := RollSeen(s.seen, s.sticks)), Looped(Looped(s));
            StepsLeft(Looped(s).pc) > 0 && (if two then n == t else StepsLeft(n.pc) > 0 && Looped(n) == t)
  {
    two := s.sticks.roll >= -20;
  }

  lemma {:induction false} RollStage(s: State)
    requires s.pc == TestRollHigh
    ensures Settle(s) == Settle(s.(pc := Compute, seen := RollSeen(s.seen, s.sticks)))
  {
    var two := RollPath(s);
    SettleStep(s);
    SettleStep(Looped(s));
    if !two {
      SettleStep(Looped(Looped(s)));
    }
  }

  lemma {:induction false} DriveStage(s: State)
    requires s.pc == Drive(0) && |s.duties| == |s.setBy| == 4
    ensures var m := s.speeds;
            Settle(s) == s.(pc := Wait(true), duties := [Duty(m.fl), Duty(m.fr), Duty(m.bl), Duty(m.br)],
                            setBy := [s.seen, s.seen, s.seen, s.seen])
  {
    var m := s.speeds;
    var a := Looped(s);
    var b := Looped(a);
    var c := Looped(b);
    var d := Looped(c);
    assert Settle(s) == Settle(a) == Settle(b) == Settle(c) == Settle(d) == d;
    assert d.duties == [Duty(m.fl), Duty(m.fr), Duty(m.bl), Duty(m.br)];
    assert d.setBy == [s.seen, s.seen, s.seen, s.seen];
  }

  /** An iteration during which the sticks rest does to motors and controllers exactly what
      one call of `Iterate` does with the stick values it started from. */
  lemma {:induction false} UndisturbedIteration(s: State, a: Angles)
    requires Inv(s) && s.pc == Sense
    ensures var n, m := Settle(Next(s, Sensor(true, a))), NextSpeeds(s.pids, Snapshot(s.sticks), a);
            && n.pc == Wait(true)
            && n.pids == NextPids(s.pids, Snapshot(s.sticks), a)
            && n.duties == [Duty(m.fl), Duty(m.fr), Duty(m.bl), Duty(m.br)]
  {
    var k := s.sticks;
    var s0 := Next(s, Sensor(true, a));
    ThrottleStage(s0);
    var s1 := s0.(pc := TestPitchHigh, seen := ThrottleSeen(s0.seen, k));
    PitchStage(s1);
    var s2 := s1.(pc := TestRollHigh, seen := PitchSeen(s1.seen, k));
    RollStage(s2);
    var s3 := s2.(pc := Compute, seen := RollSeen(s2.seen, k));
    assert s3.seen == Snapshot(k);
    assert Settle(s3) == Settle(Looped(s3));
    DriveStage(Looped(s3));
  }

  // ---------------------------------------------------------------- the code

  class FlightController {
    const pitchPid: Pid.Controller
    const rollPid: Pid.Controller
    var throttle: int
    var yaw: int
    var pitch: int
    var roll: int
    var duties: seq<int>

    ghost predicate Valid()
      reads this
    {
      pitchPid != rollPid && |duties| == 4
    }

    function PidView(): Pids
      reads this, pitchPid, rollPid
    {
      Pids(pitchPid.View(), rollPid.View())
    }

    constructor ()
      ensures Valid() && fresh(pitchPid) && fresh(rollPid)
      ensures PidView() == Init().pids && duties == Init().duties == [0, 0, 0, 0]
      ensures Sticks(throttle, yaw, pitch, roll) == Init().sticks == Sticks(0, 0, 0, 0)
    {
      pitchPid := new Pid.Controller(GAINS);
      rollPid := new Pid.Controller(GAINS);
      throttle, yaw, pitch, roll := 0, 0, 0, 0;
      duties := [0, 0, 0, 0];
    }

    method OnDeviceDisconnected()
      modifies this`throttle, this`yaw, this`pitch, this`roll
      ensures Sticks(throttle, yaw, pitch, roll) == Sticks(0, 0, 0, 0)
    {
      throttle := 0;
      yaw := 0;
      pitch := 0;
      roll := 0;
    }

    method OnControllerData(ry: int, rx: int, y: int, x: int)
      modifies this`throttle, this`yaw, this`pitch, this`roll
      ensures Sticks(throttle, yaw, pitch, roll) == Sticks(ry, rx, y, x)
    {
      throttle := ry;
      yaw := rx;
      pitch := y;
      roll := x;
    }

    method MotorSetSpeed(motor: nat, speed: real)
      requires motor < |duties|
      modifies this`duties
      ensures duties == old(duties)[motor := Duty(speed)]
    {
      var percent := speed;
      if percent < 0.0 {
        percent := 0.0;
      }
      if percent > 100.0 {
        percent := 100.0;
      }
      duties := duties[motor := (percent / 100.0 * 1023.0).Floor];
    }

    method DriveAll(m: Speeds)
      requires |duties| == 4
      modifies this`duties
      ensures duties == [Duty(m.fl), Duty(m.fr), Duty(m.bl), Duty(m.br)]
    {
      MotorSetSpeed(0, m.fl);
      MotorSetSpeed(1, m.fr);
      MotorSetSpeed(2, m.bl);
      MotorSetSpeed(3, m.br);
    }

    method DriveMixed(throttleCmd: real, outPitch: real, outRoll: real)
      requires |duties| == 4
      modifies this`duties
      ensures var m := Limit(Mixer(throttleCmd, outPitch, outRoll));
              duties == [Duty(m.fl), Duty(m.fr), Duty(m.bl), Duty(m.br)]
    {
      var fl := throttleCmd + outPitch - outRoll;
      var fr := throttleCmd + outPitch + outRoll;
      var bl := throttleCmd - outPitch - outRoll;
      var br := throttleCmd - outPitch + outRoll;
      fl := Pid.Clamp(fl, 0.0, 100.0);
      fr := Pid.Clamp(fr, 0.0, 100.0);
      bl := Pid.Clamp(bl, 0.0, 100.0);
      br := Pid.Clamp(br, 0.0, 100.0);
      DriveAll(Speeds(fl, fr, bl, br));
    }

    /** One pass of the loop.  `r` holds what each stick read found, since the other task may
        store between any two of them. */
    method Iterate(ok: bool, a: Angles, r: Reads)
      requires Valid()
      modifies this`duties, pitchPid, rollPid
      ensures Valid()
      ensures !ok ==> duties == old(duties) && PidView() == old(PidView())
      ensures ok ==> PidView() == NextPids(old(PidView()), r, a)
      ensures ok ==> var m := NextSpeeds(old(PidView()), r, a); duties == [Duty(m.fl), Duty(m.fr), Duty(m.bl), Duty(m.br)]
      ensures ok && old(PidView()) == Init().pids && Centred(r) ==> Levels(a, duties[0], duties[1], duties[2], duties[3])
    {
      LevelsItself(r, a);
      if ok {
        var throttleCmd, pitchCmd, rollCmd := 0.0, 0.0, 0.0;
        if r.throttleTest < -20 {
          throttleCmd := MapValue(r.throttleMap, -20, -512, 0.0, 100.0);
        }
        if r.pitchHigh > 20 || r.pitchLow < -20 {
          pitchCmd := MapValue(r.pitchMap, -512, 511, -30.0, 30.0);
        }
        if r.rollHigh > 20 || r.rollLow < -20 {
          rollCmd := MapValue(r.rollMap, -512, 511, -30.0, 30.0);
        }
        if throttleCmd > 2.0 {
          var outPitch := pitchPid.Compute(pitchCmd, a.pitch, DT);
          var outRoll := rollPid.Compute(rollCmd, a.roll, DT);
          DriveMixed(throttleCmd, outPitch, outRoll);
        } else {
          DriveAll(STOPPED);
          pitchPid.ResetState();
          rollPid.ResetState();
        }
      }
    }
  }
}
