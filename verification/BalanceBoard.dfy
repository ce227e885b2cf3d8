/** The balance-board joystick of `uni_joystick.c`: direction from weight differences, and a
    jump detector that turns "press, leave the board, stay in the air" into a fire pulse. */
module BalanceBoard {
  import opened Arithmetic

  const IDLE: int := 1600   // UNI_BALANCE_BOARD_IDLE_THRESHOLD

  type Sensor = v: int | 0 <= v < 65536
  datatype Frame = Frame(tl: Sensor, tr: Sensor, bl: Sensor, br: Sensor)

  datatype Fsm = Reset | Threshold | InAir | Fire
  datatype State = State(fsm: Fsm, counter: nat)   // counter is a uint8_t

  const START: State := State(Reset, 0)

  function Sum(f: Frame): int {
    var a: int, b: int, c: int, d: int := f.tl, f.tr, f.bl, f.br;
    a + b + c + d
  }

  predicate Idle(f: Frame) { f.tl < IDLE && f.tr < IDLE && f.bl < IDLE && f.br < IDLE }

  /** The test while in the air compares `bl` with `>`, the other three with `>=`. */
  predicate Landed(f: Frame) { f.tl >= IDLE || f.tr >= IDLE || f.bl > IDLE || f.br >= IDLE }

  // ---------------------------------------------------------------- one frame

  function Next(fire: int, s: State, f: Frame): State {
    var counter := (s.counter + 1) % 256;
    match s.fsm
    case Reset => if Sum(f) >= fire then State(Threshold, 0) else State(Reset, counter)
    case Threshold =>
      if Idle(f) then State(InAir, 0)
      else if counter > 10 then State(Reset, 0)
      else if Sum(f) >= fire then State(Threshold, 0)
      else State(Threshold, counter)
    case InAir =>
      if counter > 2 then State(Fire, 0)
      else if Landed(f) then State(Reset, 0)
      else State(InAir, counter)
    case Fire => if counter > 10 then State(Reset, 0) else State(Fire, counter)
  }

  predicate Fires(s: State) { s.fsm.Fire? || (s.fsm.InAir? && (s.counter + 1) % 256 > 2) }

  // ---------------------------------------------------------------- whole recordings

  /** The state before frame `n`. */
  function At(fire: int, frames: seq<Frame>, n: nat): State
    requires n <= |frames|
  {
    if n == 0 then START else Next(fire, At(fire, frames, n - 1), frames[n - 1])
  }

  /** `out_joy->fire` of frame `k`, the outputs being cleared before each frame. */
  predicate Out(fire: int, frames: seq<Frame>, k: nat)
    requires k < |frames|
  {
    Fires(At(fire, frames, k))
  }

  predicate Silent(fire: int, frames: seq<Frame>, from: int, to: nat)
    requires to <= |frames|
  {
    0 <= from && forall i :: from <= i < to ==> !Out(fire, frames, i)
  }

  /** Some frame 1 to 11 before frame `j` reached the fire threshold. */
  ghost predicate PressedBefore(fire: int, frames: seq<Frame>, j: nat)
    requires j < |frames|
  {
    exists i: nat :: j - 11 <= i < j && Sum(frames[i]) >= fire
  }

  /** Frame `j` has nobody on the board, shortly after a press. */
  ghost predicate TakeOff(fire: int, frames: seq<Frame>, j: nat)
    requires j < |frames|
  {
    Idle(frames[j]) && PressedBefore(fire, frames, j)
  }

  /** What the state before frame `n` says about the frames so far. */
  ghost predicate History(fire: int, frames: seq<Frame>, n: nat)
    requires n <= |frames|
  {
    var s := At(fire, frames, n);
    match s.fsm
    case Reset => s.counter < 256
    case Threshold =>
      && s.counter <= 10 && s.counter < n
      && Sum(frames[n - 1 - s.counter]) >= fire
      && Silent(fire, frames, n - 1 - s.counter, n)
    case InAir =>
      && s.counter <= 2 && s.counter < n
      && TakeOff(fire, frames, n - 1 - s.counter)
      && (forall i :: n - s.counter <= i < n ==> !Landed(frames[i]))
      && Silent(fire, frames, n - 2 - s.counter, n)
    case Fire =>
      && s.counter <= 10 && s.counter < n
      && (forall i :: n - 1 - s.counter <= i < n ==> Out(fire, frames, i))
  }

  lemma {:induction false} FromReset(fire: int, frames: seq<Frame>, n: nat)
    requires n < |frames| && History(fire, frames, n) && At(fire, frames, n).fsm.Reset?
    ensures History(fire, frames, n + 1)
  {
    assert !Out(fire, frames, n);
  }

  lemma {:induction false} AtStep(fire: int, frames: seq<Frame>, n: nat)
    requires n < |frames|
    ensures At(fire, frames, n + 1) == Next(fire, At(fire, frames, n), frames[n])
  {
  }

  lemma {:induction false} SilentExtends(fire: int, frames: seq<Frame>, from: int, later: int, n: nat)
    requires n < |frames| && Silent(fire, frames, from, n) && !Out(fire, frames, n) && from <= later
    ensures Silent(fire, frames, later, n + 1)
  {
  }

  lemma {:induction false} Pressed(fire: int, frames: seq<Frame>, i: nat, j: nat)
    requires i < j < |frames| && j - 11 <= i && Sum(frames[i]) >= fire
    ensures PressedBefore(fire, frames, j)
  {
  }

  lemma {:induction false} TakesOff(fire: int, frames: seq<Frame>, n: nat)
    requires n < |frames| && History(fire, frames, n) && At(fire, frames, n).fsm.Threshold? && Idle(frames[n])
    ensures History(fire, frames, n + 1)
  {
    var c := At(fire, frames, n).counter;
    AtStep(fire, frames, n);
    SilentExtends(fire, frames, n - 1 - c, n - 1, n);
    Pressed(fire, frames, n - 1 - c, n);
  }

  lemma {:induction false} StaysOn(fire: int, frames: seq<Frame>, n: nat)
    requires n < |frames| && History(fire, frames, n) && At(fire, frames, n).fsm.Threshold? && !Idle(frames[n])
    ensures History(fire, frames, n + 1)
  {
    var c := At(fire, frames, n).counter;
    AtStep(fire, frames, n);
    SilentExtends(fire, frames, n - 1 - c, n - 1 - c, n);
    SilentExtends(fire, frames, n - 1 - c, n, n);
  }

  lemma {:induction false} FromThreshold(fire: int, frames: seq<Frame>, n: nat)
    requires n < |frames| && History(fire, frames, n) && At(fire, frames, n).fsm.Threshold?
    ensures History(fire, frames, n + 1)
  {
    if Idle(frames[n]) {
      TakesOff(fire, frames, n);
    } else {
      StaysOn(fire, frames, n);
    }
  }

  lemma {:induction false} FromInAir(fire: int, frames: seq<Frame>, n: nat)
    requires n < |frames| && History(fire, frames, n) && At(fire, frames, n).fsm.InAir?
    ensures History(fire, frames, n + 1)
  {
    var s := At(fire, frames, n);
    assert At(fire, frames, n + 1) == Next(fire, s, frames[n]);
    assert Out(fire, frames, n) == (s.counter == 2);
  }

  lemma {:induction false} FromFire(fire: int, frames: seq<Frame>, n: nat)
    requires n < |frames| && History(fire, frames, n) && At(fire, frames, n).fsm.Fire?
    ensures History(fire, frames, n + 1)
  {
    AtStep(fire, frames, n);
    assert Out(fire, frames, n);
  }

  lemma {:induction false} HistoryStep(fire: int, frames: seq<Frame>, n: nat)
    requires n < |frames| && History(fire, frames, n)
    ensures History(fire, frames, n + 1)
  {
    var fsm := At(fire, frames, n).fsm;
    if fsm.Reset? {
      FromReset(fire, frames, n);
    } else if fsm.Threshold? {
      FromThreshold(fire, frames, n);
    } else if fsm.InAir? {
      FromInAir(fire, frames, n);
    } else {
      FromFire(fire, frames, n);
    }
  }

  lemma {:induction false} HistoryHolds(fire: int, frames: seq<Frame>, n: nat)
    requires n <= |frames|
    ensures History(fire, frames, n)
    decreases n
  {
    if n > 0 {
      HistoryHolds(fire, frames, n - 1);
      HistoryStep(fire, frames, n - 1);
    }
  }

  ghost predicate PulseStarts(fire: int, frames: seq<Frame>, k: nat)
    requires k < |frames|
  {
    Out(fire, frames, k) && (k > 0 ==> !Out(fire, frames, k - 1))
  }

  /** A pulse starts only three frames after take-off: nobody landed in between, and the
      four frames before the pulse are silent. */
  lemma {:induction false} PulseNeedsJump(fire: int, frames: seq<Frame>, k: nat)
    requires k < |frames| && PulseStarts(fire, frames, k)
    ensures k >= 4 && TakeOff(fire, frames, k - 3)
    ensures !Landed(frames[k - 2]) && !Landed(frames[k - 1])
    ensures Silent(fire, frames, k - 4, k)
    ensures At(fire, frames, k + 1) == State(Fire, 0)
  {
    HistoryHolds(fire, frames, k);
  }

  lemma {:induction false} Burns(fire: int, c: nat, f: Frame)
    requires c < 10
    ensures Next(fire, State(Fire, c), f) == State(Fire, c + 1)
  {
  }

  lemma {:induction false} PulseGoesOn(fire: int, frames: seq<Frame>, k: nat, j: nat)
    requires j <= 10 && k + j < |frames| && At(fire, frames, k + 1) == State(Fire, 0)
    ensures At(fire, frames, k + 1 + j) == State(Fire, j)
    decreases j
  {
    if j > 0 {
      PulseGoesOn(fire, frames, k, j - 1);
      AtStep(fire, frames, k + j);
      Burns(fire, j - 1, frames[k + j]);
    }
  }

  /** The same in numbers: three frames before a pulse all four sensors were below 1600, a sum
      of at least the threshold had come 1 to 11 frames earlier, and in the two frames in
      between the board stayed empty. */
  lemma {:induction false} PulseInNumbers(fire: int, frames: seq<Frame>, k: nat)
    requires k < |frames| && PulseStarts(fire, frames, k)
    ensures k >= 4 && OffBoard(frames[k - 3], 1599) && OffBoard(frames[k - 2], 1600) && OffBoard(frames[k - 1], 1600)
    ensures frames[k - 2].tl < 1600 && frames[k - 2].tr < 1600 && frames[k - 2].br < 1600
    ensures exists i: nat :: k - 14 <= i < k - 3 && Pressure(frames[i]) >= fire
  {
    PulseNeedsJump(fire, frames, k);
    var i: nat :| k - 3 - 11 <= i < k - 3 && Sum(frames[i]) >= fire;
    assert Pressure(frames[i]) >= fire;
  }

  /** No sensor reads more than `limit`. */
  predicate OffBoard(f: Frame, limit: int) { f.tl <= limit && f.tr <= limit && f.bl <= limit && f.br <= limit }

  function Pressure(f: Frame): int { (f.tl as int) + (f.tr as int) + (f.bl as int) + (f.br as int) }

  /** Every fire pulse lasts exactly 12 frames (the comment in the source says 10). */
  lemma {:induction false} PulseLastsTwelve(fire: int, frames: seq<Frame>, k: nat)
    requires k < |frames| && PulseStarts(fire, frames, k)
    ensures forall i :: k <= i < k + 12 && i < |frames| ==> Out(fire, frames, i)
    ensures k + 12 < |frames| ==> !Out(fire, frames, k + 12)
  {
    PulseNeedsJump(fire, frames, k);
    forall i | k < i < k + 12 && i < |frames| ensures Out(fire, frames, i) {
      PulseGoesOn(fire, frames, k, i - k - 1);
    }
    if k + 12 < |frames| {
      PulseGoesOn(fire, frames, k, 10);
      assert At(fire, frames, k + 12) == State(Reset, 0);
    }
  }

  /** Two pulses are separated by at least four silent frames, so they start at least
      16 frames apart. */
  lemma {:induction false} PulsesApart(fire: int, frames: seq<Frame>, k: nat, m: nat)
    requires k < m < |frames| && PulseStarts(fire, frames, k) && PulseStarts(fire, frames, m)
    ensures m >= k + 16
  {
    PulseLastsTwelve(fire, frames, k);
    PulseNeedsJump(fire, frames, m);
    var last := if m - 1 < k + 11 then m - 1 else k + 11;
    assert Out(fire, frames, last);
    assert !(m - 4 <= last < m);
  }

  // ---------------------------------------------------------------- every jump fires

  lemma {:induction false} Armed(fire: int, s: State, f: Frame, m: nat)
    requires s.fsm.Threshold? && s.counter <= m < 10 && !Idle(f)
    ensures Next(fire, s, f).fsm.Threshold? && Next(fire, s, f).counter <= m + 1
  {
  }

  /** A press is heard at rest, and again within ten frames of the last one heard. */
  predicate Hears(fire: int, s: State, f: Frame) {
    Sum(f) >= fire && (s.fsm.Reset? || (s.fsm.Threshold? && s.counter < 10 && !Idle(f)))
  }

  lemma {:induction false} StaysArmed(fire: int, frames: seq<Frame>, j: nat, m: nat)
    requires m <= 10 && j + m < |frames|
    requires Hears(fire, At(fire, frames, j), frames[j])
    requires forall i :: j < i <= j + m ==> !Idle(frames[i])
    ensures At(fire, frames, j + m + 1).fsm.Threshold? && At(fire, frames, j + m + 1).counter <= m
    decreases m
  {
    AtStep(fire, frames, j + m);
    if m > 0 {
      StaysArmed(fire, frames, j, m - 1);
      Armed(fire, At(fire, frames, j + m), frames[j + m], m - 1);
    }
  }

  lemma {:induction false} LeavesBoard(fire: int, s: State, f: Frame)
    requires s.fsm.Threshold? && Idle(f)
    ensures Next(fire, s, f) == State(InAir, 0)
  {
  }

  lemma {:induction false} Floats(fire: int, c: nat, f: Frame)
    requires c <= 1 && !Landed(f)
    ensures Next(fire, State(InAir, c), f) == State(InAir, c + 1)
  {
  }

  lemma {:induction false} AirBorne(fire: int, frames: seq<Frame>, k: nat)
    requires k + 3 < |frames| && At(fire, frames, k).fsm.Threshold? && Idle(frames[k])
    requires !Landed(frames[k + 1]) && !Landed(frames[k + 2])
    ensures PulseStarts(fire, frames, k + 3)
  {
    AtStep(fire, frames, k);
    LeavesBoard(fire, At(fire, frames, k), frames[k]);
    AtStep(fire, frames, k + 1);
    Floats(fire, 0, frames[k + 1]);
    AtStep(fire, frames, k + 2);
    Floats(fire, 1, frames[k + 2]);
    ThirdFrameStarts(fire, frames, k + 2);
  }

  lemma {:induction false} ThirdFrameStarts(fire: int, frames: seq<Frame>, k: nat)
    requires k + 1 < |frames| && At(fire, frames, k) == State(InAir, 1) && At(fire, frames, k + 1) == State(InAir, 2)
    ensures PulseStarts(fire, frames, k + 1)
  {
  }

  /** Conversely any press that is heard, be it the first or a later one, then at most ten
      frames on the board, one frame with nobody on it and two more in the air, always start
      a pulse. */
  lemma {:induction false} JumpFires(fire: int, frames: seq<Frame>, j: nat, m: nat)
    requires 1 <= m <= 11 && j + m + 3 < |frames|
    requires Hears(fire, At(fire, frames, j), frames[j])
    requires forall i :: j < i < j + m ==> !Idle(frames[i])
    requires Idle(frames[j + m]) && !Landed(frames[j + m + 1]) && !Landed(frames[j + m + 2])
    ensures PulseStarts(fire, frames, j + m + 3)
  {
    StaysArmed(fire, frames, j, m - 1);
    AirBorne(fire, frames, j + m);
  }

  /** The same in numbers, for a board at rest: a press, at once off the board for three
      frames, and the next frame fires. */
  lemma {:induction false} JumpInNumbers(fire: int, frames: seq<Frame>)
    requires |frames| >= 5 && Pressure(frames[0]) >= fire
    requires OffBoard(frames[1], 1599) && OffBoard(frames[2], 1599) && OffBoard(frames[3], 1599)
    ensures !Out(fire, frames, 3) && Out(fire, frames, 4)
  {
    assert At(fire, frames, 0) == START;
    JumpFires(fire, frames, 0, 1);
  }

  /** A sensor that reads 1600 or more is somebody on the board: no pulse three frames later. */
  lemma {:induction false} StandingNeverFires(fire: int, frames: seq<Frame>, k: nat)
    requires 3 <= k < |frames| && !OffBoard(frames[k - 3], 1599)
    ensures !PulseStarts(fire, frames, k)
  {
    if PulseStarts(fire, frames, k) {
      PulseInNumbers(fire, frames, k);
    }
  }

  // ---------------------------------------------------------------- the code

  /** One smoothing step, before it is stored in an `int16_t`. */
  function Smooth(a: Sensor, b: Sensor, prev: int): int {
    var x: int, y: int := a, b;
    MultFrac(x + y - prev, 6, 100)
  }

  predicate SmoothOk(v: int) { -8400 <= v <= 8400 }

  /** The filtered values always fit the 16-bit fields they are stored in. */
  lemma {:induction false} SmoothFits(a: Sensor, b: Sensor, prev: int)
    requires SmoothOk(prev)
    ensures SmoothOk(Smooth(a, b, prev)) && Int16(Smooth(a, b, prev))
  {
    var x: int, y: int := a, b;
    MultFracExact(x + y - prev, 6, 100);
  }

  /** One smoothing step is six hundredths of the two sensors less the last value, cut toward
      zero. */
  lemma {:induction false} SmoothExact(a: Sensor, b: Sensor, prev: int)
    ensures var v, exact := Smooth(a, b, prev), 6 * ((a as int) + (b as int) - prev);
      && -100 < exact - 100 * v < 100
      && (exact >= 0 ==> v >= 0 && 100 * v <= exact)
      && (exact <= 0 ==> v <= 0 && 100 * v >= exact)
  {
    MultFracExact((a as int) + (b as int) - prev, 6, 100);
  }

  class Board {
    var fsm: Fsm
    var counter: nat
    var left: int
    var right: int
    var top: int
    var down: int

    ghost predicate Valid()
      reads this
    {
      SmoothOk(left) && SmoothOk(right) && SmoothOk(top) && SmoothOk(down)
    }

    function View(): State
      reads this
    {
      State(fsm, counter)
    }

    constructor ()
      ensures Valid() && View() == START
    {
      fsm, counter, left, right, top, down := Reset, 0, 0, 0, 0, 0;
    }

    method Move(bb: Frame, move: int) returns (up: bool, dn: bool, lf: bool, rt: bool)
      requires Valid()
      modifies this`left, this`right, this`top, this`down
      ensures Valid()
      ensures down == Smooth(bb.bl, bb.br, old(down)) && top == Smooth(bb.tl, bb.tr, old(top))
      ensures left == Smooth(bb.tl, bb.bl, old(left)) && right == Smooth(bb.tr, bb.br, old(right))
      ensures up == (top - down > move) && rt == (right - left > move)
      ensures move >= 0 ==> dn == (down - top > move) && lf == (left - right > move)
      ensures !(up && dn) && !(lf && rt)
    {
      SmoothFits(bb.bl, bb.br, down);
      SmoothFits(bb.tl, bb.tr, top);
      SmoothFits(bb.tl, bb.bl, left);
      SmoothFits(bb.tr, bb.br, right);
      down := Smooth(bb.bl, bb.br, down);
      top := Smooth(bb.tl, bb.tr, top);
      left := Smooth(bb.tl, bb.bl, left);
      right := Smooth(bb.tr, bb.br, right);
      up, dn, lf, rt := false, false, false, false;
      if top - down > move {
        up := true;
      } else if down - top > move {
        dn := true;
      }
      if right - left > move {
        rt := true;
      } else if left - right > move {
        lf := true;
      }
    }

    method DetectJump(bb: Frame, fire: int) returns (fired: bool)
      modifies this`fsm, this`counter
      ensures View() == Next(fire, old(View()), bb)
      ensures fired == Fires(old(View()))
    {
      var sum := Sum(bb);
      fired := false;
      counter := (counter + 1) % 256;
      match fsm {
        case Reset =>
          if sum >= fire {
            fsm, counter := Threshold, 0;
          }
        case Threshold =>
          if bb.tl < IDLE && bb.tr < IDLE && bb.bl < IDLE && bb.br < IDLE {
            fsm, counter := InAir, 0;
          } else if counter > 10 {
            fsm, counter := Reset, 0;
          } else if sum >= fire {
            counter := 0;
          }
        case InAir =>
          if counter > 2 {
            fired := true;
            fsm, counter := Fire, 0;
          } else if bb.tl >= IDLE || bb.tr >= IDLE || bb.bl > IDLE || bb.br >= IDLE {
            fsm, counter := Reset, 0;
          }
        case Fire =>
          fired := true;
          if counter > 10 {
            fsm, counter := Reset, 0;
          }
      }
    }
  }
}
