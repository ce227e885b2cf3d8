/** The mouse quadrature encoder (`uni_mouse_quadrature.c`): timer ticks walk a two-line Gray
    code, mouse reports set how many steps are left.  Updates and ticks are atomic steps of
    `Next`; a reader of the two lines is the standard decoder `Decode`. */
module Quadrature {

  datatype Dir = Neg | Pos
  datatype Lines = Lines(a: bool, b: bool)

  datatype Encoder = Encoder(value: int, dir: Dir, phase: int, lines: Lines)

  const INIT: Encoder := Encoder(0, Neg, 0, Lines(false, false))

  /** The levels the switch statement drives for each phase. */
  function Levels(phase: int): Lines {
    match phase
    case 0 => Lines(false, false)
    case 1 => Lines(true, false)
    case 2 => Lines(true, true)
    case 3 => Lines(false, true)
    case _ => Lines(false, false)
  }

  datatype Event = Tick | Update(delta: int)

  /** `process_quadrature`. */
  function Ticked(e: Encoder): Encoder {
    if e.value <= 0 then e
    else
      var phase := if e.dir.Neg? then (if e.phase - 1 < 0 then 3 else e.phase - 1)
                   else (if e.phase + 1 > 3 then 0 else e.phase + 1);
      Encoder(e.value - 1, e.dir, phase, Levels(phase))
  }

  /** `process_update`. */
  function Updated(e: Encoder, delta: int): Encoder {
    if delta == 0 then e
    else e.(value := if delta < 0 then -delta else delta, dir := if delta < 0 then Neg else Pos)
  }

  function Next(e: Encoder, ev: Event): Encoder {
    match ev case Tick => Ticked(e) case Update(delta) => Updated(e, delta)
  }

  // ---------------------------------------------------------------- the reader

  /** A standard A/B decoder: +1 or -1 on a legal edge of one line, 0 if neither changed. */
  function Decode(prev: Lines, now: Lines): int {
    if prev == now then 0
    else if prev.a != now.a then (if now.a != prev.b then 1 else -1)
    else if now.b == prev.a then 1 else -1
  }

  predicate OneLineChanged(p: Lines, q: Lines) { (p.a != q.a) != (p.b != q.b) }

  /** Signed steps still to be made. */
  function Pending(e: Encoder): int { if e.dir.Neg? then -e.value else e.value }

  ghost predicate Valid(e: Encoder) {
    0 <= e.value && 0 <= e.phase <= 3 && e.lines == Levels(e.phase)
  }

  /** A tick with steps left changes exactly one line, the decoder sees the step's sign, and
      the step leaves the pending count. */
  lemma TickIsOneStep(e: Encoder)
    requires Valid(e)
    ensures Valid(Ticked(e))
    ensures e.value > 0 ==> OneLineChanged(e.lines, Ticked(e).lines)
    ensures e.value == 0 ==> Ticked(e) == e
    ensures Decode(e.lines, Ticked(e).lines) + Pending(Ticked(e)) == Pending(e)
    ensures e.value > 0 ==> Decode(e.lines, Ticked(e).lines) == (if e.dir.Pos? then 1 else -1)
  {
  }

  /** A report moves no line; a nonzero one replaces what was pending. */
  lemma UpdateReplaces(e: Encoder, delta: int)
    requires Valid(e)
    ensures Valid(Updated(e, delta)) && Updated(e, delta).lines == e.lines && Updated(e, delta).phase == e.phase
    ensures Pending(Updated(e, delta)) == if delta == 0 then Pending(e) else delta
  {
  }

  // ---------------------------------------------------------------- whole runs

  function Run(e: Encoder, evs: seq<Event>): Encoder
    decreases |evs|
  {
    if evs == [] then e else Run(Next(e, evs[0]), evs[1..])
  }

  /** What the reader counted over a run. */
  function Counted(e: Encoder, evs: seq<Event>): int
    decreases |evs|
  {
    if evs == [] then 0 else Decode(e.lines, Next(e, evs[0]).lines) + Counted(Next(e, evs[0]), evs[1..])
  }

  /** Movement reported by the mouse. */
  function Reported(evs: seq<Event>): int {
    if evs == [] then 0 else (if evs[0].Update? then evs[0].delta else 0) + Reported(evs[1..])
  }

  /** Movement thrown away because a new report came before the old one was played out. */
  function Lost(e: Encoder, evs: seq<Event>): int
    decreases |evs|
  {
    if evs == [] then 0
    else (if evs[0].Update? && evs[0].delta != 0 then Pending(e) else 0) + Lost(Next(e, evs[0]), evs[1..])
  }

  /** For every interleaving of reports and ticks: the position the reader counted plus what
      is still pending is the reported movement, less exactly what was overwritten. */
  lemma {:induction false} PositionConserved(e: Encoder, evs: seq<Event>)
    requires Valid(e)
    ensures Valid(Run(e, evs))
    ensures Counted(e, evs) + Pending(Run(e, evs)) == Pending(e) + Reported(evs) - Lost(e, evs)
    decreases |evs|
  {
    if evs != [] {
      var ev := evs[0];
      if ev.Tick? {
        TickIsOneStep(e);
      } else {
        UpdateReplaces(e, ev.delta);
      }
      PositionConserved(Next(e, ev), evs[1..]);
    }
  }

  /** When each report is played out before the next, the reader ends where the mouse did. */
  lemma ReaderFollowsMouse(evs: seq<Event>)
    requires Lost(INIT, evs) == 0 && Run(INIT, evs).value == 0
    ensures Counted(INIT, evs) == Reported(evs)
  {
    PositionConserved(INIT, evs);
  }

  /** `n` ticks play out `n` pending steps, no more and no fewer. */
  lemma {:induction false} TicksPlayOut(e: Encoder, ticks: seq<Event>)
    requires Valid(e) && (forall i :: 0 <= i < |ticks| ==> ticks[i].Tick?)
    ensures Run(e, ticks).value == if |ticks| <= e.value then e.value - |ticks| else 0
    ensures Run(e, ticks).dir == e.dir
    decreases |ticks|
  {
    if ticks != [] {
      assert ticks[0].Tick?;
      TickIsOneStep(e);
      TicksPlayOut(Ticked(e), ticks[1..]);
    }
  }

  // ---------------------------------------------------------------- the code

  class QuadratureState {
    var value: int
    var dir: Dir
    var phase: int
    var gpioA: bool
    var gpioB: bool

    function View(): Encoder
      reads this
    {
      Encoder(value, dir, phase, Lines(gpioA, gpioB))
    }

    constructor ()
      ensures View() == INIT
    {
      value, dir, phase, gpioA, gpioB := 0, Neg, 0, false, false;
    }

    method ProcessQuadrature()
      modifies this
      ensures View() == Ticked(old(View()))
    {
      if value <= 0 {
        return;
      }
      value := value - 1;
      if dir == Neg {
        phase := phase - 1;
        if phase < 0 {
          phase := 3;
        }
      } else {
        phase := phase + 1;
        if phase > 3 {
          phase := 0;
        }
      }
      match phase {
        case 0 => gpioA, gpioB := false, false;
        case 1 => gpioA, gpioB := true, false;
        case 2 => gpioA, gpioB := true, true;
        case 3 => gpioA, gpioB := false, true;
        case _ => gpioA, gpioB := false, false;
      }
    }

    method ProcessUpdate(delta: int)
      modifies this`value, this`dir
      ensures View() == Updated(old(View()), delta)
    {
      var absDelta := if delta < 0 then -delta else delta;
      if delta != 0 {
        value := absDelta;
        dir := if delta < 0 then Neg else Pos;
      }
    }
  }

  datatype Port = Port(h: QuadratureState, v: QuadratureState)

  const PORT_MAX: nat := 2   // UNI_MOUSE_QUADRATURE_PORT_MAX

  predicate IsPort(i: int) { 0 <= i < PORT_MAX }

  /** Both encoders of the port; the vertical one gets the inverted movement.  Before
      initialisation, and for a port that does not exist, nothing happens. */
  method UpdatePort(initialized: bool, ports: seq<Port>, portIdx: int, dx: int, dy: int)
    requires |ports| == PORT_MAX && (IsPort(portIdx) ==> ports[portIdx].h != ports[portIdx].v)
    modifies if IsPort(portIdx) then {ports[portIdx].h, ports[portIdx].v} else {}
    ensures initialized && IsPort(portIdx) ==>
              && ports[portIdx].h.View() == Updated(old(ports[portIdx].h.View()), dx)
              && ports[portIdx].v.View() == Updated(old(ports[portIdx].v.View()), -dy)
    ensures !initialized && IsPort(portIdx) ==>
              && ports[portIdx].h.View() == old(ports[portIdx].h.View())
              && ports[portIdx].v.View() == old(ports[portIdx].v.View())
  {
    if !initialized {
      return;
    }
    if portIdx < 0 || portIdx >= PORT_MAX {
      return;
    }
    ports[portIdx].h.ProcessUpdate(dx);
    ports[portIdx].v.ProcessUpdate(-dy);
  }
}
