/** Rumble with two one-shot timers, as the DS5, DS3, DS4 and Switch parsers implement it.
    The four copies differ only in the guard before stopping and in the assertion inside
    the stop, which `Driver` records. */
module Rumble {

  datatype Driver = Ds5 | Ds3 | Ds4 | Switch

  datatype Phase = Disabled | Delayed | InProgress

  datatype State = State(
    phase: Phase,
    delayArmed: bool,        // rumble_timer_delayed_start is in the run loop
    durationArmed: bool,     // rumble_timer_duration is in the run loop
    weak: nat, strong: nat, duration: nat,   // kept for the delayed start
    motorWeak: nat, motorStrong: nat,        // last motor command sent
    aborted: bool)           // the assertion in stop_rumble_now failed

  const INIT: State := State(Disabled, false, false, 0, 0, 0, 0, 0, false)

  datatype Event =
    | Play(delay: nat, duration: nat, weak: nat, strong: nat)
    | DelayFires
    | DurationFires

  /** `if (duration_ms == 0) { if (GUARD) stop(); return; }` */
  predicate MayStop(d: Driver, phase: Phase) {
    if d.Ds3? then phase.InProgress? else !phase.Disabled?
  }

  /** `assert(...)` at the head of stop_rumble_now. */
  predicate StopAsserts(d: Driver, phase: Phase) {
    if d.Ds5? then !phase.Disabled? else phase.InProgress?
  }

  function Stop(d: Driver, s: State): State {
    if !StopAsserts(d, s.phase) then s.(aborted := true)
    else s.(phase := Disabled, motorWeak := 0, motorStrong := 0)
  }

  function PlayNow(d: Driver, s: State, duration: nat, weak: nat, strong: nat): State {
    if duration == 0 then
      if MayStop(d, s.phase) then Stop(d, s) else s
    else
      s.(phase := InProgress, durationArmed := true, motorWeak := weak, motorStrong := strong)
  }

  /** A timer that fires is no longer armed. */
  predicate Enabled(s: State, e: Event) {
    !s.aborted && match e case Play(_, _, _, _) => true case DelayFires => s.delayArmed case DurationFires => s.durationArmed
  }

  function Next(d: Driver, s: State, e: Event): State
    requires Enabled(s, e)
  {
    match e
    case Play(delay, duration, weak, strong) =>
      var t := match s.phase
        case Delayed => s.(delayArmed := false)
        case InProgress => s.(durationArmed := false)
        case Disabled => s;
      if delay == 0 then PlayNow(d, t, duration, weak, strong)
      else t.(phase := Delayed, duration := duration, weak := weak, strong := strong, delayArmed := true)
    case DelayFires => PlayNow(d, s.(delayArmed := false), s.duration, s.weak, s.strong)
    case DurationFires => Stop(d, s.(durationArmed := false))
  }

  ghost predicate Run(d: Driver, s: State, events: seq<Event>)
    decreases |events|
  {
    events == [] || (Enabled(s, events[0]) && Run(d, Next(d, s, events[0]), events[1..]))
  }

  ghost function After(d: Driver, s: State, events: seq<Event>): State
    requires Run(d, s, events)
    decreases |events|
  {
    if events == [] then s else After(d, Next(d, s, events[0]), events[1..])
  }

  // ---------------------------------------------------------------- timers and phases

  /** Each timer is armed exactly in its phase, and at rest the motors are off. */
  ghost predicate Tight(s: State) {
    && (s.delayArmed <==> s.phase.Delayed?)
    && (s.durationArmed <==> s.phase.InProgress?)
    && (s.phase.Disabled? ==> s.motorWeak == s.motorStrong == 0)
    && !s.aborted
  }

  lemma {:induction false} Ds5Run(s: State, events: seq<Event>)
    requires Tight(s) && Run(Ds5, s, events)
    ensures Tight(After(Ds5, s, events))
    decreases |events|
  {
    if events != [] {
      Ds5Run(Next(Ds5, s, events[0]), events[1..]);
    }
  }

  /** For every sequence of requests and timer firings on a DualSense: each timer is armed
      exactly in its phase, the assertion holds, and DISABLED means the motors were told 0. */
  lemma Ds5Correct(events: seq<Event>)
    requires Run(Ds5, INIT, events)
    ensures Tight(After(Ds5, INIT, events))
  {
    Ds5Run(INIT, events);
  }

  /** The most timer firings before a state is back to DISABLED. */
  function Firings(s: State): nat {
    match s.phase case Disabled => 0 case InProgress => 1 case Delayed => 2
  }

  /** With no new request at most two timers fire, and when none is left the motors are off. */
  lemma {:induction false} Ds5Settles(s: State, events: seq<Event>)
    requires Tight(s) && Run(Ds5, s, events) && forall i :: 0 <= i < |events| ==> !events[i].Play?
    ensures |events| <= Firings(s) <= 2
    ensures var t := After(Ds5, s, events);
      !t.delayArmed && !t.durationArmed ==> t.phase.Disabled? && t.motorWeak == t.motorStrong == 0
    decreases |events|
  {
    if events != [] {
      var t := Next(Ds5, s, events[0]);
      assert !events[0].Play?;
      assert Tight(t) && Firings(t) < Firings(s);
      Ds5Settles(t, events[1..]);
    }
  }

  /** What is left for a DS3: an armed timer implies its phase. */
  ghost predicate Loose(s: State) {
    && (s.delayArmed ==> s.phase.Delayed?)
    && (s.durationArmed <==> s.phase.InProgress?)
    && (s.phase.Disabled? ==> s.motorWeak == s.motorStrong == 0)
    && !s.aborted
  }

  lemma {:induction false} Ds3Run(s: State, events: seq<Event>)
    requires Loose(s) && Run(Ds3, s, events)
    ensures Loose(After(Ds3, s, events))
    decreases |events|
  {
    if events != [] {
      Ds3Run(Next(Ds3, s, events[0]), events[1..]);
    }
  }

  /** A DS3 never fails its assertion, but a zero-duration request can leave it DELAYED with
      no timer; `Ds3StuckExact` and `Ds3RestExact` say when. */
  lemma Ds3Correct(events: seq<Event>)
    requires Run(Ds3, INIT, events)
    ensures Loose(After(Ds3, INIT, events))
  {
    Ds3Run(INIT, events);
  }

  // ---------------------------------------------------------------- the delayed zero request

  /** The duration of the delayed request still to start, from the requests alone. */
  function Pending(p: int, e: Event): int
    requires p >= -1
    ensures Pending(p, e) >= -1
  {
    match e
    case Play(delay, duration, _, _) => if delay > 0 then duration else -1
    case DelayFires => -1
    case DurationFires => p
  }

  /** A request to stop arrives while a start is pending, or a pending start turns out to
      have no duration. */
  predicate ZeroWhileDelayed(p: int, e: Event) {
    (p >= 0 && e.Play? && e.delay == 0 && e.duration == 0) || (p == 0 && e.DelayFires?)
  }

  ghost predicate AlwaysSafe(p: int, events: seq<Event>)
    requires p >= -1
    decreases |events|
  {
    events == [] || (!ZeroWhileDelayed(p, events[0]) && AlwaysSafe(Pending(p, events[0]), events[1..]))
  }

  ghost predicate Tracks(s: State, p: int) {
    p == if s.phase.Delayed? then s.duration else -1
  }

  lemma {:induction false} AbortExactFrom(d: Driver, s: State, p: int, events: seq<Event>)
    requires d.Ds4? || d.Switch?
    requires p >= -1 && Tight(s) && Tracks(s, p) && Run(d, s, events)
    ensures After(d, s, events).aborted <==> !AlwaysSafe(p, events)
    ensures AlwaysSafe(p, events) ==> Tight(After(d, s, events))
    decreases |events|
  {
    if events != [] {
      var t := Next(d, s, events[0]);
      if ZeroWhileDelayed(p, events[0]) {
        assert t.aborted;
        assert events[1..] == [];
      } else {
        assert Tight(t) && Tracks(t, Pending(p, events[0]));
        AbortExactFrom(d, t, Pending(p, events[0]), events[1..]);
      }
    }
  }

  /** DS4 and Switch guard the stop with `!= DISABLED` but assert `== IN_PROGRESS`: a run
      fails the assertion exactly when a zero-duration request meets a pending delayed
      start.  Every other run keeps the DualSense guarantees. */
  lemma AbortExact(d: Driver, events: seq<Event>)
    requires (d.Ds4? || d.Switch?) && Run(d, INIT, events)
    ensures After(d, INIT, events).aborted <==> !AlwaysSafe(-1, events)
    ensures AlwaysSafe(-1, events) ==> Tight(After(d, INIT, events))
  {
    AbortExactFrom(d, INIT, -1, events);
  }

  /** The two-event run that aborts. */
  lemma DelayedThenZeroAborts(d: Driver)
    requires d.Ds4? || d.Switch?
    ensures var events := [Play(10, 5, 1, 1), Play(0, 0, 0, 0)];
      Run(d, INIT, events) && After(d, INIT, events).aborted
  {
    var events := [Play(10, 5, 1, 1), Play(0, 0, 0, 0)];
    var s1, rest := Next(d, INIT, events[0]), events[1..];
    assert rest[0] == Play(0, 0, 0, 0) && rest[1..] == [];
    var s2 := Next(d, s1, rest[0]);
    assert s2.aborted && Run(d, s2, []) && After(d, s2, []) == s2;
  }

  // ---------------------------------------------------------------- what the motors are told

  /** The magnitudes of the weak and the strong motor. */
  datatype Force = Force(weak: nat, strong: nat)

  const NONE: Force := Force(0, 0)

  /** What the requests and firings so far say about any driver, without looking at it: at
      rest, rumbling, waiting for a delayed start, dead - waiting for a start whose timer is
      gone - or stopped by its assertion.  `now` is what the motors were last told. */
  datatype Story =
    | Quiet
    | Rumbling(now: Force)
    | Waiting(duration: nat, later: Force, now: Force)
    | Dead(now: Force)
    | Failed(now: Force)

  function Now(story: Story): Force { if story.Quiet? then NONE else story.now }

  function StartNow(d: Driver, duration: nat, force: Force, story: Story): Story {
    if duration > 0 then Rumbling(force)
    else if story.Waiting? || story.Dead? then
      match d
      case Ds5 => Quiet
      case Ds3 => Dead(story.now)
      case Ds4 => Failed(story.now)
      case Switch => Failed(story.now)
    else Quiet
  }

  function Continue(d: Driver, story: Story, e: Event): Story {
    match e
    case Play(delay, duration, weak, strong) =>
      if delay > 0 then Waiting(duration, Force(weak, strong), Now(story))
      else StartNow(d, duration, Force(weak, strong), story)
    case DelayFires => if story.Waiting? then StartNow(d, story.duration, story.later, story) else story
    case DurationFires => Quiet
  }

  function Tell(d: Driver, story: Story, events: seq<Event>): Story
    decreases |events|
  {
    if events == [] then story else Tell(d, Continue(d, story, events[0]), events[1..])
  }

  ghost predicate Matches(s: State, story: Story) {
    && (s.aborted <==> story.Failed?)
    && (s.phase.InProgress? <==> story.Rumbling?)
    && (s.phase.Disabled? <==> story.Quiet?)
    && (s.durationArmed <==> story.Rumbling?)
    && (s.delayArmed <==> story.Waiting?)
    && (story.Waiting? ==> s.duration == story.duration && Force(s.weak, s.strong) == story.later)
    && Force(s.motorWeak, s.motorStrong) == Now(story)
  }

  lemma {:induction false} StepMatches(d: Driver, s: State, story: Story, e: Event)
    requires Matches(s, story) && Enabled(s, e)
    ensures Matches(Next(d, s, e), Continue(d, story, e))
  {
  }

  lemma {:induction false} RunMatches(d: Driver, s: State, story: Story, events: seq<Event>)
    requires Matches(s, story) && Run(d, s, events)
    ensures Matches(After(d, s, events), Tell(d, story, events))
    decreases |events|
  {
    if events != [] {
      StepMatches(d, s, story, events[0]);
      RunMatches(d, Next(d, s, events[0]), Continue(d, story, events[0]), events[1..]);
    }
  }

  /** For every driver and every run: while it rumbles, the weak and the strong motor hold the
      magnitudes of the request that started last, at once or after its delay; at rest they
      hold none; while a start is pending they hold what they held before. */
  lemma {:induction false} MotorsExact(d: Driver, events: seq<Event>)
    requires Run(d, INIT, events)
    ensures var s, story := After(d, INIT, events), Tell(d, Quiet, events);
      && (s.motorWeak, s.motorStrong) == (Now(story).weak, Now(story).strong)
      && (s.phase.InProgress? <==> story.Rumbling?)
      && (s.phase.Disabled? <==> story.Quiet?)
  {
    RunMatches(d, INIT, Quiet, events);
  }

  /** Told in the source's terms: a request without delay is heard at once, one with a delay
      when its timer fires. */
  lemma {:induction false} RequestHeard(d: Driver, events: seq<Event>, delay: nat, duration: nat, weak: nat, strong: nat)
    requires Run(d, INIT, events) && !After(d, INIT, events).aborted && duration > 0
    ensures var s := Next(d, After(d, INIT, events), Play(delay, duration, weak, strong));
      var t := if delay > 0 then Next(d, s, DelayFires) else s;
      t.phase.InProgress? && t.motorWeak == weak && t.motorStrong == strong
  {
  }

  // ---------------------------------------------------------------- a DS3 that never stops

  /** For every run of a DS3: it ends stuck, DELAYED with no timer, exactly when its story
      ends dead, and every other run keeps the DualSense guarantees. */
  lemma {:induction false} Ds3StuckExact(events: seq<Event>)
    requires Run(Ds3, INIT, events)
    ensures Tight(After(Ds3, INIT, events)) <==> !Tell(Ds3, Quiet, events).Dead?
  {
    RunMatches(Ds3, INIT, Quiet, events);
    Ds3Run(INIT, events);
  }

  /** With no timer armed the motors are off, unless the story ends dead with the motors on:
      a delayed start had interrupted a rumble and was then cancelled by a zero duration. */
  lemma {:induction false} Ds3RestExact(events: seq<Event>)
    requires Run(Ds3, INIT, events)
    ensures var s, story := After(Ds3, INIT, events), Tell(Ds3, Quiet, events);
      !s.delayArmed && !s.durationArmed ==>
        (s.motorWeak == s.motorStrong == 0 <==> !(story.Dead? && story.now != NONE))
  {
    RunMatches(Ds3, INIT, Quiet, events);
    Ds3Run(INIT, events);
  }

  /** Such a DS3 stays as it is until the next request: nothing else can happen. */
  lemma {:induction false} Ds3DeadWaitsForRequest(events: seq<Event>, e: Event)
    requires Run(Ds3, INIT, events) && Tell(Ds3, Quiet, events).Dead? && Enabled(After(Ds3, INIT, events), e)
    ensures e.Play?
  {
    RunMatches(Ds3, INIT, Quiet, events);
  }

  /** The three requests that leave the motors running with no timer armed. */
  lemma Ds3RunsForEver()
    ensures var events := [Play(0, 100, 10, 200), Play(10, 5, 9, 9), Play(0, 0, 0, 0)];
      && Run(Ds3, INIT, events)
      && var s := After(Ds3, INIT, events);
         !s.delayArmed && !s.durationArmed && s.motorWeak == 10 && s.motorStrong == 200
  {
    var a, b, c := Play(0, 100, 10, 200), Play(10, 5, 9, 9), Play(0, 0, 0, 0);
    var s1 := Next(Ds3, INIT, a);
    var s2 := Next(Ds3, s1, b);
    var s3 := Next(Ds3, s2, c);
    assert [a, b, c][1..] == [b, c] && [b, c][1..] == [c] && [c][1..] == [];
    assert Run(Ds3, s3, []) && After(Ds3, s3, []) == s3;
    assert Run(Ds3, s2, [c]) && After(Ds3, s2, [c]) == s3;
    assert Run(Ds3, s1, [b, c]) && After(Ds3, s1, [b, c]) == s3;
  }

  // ---------------------------------------------------------------- the handlers

  class RumbleDriver {
    const driver: Driver
    var phase: Phase
    var delayArmed: bool
    var durationArmed: bool
    var weak: nat
    var strong: nat
    var duration: nat
    var motorWeak: nat
    var motorStrong: nat
    var aborted: bool

    function View(): State
      reads this
    {
      State(phase, delayArmed, durationArmed, weak, strong, duration, motorWeak, motorStrong, aborted)
    }

    constructor (d: Driver)
      ensures driver == d && View() == INIT
    {
      driver := d;
      phase, delayArmed, durationArmed, aborted := Disabled, false, false, false;
      weak, strong, duration, motorWeak, motorStrong := 0, 0, 0, 0, 0;
    }

    method StopRumbleNow()
      modifies this
      ensures View() == Stop(driver, old(View()))
    {
      if !StopAsserts(driver, phase) {
        aborted := true;
        return;
      }
      phase := Disabled;
      motorWeak, motorStrong := 0, 0;
    }

    method PlayDualRumbleNow(durationMs: nat, weakMagnitude: nat, strongMagnitude: nat)
      modifies this
      ensures View() == PlayNow(driver, old(View()), durationMs, weakMagnitude, strongMagnitude)
    {
      if durationMs == 0 {
        if MayStop(driver, phase) {
          StopRumbleNow();
        }
        return;
      }
      motorWeak, motorStrong := weakMagnitude, strongMagnitude;
      phase := InProgress;
      durationArmed := true;
    }

    method PlayDualRumble(startDelayMs: nat, durationMs: nat, weakMagnitude: nat, strongMagnitude: nat)
      requires !aborted
      modifies this
      ensures View() == Next(driver, old(View()), Play(startDelayMs, durationMs, weakMagnitude, strongMagnitude))
    {
      match phase {
        case Delayed => delayArmed := false;
        case InProgress => durationArmed := false;
        case Disabled =>
      }
      if startDelayMs == 0 {
        PlayDualRumbleNow(durationMs, weakMagnitude, strongMagnitude);
      } else {
        phase := Delayed;
        duration, strong, weak := durationMs, strongMagnitude, weakMagnitude;
        delayArmed := true;
      }
    }

    method OnSetRumbleOn()
      requires !aborted && delayArmed
      modifies this
      ensures View() == Next(driver, old(View()), DelayFires)
    {
      delayArmed := false;
      PlayDualRumbleNow(duration, weak, strong);
    }

    method OnSetRumbleOff()
      requires !aborted && durationArmed
      modifies this
      ensures View() == Next(driver, old(View()), DurationFires)
    {
      durationArmed := false;
      StopRumbleNow();
    }
  }
}
