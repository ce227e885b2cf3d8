/** The Switch parser's setup sequence (`uni_hid_parser_switch.c`): one request per state,
    each reply or the one setup timeout moves on, and stick calibration is picked up on
    the way.  Flash dumping is compiled out (`ENABLE_SPI_FLASH_DUMP 0`). */
module SwitchSetup {
  import opened Common
  import opened Axes

  datatype Fsm = Uninit | Setup | ReqDevInfo | ReadFactoryStick | ReadUserStick | ReadFactoryImu
               | SetFullReport | EnableImu | DumpFlash | UpdateLed | Ready

  /** The numeric value of the enum. */
  function Order(s: Fsm): nat {
    match s
    case Uninit => 0 case Setup => 1 case ReqDevInfo => 2 case ReadFactoryStick => 3
    case ReadUserStick => 4 case ReadFactoryImu => 5 case SetFullReport => 6 case EnableImu => 7
    case DumpFlash => 8 case UpdateLed => 9 case Ready => 10
  }

  datatype Mode = ModeNone | Normal | Imu

  const TYPE_JCL: nat := 1
  const TYPE_PRO: nat := 3

  datatype Sw = Sw(
    state: Fsm,
    timerArmed: bool,        // setup_timer is in the run loop
    connReady: bool,         // connection state is DEVICE_READY
    asked: nat,              // times the platform was asked to accept the device
    mode: Mode, controllerType: nat,
    x: Cal, y: Cal, rx: Cal, ry: Cal)

  const DEFAULT_CAL: Cal := Cal(512, 2048, 3583)

  /** The receive buffer from the flash payload on. */
  type Payload = d: seq<Byte> | |d| == 22 witness seq(22, _ => 0)

  datatype Reply = DevInfo(aPressed: bool, controllerType: nat)
                 | Flash(longEnough: bool, memLen: nat, data: Payload)
                 | Other

  datatype Event = Replied(r: Reply) | Timeout

  // ---------------------------------------------------------------- the state machine

  /** Nested calls of `process_fsm` still to come. */
  function Rank(s: Fsm): nat {
    match s case EnableImu => 1 case UpdateLed => 1 case _ => 0
  }

  /** `uni_hid_device_set_ready_complete`: a declined device is deleted, which zeroes it. */
  function SetReadyComplete(s: Sw, accepts: bool): Sw {
    if s.connReady then s
    else if accepts then s.(asked := s.asked + 1, connReady := true)
    else Sw(Uninit, false, false, s.asked + 1, ModeNone, 0, Cal(0, 0, 0), Cal(0, 0, 0), Cal(0, 0, 0), Cal(0, 0, 0))
  }

  /** `process_fsm`. */
  function Advance(s: Sw, accepts: bool): Sw
    decreases Rank(s.state)
  {
    match s.state
    case Setup => s.(timerArmed := true, state := ReqDevInfo)
    case ReqDevInfo => s.(state := ReadFactoryStick)
    case ReadFactoryStick => s.(state := ReadUserStick)
    case ReadUserStick => s.(state := ReadFactoryImu)
    case ReadFactoryImu => s.(state := SetFullReport)
    case SetFullReport => s.(state := EnableImu)
    case EnableImu => Advance(s.(state := DumpFlash, timerArmed := false), accepts)
    case DumpFlash => s.(state := UpdateLed)
    case UpdateLed => Finish(SetReadyComplete(s.(state := Ready), accepts))
    case Ready => s.(timerArmed := false)
    case Uninit => s
  }

  /** The last nested call of `fsm_ready`. */
  function Finish(s: Sw): Sw {
    if s.state.Ready? then s.(timerArmed := false) else s
  }

  function Start(accepts: bool): Sw {
    Advance(Sw(Setup, false, false, 0, ModeNone, TYPE_PRO, DEFAULT_CAL, DEFAULT_CAL, DEFAULT_CAL, DEFAULT_CAL), accepts)
  }

  function LeftFrom(s: Sw, d: seq<Byte>): Sw
    requires |d| >= 9
  {
    s.(x := ParseStick(d, true).0, y := ParseStick(d, true).1)
  }

  function RightFrom(s: Sw, d: seq<Byte>): Sw
    requires |d| >= 9
  {
    s.(rx := ParseStick(d, false).0, ry := ParseStick(d, false).1)
  }

  function FactoryStick(s: Sw, memLen: nat, d: Payload): Sw {
    if s.controllerType == TYPE_PRO then
      if memLen < 18 then s else RightFrom(LeftFrom(s, d), d[9..])
    else if memLen < 9 then s
    else if s.controllerType == TYPE_JCL then LeftFrom(s, d)
    else RightFrom(s, d)
  }

  predicate Magic(d: Payload, at: nat)
    requires at + 1 < 22
  {
    d[at] == 0xB2 && d[at + 1] == 0xA1
  }

  function UserStick(s: Sw, memLen: nat, d: Payload): Sw {
    if s.controllerType == TYPE_PRO then
      if memLen < 18 then s
      else
        var t := if Magic(d, 0) then LeftFrom(s, d[2..]) else s;
        if Magic(d, 11) then RightFrom(t, d[13..]) else t
    else if memLen < 9 || !Magic(d, 0) then s
    else if s.controllerType == TYPE_JCL then LeftFrom(s, d[2..])
    else RightFrom(s, d[2..])
  }

  /** What a reply does before the state machine moves on. */
  function TakeReply(s: Sw, r: Reply): Sw {
    match r
    case DevInfo(aPressed, controllerType) =>
      var m := if Order(s.state) > Order(Setup) && s.mode.ModeNone?
               then (if aPressed then Imu else Normal) else s.mode;
      s.(mode := m, controllerType := controllerType)
    case Flash(longEnough, memLen, d) =>
      if !longEnough then s
      else if s.state.ReadFactoryStick? then FactoryStick(s, memLen, d)
      else if s.state.ReadUserStick? then UserStick(s, memLen, d)
      else s
    case Other => s
  }

  predicate Enabled(s: Sw, e: Event) { e.Timeout? ==> s.timerArmed }

  function Next(s: Sw, e: Event, accepts: bool): Sw
    requires Enabled(s, e)
  {
    match e
    case Replied(r) => Advance(TakeReply(s, r), accepts)
    case Timeout => Advance(s.(timerArmed := false), accepts)
  }

  ghost predicate Run(s: Sw, events: seq<Event>, accepts: bool)
    decreases |events|
  {
    events == [] || (Enabled(s, events[0]) && Run(Next(s, events[0], accepts), events[1..], accepts))
  }

  ghost function After(s: Sw, events: seq<Event>, accepts: bool): Sw
    requires Run(s, events, accepts)
    decreases |events|
  {
    if events == [] then s else After(Next(s, events[0], accepts), events[1..], accepts)
  }

  // ---------------------------------------------------------------- seven events to ready

  /** The state after `n` events, whatever they were. */
  function Expected(n: nat): Fsm {
    match n
    case 0 => ReqDevInfo case 1 => ReadFactoryStick case 2 => ReadUserStick case 3 => ReadFactoryImu
    case 4 => SetFullReport case 5 => EnableImu case 6 => UpdateLed case _ => Ready
  }

  ghost predicate CalOk(s: Sw) {
    Ordered(s.x) && Ordered(s.y) && Ordered(s.rx) && Ordered(s.ry)
  }

  /** The state, the timer and the platform's answer after `n` events. */
  ghost predicate Progress(s: Sw, n: nat, accepts: bool) {
    if n < 7 || accepts then
      && s.state == Expected(n)
      && (s.timerArmed ==> n < 6)
      && s.connReady == (n >= 7)
      && s.asked == (if n >= 7 then 1 else 0)
      && CalOk(s)
    else s.state == Uninit && !s.timerArmed && !s.connReady && s.asked == 1
  }

  lemma {:induction false} ReplyKeeps(s: Sw, r: Reply)
    ensures var t := TakeReply(s, r);
      t.state == s.state && t.timerArmed == s.timerArmed && t.connReady == s.connReady && t.asked == s.asked
    ensures CalOk(s) ==> CalOk(TakeReply(s, r))
  {
    if r.Flash? {
      var d := r.data;
      ParsedIsOrdered(d, true);
      ParsedIsOrdered(d, false);
      ParsedIsOrdered(d[2..], true);
      ParsedIsOrdered(d[2..], false);
      ParsedIsOrdered(d[9..], false);
      ParsedIsOrdered(d[13..], false);
    }
  }

  lemma {:induction false} AdvanceMovesOn(s: Sw, n: nat, accepts: bool)
    requires Progress(s, n, accepts)
    ensures Progress(Advance(s, accepts), n + 1, accepts)
  {
    if n == 5 {
      var t := s.(state := DumpFlash, timerArmed := false);
      assert Advance(s, accepts) == Advance(t, accepts) == t.(state := UpdateLed);
    } else if n < 5 {
      assert Expected(n + 1) == Advance(s, accepts).state;
    }
  }

  lemma {:induction false} EventMovesOn(s: Sw, e: Event, n: nat, accepts: bool)
    requires Progress(s, n, accepts) && Enabled(s, e)
    ensures Progress(Next(s, e, accepts), n + 1, accepts)
  {
    var t := if e.Replied? then TakeReply(s, e.r) else s.(timerArmed := false);
    if e.Replied? {
      ReplyKeeps(s, e.r);
    }
    assert Progress(t, n, accepts);
    AdvanceMovesOn(t, n, accepts);
  }

  lemma {:induction false} RunProgress(s: Sw, events: seq<Event>, n: nat, accepts: bool)
    requires Progress(s, n, accepts) && Run(s, events, accepts)
    ensures Progress(After(s, events, accepts), n + |events|, accepts)
    decreases |events|
  {
    if events != [] {
      EventMovesOn(s, events[0], n, accepts);
      RunProgress(Next(s, events[0], accepts), events[1..], n + 1, accepts);
    }
  }

  /** Replies of any content and timeouts in any order: READY is reached at exactly the
      seventh event, the platform is asked exactly once, and every stick calibration in
      use is ordered. */
  lemma {:induction false} SetupCorrect(events: seq<Event>, accepts: bool)
    requires Run(Start(accepts), events, accepts)
    ensures var s, n := After(Start(accepts), events, accepts), |events|;
      && (accepts ==> (s.state.Ready? <==> n >= 7) && s.connReady == (n >= 7) && CalOk(s))
      && s.asked == (if n >= 7 then 1 else 0)
      && (!accepts && n >= 7 ==> s.state.Uninit? && !s.connReady)
  {
    RunProgress(Start(accepts), events, 0, accepts);
  }

  /** Refused at its seventh event a device is wiped, down to its calibration. */
  lemma {:induction false} RefusalWipes(events: seq<Event>, e: Event)
    requires Run(Start(false), events, false) && |events| == 6 && Enabled(After(Start(false), events, false), e)
    ensures Next(After(Start(false), events, false), e, false)
         == Sw(Uninit, false, false, 1, ModeNone, 0, Cal(0, 0, 0), Cal(0, 0, 0), Cal(0, 0, 0), Cal(0, 0, 0))
  {
    var s := After(Start(false), events, false);
    RunProgress(Start(false), events, 0, false);
    if e.Replied? {
      ReplyKeeps(s, e.r);
    }
  }

  /** The state never decreases as long as the platform accepts. */
  lemma {:induction false} StateNeverDecreases(earlier: seq<Event>, later: seq<Event>)
    requires Run(Start(true), earlier, true) && Run(After(Start(true), earlier, true), later, true)
    ensures Order(After(Start(true), earlier, true).state)
         <= Order(After(After(Start(true), earlier, true), later, true).state)
  {
    RunProgress(Start(true), earlier, 0, true);
    RunProgress(After(Start(true), earlier, true), later, |earlier|, true);
  }

  ghost function Timeouts(events: seq<Event>): nat {
    if events == [] then 0 else (if events[0].Timeout? then 1 else 0) + Timeouts(events[1..])
  }

  lemma {:induction false} TimerStep(s: Sw, e: Event, n: nat)
    requires Progress(s, n, true) && Enabled(s, e)
    ensures Next(s, e, true).timerArmed <==> s.timerArmed && e.Replied? && n < 5
  {
    if e.Replied? {
      ReplyKeeps(s, e.r);
    }
    var t := if e.Replied? then TakeReply(s, e.r) else s.(timerArmed := false);
    if n == 5 {
      var u := t.(state := DumpFlash, timerArmed := false);
      assert Advance(t, true) == Advance(u, true) == u.(state := UpdateLed);
    }
  }

  lemma {:induction false} TimerRun(s: Sw, events: seq<Event>, n: nat)
    requires Progress(s, n, true) && Run(s, events, true)
    ensures After(s, events, true).timerArmed <==> s.timerArmed && Timeouts(events) == 0 && (events == [] || n + |events| < 6)
    decreases |events|
  {
    if events != [] {
      TimerStep(s, events[0], n);
      EventMovesOn(s, events[0], n, true);
      TimerRun(Next(s, events[0], true), events[1..], n + 1);
    }
  }

  /** The setup timer runs from the start until it fires or six events have come. */
  lemma {:induction false} TimerExact(events: seq<Event>)
    requires Run(Start(true), events, true)
    ensures After(Start(true), events, true).timerArmed <==> Timeouts(events) == 0 && |events| < 6
  {
    TimerRun(Start(true), events, 0);
  }

  lemma {:induction false} TimeoutBound(s: Sw, events: seq<Event>, accepts: bool)
    requires !s.state.Setup? && Run(s, events, accepts)
    ensures Timeouts(events) <= (if s.timerArmed then 1 else 0)
    decreases |events|
  {
    if events != [] {
      var e := events[0];
      if e.Replied? {
        ReplyKeeps(s, e.r);
      }
      var t := Next(s, e, accepts);
      TimerOnlyStops(if e.Replied? then TakeReply(s, e.r) else s.(timerArmed := false), accepts);
      TimeoutBound(t, events[1..], accepts);
    }
  }

  lemma TimerOnlyStops(s: Sw, accepts: bool)
    requires !s.state.Setup?
    ensures !Advance(s, accepts).state.Setup?
    ensures Advance(s, accepts).timerArmed ==> s.timerArmed
  {
  }

  /** The setup timer is never set again: at most one of the events is a timeout. */
  lemma {:induction false} AtMostOneTimeout(events: seq<Event>, accepts: bool)
    requires Run(Start(accepts), events, accepts)
    ensures Timeouts(events) <= 1
  {
    TimeoutBound(Start(accepts), events, accepts);
  }

  // ---------------------------------------------------------------- division by zero

  /** The flash bytes from which a reply sets the left stick, if it does. */
  function LeftSource(s: Sw, r: Reply): (d: Option<seq<Byte>>)
    ensures d.Some? ==> |d.value| >= 9
  {
    if !r.Flash? || !r.longEnough || (s.controllerType != 3 && s.controllerType != 1)
       || r.memLen < (if s.controllerType == 3 then 18 else 9) then None
    else if s.state.ReadFactoryStick? then Some(r.data)
    else if s.state.ReadUserStick? && r.data[0] == 0xB2 && r.data[1] == 0xA1 then Some(r.data[2..])
    else None
  }

  /** The same for the right stick, whose bytes follow the left one's on a Pro. */
  function RightSource(s: Sw, r: Reply): (d: Option<seq<Byte>>)
    ensures d.Some? ==> |d.value| >= 9
  {
    if !r.Flash? || !r.longEnough || s.controllerType == 1 then None
    else if s.controllerType == 3 then
      if r.memLen < 18 then None
      else if s.state.ReadFactoryStick? then Some(r.data[9..])
      else if s.state.ReadUserStick? && r.data[11] == 0xB2 && r.data[12] == 0xA1 then Some(r.data[13..])
      else None
    else if r.memLen < 9 then None
    else if s.state.ReadFactoryStick? then Some(r.data)
    else if s.state.ReadUserStick? && r.data[0] == 0xB2 && r.data[1] == 0xA1 then Some(r.data[2..])
    else None
  }

  lemma {:induction false} LeftExact(s: Sw, r: Reply)
    ensures var t, left := TakeReply(s, r), LeftSource(s, r);
      (t.x, t.y) == (if left.Some? then ParseStick(left.value, true) else (s.x, s.y))
  {
  }

  lemma {:induction false} RightExact(s: Sw, r: Reply)
    ensures var t, right := TakeReply(s, r), RightSource(s, r);
      (t.rx, t.ry) == (if right.Some? then ParseStick(right.value, false) else (s.rx, s.ry))
  {
  }

  lemma {:induction false} SourceExact(s: Sw, r: Reply)
    ensures var t, left, right := TakeReply(s, r), LeftSource(s, r), RightSource(s, r);
      && (t.x, t.y) == (if left.Some? then ParseStick(left.value, true) else (s.x, s.y))
      && (t.rx, t.ry) == (if right.Some? then ParseStick(right.value, false) else (s.rx, s.ry))
  {
    LeftExact(s, r);
    RightExact(s, r);
  }

  ghost predicate LeftTotal(s: Sw) { Total(s.x) && Total(s.y) }

  ghost predicate RightTotal(s: Sw) { Total(s.rx) && Total(s.ry) }

  /** Whether the stick is usable after one more event, from the bytes received alone. */
  function LeftGood(s: Sw, good: bool, e: Event): bool {
    if e.Replied? && LeftSource(s, e.r).Some? then GoodStick(LeftSource(s, e.r).value, true) else good
  }

  function RightGood(s: Sw, good: bool, e: Event): bool {
    if e.Replied? && RightSource(s, e.r).Some? then GoodStick(RightSource(s, e.r).value, false) else good
  }

  /** The verdicts of the last flash reply that set each stick. */
  ghost function Sticks(s: Sw, left: bool, right: bool, events: seq<Event>): (bool, bool)
    requires Run(s, events, true)
    decreases |events|
  {
    if events == [] then (left, right)
    else Sticks(Next(s, events[0], true), LeftGood(s, left, events[0]), RightGood(s, right, events[0]), events[1..])
  }

  lemma {:induction false} AdvanceKeepsCal(s: Sw)
    ensures var t := Advance(s, true); (t.x, t.y, t.rx, t.ry) == (s.x, s.y, s.rx, s.ry)
  {
    if s.state.EnableImu? {
      var t := s.(state := DumpFlash, timerArmed := false);
      assert Advance(s, true) == Advance(t, true);
    }
  }

  lemma {:induction false} EventTotal(s: Sw, left: bool, right: bool, e: Event)
    requires Enabled(s, e) && (LeftTotal(s) <==> left) && (RightTotal(s) <==> right)
    ensures LeftTotal(Next(s, e, true)) <==> LeftGood(s, left, e)
    ensures RightTotal(Next(s, e, true)) <==> RightGood(s, right, e)
  {
    if e.Replied? {
      SourceExact(s, e.r);
      AdvanceKeepsCal(TakeReply(s, e.r));
      if LeftSource(s, e.r).Some? {
        ParsedTotalIff(LeftSource(s, e.r).value, true);
      }
      if RightSource(s, e.r).Some? {
        ParsedTotalIff(RightSource(s, e.r).value, false);
      }
    } else {
      AdvanceKeepsCal(s.(timerArmed := false));
    }
  }

  lemma {:induction false} RunTotal(s: Sw, left: bool, right: bool, events: seq<Event>)
    requires Run(s, events, true) && (LeftTotal(s) <==> left) && (RightTotal(s) <==> right)
    ensures LeftTotal(After(s, events, true)) <==> Sticks(s, left, right, events).0
    ensures RightTotal(After(s, events, true)) <==> Sticks(s, left, right, events).1
    decreases |events|
  {
    if events != [] {
      EventTotal(s, left, right, events[0]);
      RunTotal(Next(s, events[0], true), LeftGood(s, left, events[0]), RightGood(s, right, events[0]), events[1..]);
    }
  }

  /** After every setup run the two axes of a stick never divide by zero if and only if the
      reaches in the last flash reply that set it are good; untouched sticks are fine. */
  lemma {:induction false} SticksTotalExact(events: seq<Event>)
    requires Run(Start(true), events, true)
    ensures LeftTotal(After(Start(true), events, true)) <==> Sticks(Start(true), true, true, events).0
    ensures RightTotal(After(Start(true), events, true)) <==> Sticks(Start(true), true, true, events).1
  {
    CalibrateTotalIff(DEFAULT_CAL);
    RunTotal(Start(true), true, true, events);
  }

  // ---------------------------------------------------------------- which controller it is

  /** The controller type after the events: the last one told, a Pro before that. */
  function LastType(kind: nat, events: seq<Event>): nat
    decreases |events|
  {
    if events == [] then kind
    else LastType(if events[0].Replied? && events[0].r.DevInfo? then events[0].r.controllerType else kind, events[1..])
  }

  /** The mode after the events: whether A was held when the controller first told its type. */
  function FirstMode(mode: Mode, events: seq<Event>): Mode
    decreases |events|
  {
    if events == [] || mode != ModeNone then mode
    else FirstMode(if events[0].Replied? && events[0].r.DevInfo? then (if events[0].r.aPressed then Imu else Normal) else mode,
                   events[1..])
  }

  lemma {:induction false} AdvanceKeepsType(s: Sw)
    ensures var t := Advance(s, true);
      t.controllerType == s.controllerType && t.mode == s.mode && (Order(s.state) > 1 ==> Order(t.state) > 1)
  {
    if s.state.EnableImu? {
      var t := s.(state := DumpFlash, timerArmed := false);
      assert Advance(s, true) == Advance(t, true);
    }
  }

  lemma {:induction false} ModeKept(mode: Mode, events: seq<Event>)
    requires mode != ModeNone
    ensures FirstMode(mode, events) == mode
  {
  }

  lemma {:induction false} RunType(s: Sw, events: seq<Event>)
    requires Run(s, events, true) && Order(s.state) > 1
    ensures After(s, events, true).controllerType == LastType(s.controllerType, events)
    ensures After(s, events, true).mode == FirstMode(s.mode, events)
    decreases |events|
  {
    if events != [] {
      var e := events[0];
      var t := if e.Replied? then TakeReply(s, e.r) else s.(timerArmed := false);
      if e.Replied? {
        ReplyKeeps(s, e.r);
        ReplyType(s, e.r);
      }
      AdvanceKeepsType(t);
      RunType(Next(s, e, true), events[1..]);
      if s.mode != ModeNone {
        ModeKept(s.mode, events);
        ModeKept(s.mode, events[1..]);
      }
    }
  }

  lemma {:induction false} ReplyType(s: Sw, r: Reply)
    requires Order(s.state) > 1
    ensures TakeReply(s, r).controllerType == if r.DevInfo? then r.controllerType else s.controllerType
    ensures TakeReply(s, r).mode
         == if r.DevInfo? && s.mode == ModeNone then (if r.aPressed then Imu else Normal) else s.mode
  {
  }

  /** After every setup run the controller type is the last one the controller told, and the
      mode the one chosen by button A when it first told it. */
  lemma {:induction false} TypeExact(events: seq<Event>)
    requires Run(Start(true), events, true)
    ensures After(Start(true), events, true).controllerType == LastType(3, events)
    ensures After(Start(true), events, true).mode == FirstMode(ModeNone, events)
  {
    RunType(Start(true), events);
  }

  /** The calibration in use before any reply: 512, 2048 and 3583 are the ends and the middle. */
  lemma {:induction false} DefaultExact()
    ensures Start(true).x == Cal(512, 2048, 3583)
    ensures CalibrateAxis(512, Start(true).x) == Value(-512)
    ensures CalibrateAxis(2048, Start(true).x) == Value(0)
    ensures CalibrateAxis(3583, Start(true).x) == Value(512)
    ensures Start(true).x == Start(true).y == Start(true).rx == Start(true).ry
  {
    CalibrateEndpoints(DEFAULT_CAL);
  }

  // ---------------------------------------------------------------- a blank flash

  const BLANK: Payload := seq(22, _ => 0)

  lemma {:induction false} OthersKeepSticks(s: Sw, events: seq<Event>)
    requires forall i :: 0 <= i < |events| ==> events[i] == Replied(Other)
    ensures Run(s, events, true) && After(s, events, true).x == s.x
    decreases |events|
  {
    if events != [] {
      assert events[0] == Replied(Other);
      AdvanceKeepsCal(s);
      OthersKeepSticks(Next(s, events[0], true), events[1..]);
    }
  }

  lemma {:induction false} RunCons(s: Sw, e: Event, rest: seq<Event>)
    requires Enabled(s, e) && Run(Next(s, e, true), rest, true)
    ensures Run(s, [e] + rest, true) && After(s, [e] + rest, true) == After(Next(s, e, true), rest, true)
  {
    assert ([e] + rest)[1..] == rest;
  }

  lemma {:induction false} BlankReply(s: Sw, r: Reply)
    requires s.state.ReadFactoryStick? && s.controllerType == TYPE_PRO && r == Flash(true, 18, BLANK)
    ensures Next(s, Replied(r), true).x == Cal(0, 0, 0)
  {
    LeftExact(s, r);
    AdvanceKeepsCal(TakeReply(s, r));
  }

  /** A Pro whose factory calibration reads as zeros ends up READY, and then every reading of
      its left stick divides by zero. */
  lemma {:induction false} BlankFlashDividesByZero(rest: seq<Event>)
    requires |rest| == 5 && forall i :: 0 <= i < |rest| ==> rest[i] == Replied(Other)
    ensures var events := [Replied(Other), Replied(Flash(true, 18, BLANK))] + rest;
      && Run(Start(true), events, true)
      && After(Start(true), events, true).state.Ready?
      && forall v: Twelve :: CalibrateAxis(v, After(Start(true), events, true).x) == DivisionByZero
  {
    var e, f := Replied(Other), Replied(Flash(true, 18, BLANK));
    var events := [e, f] + rest;
    var s1 := Next(Start(true), e, true);
    var s2 := Next(s1, f, true);
    assert s1.state.ReadFactoryStick? && s1.controllerType == TYPE_PRO;
    BlankReply(s1, f.r);
    OthersKeepSticks(s2, rest);
    RunCons(s1, f, rest);
    RunCons(Start(true), e, [f] + rest);
    assert events == [e] + ([f] + rest);
    SetupCorrect(events, true);
  }

  // ---------------------------------------------------------------- the code

  class SwitchInstance {
    const accepts: bool      // the platform's answer when asked
    var state: Fsm
    var timerArmed: bool
    var connReady: bool
    var asked: nat
    var mode: Mode
    var controllerType: nat
    var x: Cal
    var y: Cal
    var rx: Cal
    var ry: Cal

    function View(): Sw
      reads this
    {
      Sw(state, timerArmed, connReady, asked, mode, controllerType, x, y, rx, ry)
    }

    constructor (accepts: bool)
      ensures this.accepts == accepts && View() == Start(accepts)
    {
      this.accepts := accepts;
      state, timerArmed, connReady, asked := Setup, false, false, 0;
      mode, controllerType := ModeNone, TYPE_PRO;
      x, y, rx, ry := DEFAULT_CAL, DEFAULT_CAL, DEFAULT_CAL, DEFAULT_CAL;
      new;
      ProcessFsm();
    }

    method ProcessFsm()
      modifies this
      ensures View() == Advance(old(View()), accepts)
      decreases Rank(state), 1
    {
      match state {
        case Setup =>
          timerArmed := true;
          state := ReqDevInfo;
        case ReqDevInfo => state := ReadFactoryStick;
        case ReadFactoryStick => state := ReadUserStick;
        case ReadUserStick => state := ReadFactoryImu;
        case ReadFactoryImu => state := SetFullReport;
        case SetFullReport => state := EnableImu;
        case EnableImu => DumpRom();
        case DumpFlash => state := UpdateLed;
        case UpdateLed => GamepadReady();
        case Ready => timerArmed := false;
        case Uninit =>
      }
    }

    method DumpRom()
      requires state.EnableImu?
      modifies this
      ensures View() == Advance(old(View()), accepts)
      decreases Rank(state), 0
    {
      state := DumpFlash;
      timerArmed := false;
      ProcessFsm();
    }

    method ReadyComplete()
      modifies this
      ensures View() == SetReadyComplete(old(View()), accepts)
    {
      if connReady {
        return;
      }
      asked := asked + 1;
      if !accepts {
        state, timerArmed, connReady, mode, controllerType := Uninit, false, false, ModeNone, 0;
        x, y, rx, ry := Cal(0, 0, 0), Cal(0, 0, 0), Cal(0, 0, 0), Cal(0, 0, 0);
        return;
      }
      connReady := true;
    }

    method GamepadReady()
      requires state.UpdateLed?
      modifies this
      ensures View() == Advance(old(View()), accepts)
      decreases Rank(state), 0
    {
      state := Ready;
      ReadyComplete();
      assert Rank(state) == 0;
      ProcessFsm();
    }

    method ReadLeft(d: seq<Byte>)
      requires |d| >= 9
      modifies this`x, this`y
      ensures View() == LeftFrom(old(View()), d)
    {
      var xy := ParseStick(d, true);
      x, y := xy.0, xy.1;
    }

    method ReadRight(d: seq<Byte>)
      requires |d| >= 9
      modifies this`rx, this`ry
      ensures View() == RightFrom(old(View()), d)
    {
      var xy := ParseStick(d, false);
      rx, ry := xy.0, xy.1;
    }

    method ReplyFactoryStick(memLen: nat, d: Payload)
      modifies this`x, this`y, this`rx, this`ry
      ensures View() == FactoryStick(old(View()), memLen, d)
    {
      if controllerType == TYPE_PRO {
        if memLen < 18 {
          return;
        }
        ReadLeft(d);
        ReadRight(d[9..]);
      } else {
        if memLen < 9 {
          return;
        }
        if controllerType == TYPE_JCL {
          ReadLeft(d);
        } else {
          ReadRight(d);
        }
      }
    }

    method ReplyUserStick(memLen: nat, d: Payload)
      modifies this`x, this`y, this`rx, this`ry
      ensures View() == UserStick(old(View()), memLen, d)
    {
      var left, right, at := false, false, 2;
      if controllerType == TYPE_PRO {
        if memLen < 18 {
          return;
        }
        left := Magic(d, 0);
        if Magic(d, 11) {
          at, right := 13, true;
        }
      } else {
        if memLen < 9 {
          return;
        }
        if Magic(d, 0) {
          left := controllerType == TYPE_JCL;
          right := !left;
        }
      }
      if left {
        ReadLeft(d[2..]);
      }
      if right {
        ReadRight(d[at..]);
      }
    }

    method ProcessInputSubcmdReply(r: Reply)
      modifies this
      ensures View() == Next(old(View()), Replied(r), accepts)
    {
      match r {
        case DevInfo(aPressed, kind) =>
          if Order(state) > Order(Setup) && mode.ModeNone? {
            mode := if aPressed then Imu else Normal;
          }
          controllerType := kind;
        case Flash(longEnough, memLen, d) =>
          if longEnough {
            if state.ReadFactoryStick? {
              ReplyFactoryStick(memLen, d);
            } else if state.ReadUserStick? {
              ReplyUserStick(memLen, d);
            }
          }
        case Other =>
      }
      ProcessFsm();
    }

    method SetupTimeout()
      requires timerArmed
      modifies this
      ensures View() == Next(old(View()), Timeout, accepts)
    {
      timerArmed := false;
      ProcessFsm();
    }
  }
}
