/** The Wii parser's handshake (`uni_hid_parser_wii.c`): which device is it, which extension
    is attached, and which data report should it stream.  EEPROM dumping is compiled out
    in the source (`ENABLE_EEPROM_DUMP 0`) and here. */
module WiiHandshake {

  datatype Fsm =
    | Uninit | Setup | DumpInProgress | DumpFinished | DidReqStatus | DevUnknown | ExtUnknown
    | ExtDidInit | ExtDidNoEncryption | ExtDidReadRegister
    | ReadCalibration | ReadCalibration2 | DidReadCalibration | DidReadCalibration2
    | DevGuessed | DevAssigned | LedUpdated

  datatype Mode = Horizontal | Vertical | Accel
  datatype Device = UnknownDevice | ProController | Remote | RemoteMp
  datatype Extension = NoExt | UnknownExt | Nunchuk | Classic | UPro | Board | Udraw
  datatype ReportType = NoReport | K | KA | KE | KAE | KEE | E

  const WMEM: nat := 0x16   // WIIPROTO_REQ_WMEM

  datatype Wii = Wii(
    state: Fsm, register: nat, mode: Mode, device: Device, ext: Extension, productId: nat,
    requested: ReportType,   // last data report asked for
    ready: nat)              // calls of uni_hid_device_set_ready_complete

  // ---------------------------------------------------------------- the state machine

  /** `wii_fsm_assign_device`: the report type for what was found. */
  function Choose(device: Device, ext: Extension, mode: Mode): ReportType {
    if device.ProController? then KEE
    else match ext
      case Nunchuk => if mode.Accel? then KAE else KE
      case Classic => E
      case Board => KEE
      case Udraw => KE
      case _ => if mode.Accel? then KA else K
  }

  /** How many nested calls of `wii_process_fsm` a state can still cause. */
  function Rank(s: Fsm): nat {
    match s
    case Setup | DumpInProgress => 2
    case DumpFinished => 1
    case DevGuessed => 2
    case DevAssigned => 1
    case _ => 0
  }

  /** `wii_process_fsm`. */
  function Process(w: Wii): (r: Wii)
    ensures r.register == w.register && r.mode == w.mode && r.device == w.device
         && r.ext == w.ext && r.productId == w.productId
    decreases Rank(w.state)
  {
    match w.state
    case Setup | DumpInProgress => Process(w.(state := DumpFinished))
    case DumpFinished => w.(state := DidReqStatus)
    case DevUnknown | ExtUnknown => w.(state := ExtDidInit)
    case ExtDidInit => w.(state := ExtDidNoEncryption)
    case ExtDidNoEncryption => w.(state := ExtDidReadRegister)
    case DevGuessed => Process(w.(state := DevAssigned, requested := Choose(w.device, w.ext, w.mode)))
    case ReadCalibration => w.(state := DidReadCalibration)
    case ReadCalibration2 => w.(state := DidReadCalibration2)
    case DevAssigned => var v := Process(w.(state := LedUpdated)); v.(ready := v.ready + 1)
    case _ => w
  }

  function Start(productId: nat): Wii {
    Process(Wii(Setup, 0xa4, Horizontal, UnknownDevice, NoExt, productId, NoReport, 0))
  }

  /** Input reports that reach the handshake; bytes the code tests are spelled out. */
  datatype Event =
    | Status(longEnough: bool, extension: bool, aPressed: bool, plusPressed: bool)
    | Data(longEnough: bool, error: bool, size: nat, r4: nat, r5: nat, r10: nat, r11: nat)
    | Return(r3: nat, r4: nat)

  /** What the flags and buttons of a status report say. */
  function ReadStatus(w: Wii, e: Event): Wii
    requires e.Status?
  {
    var w1 :=
      if w.productId == 0x0306 then w.(state := DevGuessed, device := Remote)
      else if w.productId == 0x0330 then
        if !e.extension then w.(state := DevGuessed, device := RemoteMp) else w.(state := DevUnknown)
      else w;
    var w2 := if e.extension then w1.(state := ExtUnknown, ext := UnknownExt) else w1.(ext := NoExt);
    if e.aPressed then w2.(mode := Accel) else if e.plusPressed then w2.(mode := Vertical) else w2
  }

  function OnStatus(w: Wii, e: Event): Wii
    requires e.Status?
  {
    if !e.longEnough || w.state != DidReqStatus then w else Process(ReadStatus(w, e))
  }

  function GuessDevice(w: Wii, r10: nat, r11: nat): Wii {
    if r10 == 0x01 && r11 == 0x20 then w.(device := ProController, ext := UPro)
    else if w.device.UnknownDevice? then
      if w.productId == 0x0330 then w.(device := RemoteMp)
      else if w.productId == 0x0306 then w.(device := Remote)
      else w
    else w
  }

  function GuessExtension(w: Wii, r10: nat, r11: nat): Wii {
    if !w.ext.UnknownExt? then w
    else if r10 == 0x00 && r11 == 0x00 then w.(ext := Nunchuk, mode := Vertical)
    else if r10 == 0x04 && r11 == 0x02 then w.(ext := Board)
    else if r10 == 0x01 && r11 == 0x01 then w.(ext := Classic)
    else if r10 == 0x01 && r11 == 0x12 then w.(ext := Udraw, mode := Vertical)
    else w
  }

  function OnData(w: Wii, e: Event): Wii
    requires e.Data?
  {
    if !e.longEnough then w
    else match w.state
      case ExtDidReadRegister =>
        if e.error || !(e.size == 5 && e.r4 == 0x00 && e.r5 == 0xfa) then w
        else
          var v := GuessExtension(GuessDevice(w, e.r10, e.r11), e.r10, e.r11);
          Process(v.(state := if v.ext.Board? then ReadCalibration else DevGuessed))
      case DidReadCalibration => if e.error then w else Process(w.(state := ReadCalibration2))
      case DidReadCalibration2 => if e.error then w else Process(w.(state := DevGuessed))
      case DumpInProgress => Process(w)
      case _ => w
  }

  function OnReturn(w: Wii, e: Event): Wii
    requires e.Return?
  {
    if e.r3 != WMEM then w
    else if e.r4 == 0 then Process(w)
    else if w.register == 0xa6 then Process(w.(state := Setup))
    else Process(w.(state := DevUnknown, register := 0xa6))
  }

  function Next(w: Wii, e: Event): Wii {
    match e
    case Status(_, _, _, _) => OnStatus(w, e)
    case Data(_, _, _, _, _, _, _) => OnData(w, e)
    case Return(_, _) => OnReturn(w, e)
  }

  function Run(w: Wii, events: seq<Event>): Wii
    decreases |events|
  {
    if events == [] then w else Run(Next(w, events[0]), events[1..])
  }

  // ---------------------------------------------------------------- what the handlers take

  /** Whether `process_drm_*` makes use of a report of this type. */
  predicate Accepts(t: ReportType, ext: Extension, mode: Mode) {
    match t
    case K => !mode.Accel?
    case KA => true
    case KE => (ext.Nunchuk? || ext.Udraw?) && mode.Vertical?
    case KEE => ext.Board? || ext.UPro?
    case E => ext.Classic?
    case KAE => false
    case NoReport => false
  }

  predicate Assigned(w: Wii) { w.state.DevAssigned? || w.state.LedUpdated? }

  ghost predicate Inv(w: Wii) {
    && (w.register == 0xa4 || w.register == 0xa6)
    && (w.ext.Nunchuk? || w.ext.Udraw? ==> w.mode.Vertical?)
    && (w.ext.UPro? ==> w.device.ProController?)
    && (Assigned(w) ==> w.requested == Choose(w.device, w.ext, w.mode))
  }

  lemma {:induction false} ProcessKeeps(w: Wii)
    requires Inv(w)
    ensures Inv(Process(w))
    decreases Rank(w.state)
  {
    match w.state
    case Setup | DumpInProgress => ProcessKeeps(w.(state := DumpFinished));
    case DevGuessed => ProcessKeeps(w.(state := DevAssigned, requested := Choose(w.device, w.ext, w.mode)));
    case DevAssigned => ProcessKeeps(w.(state := LedUpdated));
    case _ =>
  }

  lemma {:induction false} DataKeeps(w: Wii, e: Event)
    requires Inv(w) && e.Data?
    ensures Inv(OnData(w, e))
  {
    if e.longEnough {
      match w.state
      case ExtDidReadRegister =>
        var v := GuessExtension(GuessDevice(w, e.r10, e.r11), e.r10, e.r11);
        ProcessKeeps(v.(state := if v.ext.Board? then ReadCalibration else DevGuessed));
      case DidReadCalibration => ProcessKeeps(w.(state := ReadCalibration2));
      case DidReadCalibration2 => ProcessKeeps(w.(state := DevGuessed));
      case DumpInProgress => ProcessKeeps(w);
      case _ =>
    }
  }

  lemma {:induction false} StatusKeeps(w: Wii, e: Event)
    requires Inv(w) && e.Status?
    ensures Inv(OnStatus(w, e))
  {
    if e.longEnough && w.state.DidReqStatus? {
      ProcessKeeps(ReadStatus(w, e));
    }
  }

  lemma {:induction false} StepKeeps(w: Wii, e: Event)
    requires Inv(w)
    ensures Inv(Next(w, e))
    ensures w.register == 0xa6 ==> Next(w, e).register == 0xa6
  {
    match e
    case Status(_, _, _, _) => StatusKeeps(w, e);
    case Data(_, _, _, _, _, _, _) => DataKeeps(w, e);
    case Return(_, _) =>
      ProcessKeeps(w);
      ProcessKeeps(w.(state := Setup));
      ProcessKeeps(w.(state := DevUnknown, register := 0xa6));
  }

  lemma {:induction false} RunKeeps(w: Wii, events: seq<Event>)
    requires Inv(w)
    ensures Inv(Run(w, events))
    ensures w.register == 0xa6 ==> Run(w, events).register == 0xa6
    decreases |events|
  {
    if events != [] {
      StepKeeps(w, events[0]);
      RunKeeps(Next(w, events[0]), events[1..]);
    }
  }

  /** In every handshake, whatever the device answers: the register bank is 0xa4 or 0xa6, a
      Nunchuk or uDraw tablet means vertical mode, and a device other than the Pro is
      asked for a report its handler accepts. */
  lemma {:induction false} HandshakeCorrect(productId: nat, events: seq<Event>)
    ensures var w := Run(Start(productId), events);
      && (w.register == 0xa4 || w.register == 0xa6)
      && (w.ext.Nunchuk? || w.ext.Udraw? ==> w.mode.Vertical?)
      && (Assigned(w) && !w.device.ProController? ==> Accepts(w.requested, w.ext, w.mode))
  {
    ProcessKeeps(Wii(Setup, 0xa4, Horizontal, UnknownDevice, NoExt, productId, NoReport, 0));
    RunKeeps(Start(productId), events);
  }

  /** Once the code fell back to bank 0xa6 it stays there. */
  lemma {:induction false} RegisterNeverGoesBack(productId: nat, earlier: seq<Event>, later: seq<Event>)
    requires Run(Start(productId), earlier).register == 0xa6
    ensures Run(Run(Start(productId), earlier), later).register == 0xa6
  {
    ProcessKeeps(Wii(Setup, 0xa4, Horizontal, UnknownDevice, NoExt, productId, NoReport, 0));
    RunKeeps(Start(productId), earlier);
    RunKeeps(Run(Start(productId), earlier), later);
  }

  // ---------------------------------------------------------------- the Pro controller

  /** A failed write in bank 0xa6 sends the handshake back to the beginning. */
  predicate Restarts(w: Wii, e: Event) {
    e.Return? && e.r3 == WMEM && e.r4 != 0 && w.register == 0xa6
  }

  ghost predicate NeverRestarts(w: Wii, events: seq<Event>)
    decreases |events|
  {
    events == [] || (!Restarts(w, events[0]) && NeverRestarts(Next(w, events[0]), events[1..]))
  }

  /** Between answers: only a device that is still unknown waits for its status. */
  ghost predicate Unsurveyed(w: Wii) {
    (w.state.DidReqStatus? ==> w.device.UnknownDevice?) && Rank(w.state) == 0
  }

  /** Nested calls run until a state that waits for the device. */
  lemma {:induction false} ProcessRests(w: Wii)
    ensures Rank(Process(w).state) == 0
    ensures Process(w).state.DidReqStatus? ==>
              w.state.Setup? || w.state.DumpInProgress? || w.state.DumpFinished? || w.state.DidReqStatus?
    decreases Rank(w.state)
  {
    match w.state
    case Setup | DumpInProgress => ProcessRests(w.(state := DumpFinished));
    case DevGuessed =>
      ProcessRests(w.(state := DevAssigned, requested := Choose(w.device, w.ext, w.mode)));
    case DevAssigned => ProcessRests(w.(state := LedUpdated));
    case _ =>
  }

  lemma {:induction false} UnsurveyedStep(w: Wii, e: Event)
    requires Unsurveyed(w) && !Restarts(w, e)
    ensures Unsurveyed(Next(w, e))
  {
    match e
    case Status(_, _, _, _) => ProcessRests(ReadStatus(w, e));
    case Data(_, _, _, _, _, _, _) =>
      var v := GuessExtension(GuessDevice(w, e.r10, e.r11), e.r10, e.r11);
      ProcessRests(v.(state := if v.ext.Board? then ReadCalibration else DevGuessed));
      ProcessRests(w.(state := ReadCalibration2));
      ProcessRests(w.(state := DevGuessed));
    case Return(_, _) =>
      ProcessRests(w.(state := DevUnknown, register := 0xa6));
      ProcessRests(w);
  }

  lemma {:induction false} NoDoubt(w: Wii, events: seq<Event>)
    requires Unsurveyed(w) && NeverRestarts(w, events)
    ensures !DoubtAfter(w, false, events)
    decreases |events|
  {
    if events != [] {
      UnsurveyedStep(w, events[0]);
      assert !Doubtful(w, false, events[0]);
      NoDoubt(Next(w, events[0]), events[1..]);
    }
  }

  /** As long as the handshake was never sent back to the beginning, every device, the Pro
      included, is asked for a report its handler accepts. */
  lemma {:induction false} AcceptedWithoutRestart(productId: nat, events: seq<Event>)
    requires NeverRestarts(Start(productId), events)
    ensures var w := Run(Start(productId), events);
      Assigned(w) ==> Accepts(w.requested, w.ext, w.mode)
  {
    ProcessRests(Wii(Setup, 0xa4, Horizontal, UnknownDevice, NoExt, productId, NoReport, 0));
    NoDoubt(Start(productId), events);
    AcceptedExact(productId, events);
  }

  // ---------------------------------------------------------------- exactly when it is accepted

  /** A register read that identifies what is attached. */
  predicate Identifies(w: Wii, e: Event) {
    e.Data? && e.longEnough && w.state.ExtDidReadRegister? && !e.error && e.size == 5 && e.r4 == 0x00 && e.r5 == 0xfa
  }

  /** A status report that the handshake waits for. */
  predicate Surveys(w: Wii, e: Event) { e.Status? && e.longEnough && w.state.DidReqStatus? }

  /** Whether a Pro has been surveyed again but not identified again: a status report that
      does not take the device for a remote sets it, a Pro or Balance Board id clears it. */
  function Doubtful(w: Wii, doubt: bool, e: Event): bool {
    if Surveys(w, e) then
      w.device.ProController? && w.productId != 0x0306 && (w.productId != 0x0330 || e.extension)
    else if Identifies(w, e) then
      doubt && !(e.r10 == 0x01 && e.r11 == 0x20) && !(w.ext.UnknownExt? && e.r10 == 0x04 && e.r11 == 0x02)
    else doubt
  }

  function DoubtAfter(w: Wii, doubt: bool, events: seq<Event>): bool
    decreases |events|
  {
    if events == [] then doubt else DoubtAfter(Next(w, events[0]), Doubtful(w, doubt, events[0]), events[1..])
  }

  ghost predicate DoubtInv(w: Wii, doubt: bool) {
    doubt <==> w.device.ProController? && !w.ext.UPro? && !w.ext.Board?
  }

  lemma DoubtStep(w: Wii, doubt: bool, e: Event)
    requires DoubtInv(w, doubt) && Inv(w)
    ensures DoubtInv(Next(w, e), Doubtful(w, doubt, e))
  {
  }

  lemma {:induction false} DoubtRun(w: Wii, doubt: bool, events: seq<Event>)
    requires DoubtInv(w, doubt) && Inv(w)
    ensures DoubtInv(Run(w, events), DoubtAfter(w, doubt, events))
    decreases |events|
  {
    if events != [] {
      DoubtStep(w, doubt, events[0]);
      StepKeeps(w, events[0]);
      DoubtRun(Next(w, events[0]), Doubtful(w, doubt, events[0]), events[1..]);
    }
  }

  lemma AcceptsIff(w: Wii)
    requires Inv(w) && Assigned(w)
    ensures Accepts(w.requested, w.ext, w.mode) <==> !(w.device.ProController? && !w.ext.UPro? && !w.ext.Board?)
  {
  }

  /** For every device and every sequence of answers: once a report type is assigned, its
      handler accepts it if and only if no doubt is left. */
  lemma {:induction false} AcceptedExact(productId: nat, events: seq<Event>)
    ensures var w := Run(Start(productId), events);
      Assigned(w) ==> (Accepts(w.requested, w.ext, w.mode) <==> !DoubtAfter(Start(productId), false, events))
  {
    ProcessKeeps(Wii(Setup, 0xa4, Horizontal, UnknownDevice, NoExt, productId, NoReport, 0));
    RunKeeps(Start(productId), events);
    DoubtRun(Start(productId), false, events);
    var w := Run(Start(productId), events);
    if Assigned(w) {
      AcceptsIff(w);
    }
  }

  // ---------------------------------------------------------------- what is found, by its id

  predicate IsRemote(productId: nat) { productId == 0x0306 || productId == 0x0330 }

  /** The mode that the buttons held during the status report select. */
  function Held(mode: Mode, a: bool, plus: bool): Mode { if a then Accel else if plus then Vertical else mode }

  /** A remote without extension: held A asks for buttons and accelerometer, held plus selects
      vertical mode, and otherwise the buttons alone are asked for. */
  lemma {:induction false} NoExtensionExact(w: Wii, a: bool, plus: bool)
    requires w.state.DidReqStatus? && IsRemote(w.productId)
    ensures var u := Next(w, Status(true, false, a, plus));
      && u.state.LedUpdated? && u.ready == w.ready + 1 && u.ext == NoExt
      && u.device == (if w.productId == 0x0306 then Remote else RemoteMp)
      && (a ==> u.mode == Accel && u.requested == KA)
      && (!a && plus ==> u.mode == Vertical && u.requested == K)
      && (!a && !plus && !w.mode.Accel? ==> u.mode == w.mode && u.requested == K)
  {
    FromGuessed(ReadStatus(w, Status(true, false, a, plus)));
  }

  /** The three answers before the extension's id is read. */
  lemma {:induction false} ProbeExact(w: Wii, a: bool, plus: bool)
    requires w.state.DidReqStatus? && IsRemote(w.productId)
    ensures Next(Next(Next(w, Status(true, true, a, plus)), ACK), ACK)
         == w.(state := ExtDidReadRegister, ext := UnknownExt, mode := Held(w.mode, a, plus),
               device := if w.productId == 0x0306 then Remote else w.device)
  {
    var e := Status(true, true, a, plus);
    var w1 := w.(state := ExtDidInit, ext := UnknownExt, mode := Held(w.mode, a, plus),
                 device := if w.productId == 0x0306 then Remote else w.device);
    assert ReadStatus(w, e) == w1.(state := ExtUnknown);
    assert Next(w, e) == w1;
    var w2 := w1.(state := ExtDidNoEncryption);
    assert Next(w1, ACK) == w2;
  }

  function Id(r10: nat, r11: nat): Event { Data(true, false, 5, 0x00, 0xfa, r10, r11) }

  /** The whole probe of a remote's extension. */
  function Probed(w: Wii, a: bool, plus: bool, r10: nat, r11: nat): Wii {
    Next(Next(Next(Next(w, Status(true, true, a, plus)), ACK), ACK), Id(r10, r11))
  }

  /** The answers as one run of the handshake. */
  lemma {:induction false} ProbedIsRun(w: Wii, a: bool, plus: bool, r10: nat, r11: nat)
    ensures Run(w, [Status(true, true, a, plus), ACK, ACK, Id(r10, r11)]) == Probed(w, a, plus, r10, r11)
  {
    Run4(w, Status(true, true, a, plus), ACK, ACK, Id(r10, r11));
  }

  lemma {:induction false} Run4(w: Wii, a: Event, b: Event, c: Event, d: Event)
    ensures Run(w, [a, b, c, d]) == Next(Next(Next(Next(w, a), b), c), d)
  {
    assert [a, b, c, d][1..] == [b, c, d];
    assert [b, c, d][1..] == [c, d];
    assert [c, d][1..] == [d];
    var w1 := Next(w, a);
    var w2 := Next(w1, b);
    var w3 := Next(w2, c);
    assert Run(w3, [d]) == Next(w3, d);
    assert Run(w2, [c, d]) == Run(w3, [d]);
    assert Run(w1, [b, c, d]) == Run(w2, [c, d]);
  }

  /** What a probe has settled: the device is told apart, ready is signalled once. */
  predicate Settled(w: Wii, u: Wii, ext: Extension, requested: ReportType) {
    u.state.LedUpdated? && u.ready == w.ready + 1 && u.ext == ext && u.requested == requested
  }

  /** Id 00 00 is a Nunchuk, 01 01 a Classic Controller, 01 12 a uDraw tablet, each with its
      own report; Nunchuk and uDraw are held vertically. */
  lemma {:induction false} ExtensionsExact(w: Wii, a: bool, plus: bool)
    requires w.state.DidReqStatus? && IsRemote(w.productId) && !w.device.ProController?
    ensures Settled(w, Probed(w, a, plus, 0x00, 0x00), Nunchuk, KE) && Probed(w, a, plus, 0x00, 0x00).mode == Vertical
    ensures Settled(w, Probed(w, a, plus, 0x01, 0x01), Classic, E)
    ensures Settled(w, Probed(w, a, plus, 0x01, 0x12), Udraw, KE) && Probed(w, a, plus, 0x01, 0x12).mode == Vertical
  {
    ProbeExact(w, a, plus);
    ProbeEnds(w, a, plus, 0x00, 0x00, Nunchuk, Vertical);
    ProbeEnds(w, a, plus, 0x01, 0x01, Classic, Held(w.mode, a, plus));
    ProbeEnds(w, a, plus, 0x01, 0x12, Udraw, Vertical);
  }

  lemma {:induction false} ProbeEnds(w: Wii, a: bool, plus: bool, r10: nat, r11: nat, ext: Extension, mode: Mode)
    requires w.state.DidReqStatus? && IsRemote(w.productId) && !w.device.ProController? && !ext.Board?
    requires !(r10 == 0x01 && r11 == 0x20)
    requires (r10, r11) == (0x00, 0x00) || (r10, r11) == (0x01, 0x01) || (r10, r11) == (0x01, 0x12)
    requires GuessExtension(w.(ext := UnknownExt, mode := Held(w.mode, a, plus)), r10, r11).ext == ext
    requires GuessExtension(w.(ext := UnknownExt, mode := Held(w.mode, a, plus)), r10, r11).mode == mode
    ensures var u := Probed(w, a, plus, r10, r11);
      && u.state.LedUpdated? && u.ready == w.ready + 1 && u.ext == ext && u.mode == mode
      && !u.device.ProController? && u.requested == Choose(u.device, ext, mode)
  {
    ProbeExact(w, a, plus);
    var v := w.(state := ExtDidReadRegister, ext := UnknownExt, mode := Held(w.mode, a, plus),
                device := if w.productId == 0x0306 then Remote else w.device);
    FromGuessed(GuessExtension(GuessDevice(v, r10, r11), r10, r11).(state := DevGuessed));
  }

  /** Whether the id is that of a device or an extension the code knows. */
  predicate KnownId(r10: nat, r11: nat) {
    || (r10 == 0x00 && r11 == 0x00)
    || (r10 == 0x01 && (r11 == 0x01 || r11 == 0x12 || r11 == 0x20))
    || (r10 == 0x04 && r11 == 0x02)
  }

  /** With any other id the extension stays unknown and the remote is used without it. */
  lemma {:induction false} UnknownIdExact(w: Wii, a: bool, plus: bool, r10: nat, r11: nat)
    requires w.state.DidReqStatus? && IsRemote(w.productId) && !w.device.ProController? && !KnownId(r10, r11)
    ensures Settled(w, Probed(w, a, plus, r10, r11), UnknownExt, if Held(w.mode, a, plus).Accel? then KA else K)
    ensures Probed(w, a, plus, r10, r11).mode == Held(w.mode, a, plus)
  {
    ProbeExact(w, a, plus);
    var v := w.(state := ExtDidReadRegister, ext := UnknownExt, mode := Held(w.mode, a, plus),
                device := if w.productId == 0x0306 then Remote else w.device);
    FromGuessed(GuessDevice(v, r10, r11).(state := DevGuessed));
  }

  /** Id 01 20 is a Pro Controller. */
  lemma {:induction false} ProExact(w: Wii, a: bool, plus: bool)
    requires w.state.DidReqStatus? && IsRemote(w.productId)
    ensures Settled(w, Probed(w, a, plus, 0x01, 0x20), UPro, KEE) && Probed(w, a, plus, 0x01, 0x20).device == ProController
  {
    ProbeExact(w, a, plus);
    var v := w.(state := DevGuessed, ext := UPro, mode := Held(w.mode, a, plus), device := ProController);
    FromGuessed(v);
  }

  /** Id 04 02 is a Balance Board, whose report is asked for after two calibration answers. */
  lemma {:induction false} BoardExact(w: Wii, a: bool, plus: bool, c1: Event, c2: Event)
    requires w.state.DidReqStatus? && IsRemote(w.productId) && !w.device.ProController?
    requires c1.Data? && c1.longEnough && !c1.error && c2.Data? && c2.longEnough && !c2.error
    ensures Probed(w, a, plus, 0x04, 0x02).state.DidReadCalibration? && Probed(w, a, plus, 0x04, 0x02).ready == w.ready
    ensures Settled(w, Next(Next(Probed(w, a, plus, 0x04, 0x02), c1), c2), Board, KEE)
  {
    ProbeExact(w, a, plus);
    var u := Probed(w, a, plus, 0x04, 0x02);
    assert Next(u, c1) == u.(state := DidReadCalibration2);
    FromGuessed(u.(state := DevGuessed));
  }

  /** A refused write moves to bank 0xa6 and starts the extension anew, or, refused there,
      starts the handshake anew; an answer to another request changes nothing. */
  lemma {:induction false} RefusalExact(w: Wii, r3: nat, r4: nat)
    requires r4 != 0
    ensures r3 != 0x16 ==> Next(w, Return(r3, r4)) == w
    ensures r3 == 0x16 && w.register != 0xa6 ==> Next(w, Return(r3, r4)) == w.(state := ExtDidInit, register := 0xa6)
    ensures r3 == 0x16 && w.register == 0xa6 ==> Next(w, Return(r3, r4)) == w.(state := DidReqStatus)
  {
    assert Process(w.(state := Setup)) == Process(w.(state := DumpFinished));
  }

  /** An answer without a readable id leaves the probe waiting. */
  lemma {:induction false} BadIdIgnored(w: Wii, e: Event)
    requires w.state.ExtDidReadRegister? && e.Data?
    requires !e.longEnough || e.error || e.size != 5 || e.r4 != 0x00 || e.r5 != 0xfa
    ensures Next(w, e) == w
  {
  }

  /** No faulty answer moves the handshake on, whatever it waits for. */
  lemma {:induction false} FaultyAnswerIgnored(w: Wii, e: Event)
    requires Rank(w.state) == 0 && e.Data? && (e.error || !e.longEnough)
    ensures Next(w, e) == w
  {
  }

  /** The states before an extension has been identified. */
  predicate Early(s: Fsm) {
    s.Setup? || s.DumpInProgress? || s.DumpFinished? || s.DidReqStatus? || s.DevUnknown? || s.ExtUnknown?
    || s.ExtDidInit? || s.ExtDidNoEncryption? || s.ExtDidReadRegister?
  }

  ghost predicate Told(w: Wii) {
    && (w.device.Remote? ==> w.productId == 0x0306)
    && (w.device.RemoteMp? ==> w.productId == 0x0330)
    && (w.device.UnknownDevice? && IsRemote(w.productId) ==> Early(w.state))
  }

  lemma {:induction false} ProcessTells(w: Wii)
    requires Told(w)
    ensures Told(Process(w)) && Process(w).productId == w.productId
    decreases Rank(w.state)
  {
    match w.state
    case Setup | DumpInProgress => ProcessTells(w.(state := DumpFinished));
    case DevGuessed => ProcessTells(w.(state := DevAssigned, requested := Choose(w.device, w.ext, w.mode)));
    case DevAssigned => ProcessTells(w.(state := LedUpdated));
    case _ =>
  }

  lemma {:induction false} StepTells(w: Wii, e: Event)
    requires Told(w)
    ensures Told(Next(w, e)) && Next(w, e).productId == w.productId
  {
    match e
    case Status(_, _, _, _) => if w.state.DidReqStatus? { ProcessTells(ReadStatus(w, e)); }
    case Data(_, _, _, _, _, _, _) =>
      if w.state.ExtDidReadRegister? {
        var v := GuessExtension(GuessDevice(w, e.r10, e.r11), e.r10, e.r11);
        ProcessTells(v.(state := if v.ext.Board? then ReadCalibration else DevGuessed));
      } else if w.state.DidReadCalibration? {
        ProcessTells(w.(state := ReadCalibration2));
      } else if w.state.DidReadCalibration2? {
        ProcessTells(w.(state := DevGuessed));
      } else {
        ProcessTells(w);
      }
    case Return(_, _) =>
      ProcessTells(w);
      ProcessTells(w.(state := Setup));
      ProcessTells(w.(state := DevUnknown, register := 0xa6));
  }

  lemma {:induction false} RunTells(w: Wii, events: seq<Event>)
    requires Told(w)
    ensures Told(Run(w, events)) && Run(w, events).productId == w.productId
    decreases |events|
  {
    if events != [] {
      StepTells(w, events[0]);
      RunTells(Next(w, events[0]), events[1..]);
    }
  }

  /** Whichever way the handshake went: once a report is assigned, a remote is known by its
      product id unless its extension turned out to be a Pro Controller. */
  lemma {:induction false} DeviceExact(productId: nat, events: seq<Event>)
    ensures var w := Run(Start(productId), events);
      Assigned(w) && !w.device.ProController? ==>
        w.device == if productId == 0x0306 then Remote else if productId == 0x0330 then RemoteMp else UnknownDevice
  {
    ProcessTells(Wii(Setup, 0xa4, Horizontal, UnknownDevice, NoExt, productId, NoReport, 0));
    RunTells(Start(productId), events);
  }

  const ACK: Event := Return(WMEM, 0)
  const NACK: Event := Return(WMEM, 1)
  const EXT_FOUND: Event := Status(true, true, false, false)
  const PRO_ID: Event := Data(true, false, 5, 0x00, 0xfa, 0x01, 0x20)
  const NUNCHUK_ID: Event := Data(true, false, 5, 0x00, 0xfa, 0x00, 0x00)

  lemma {:induction false} ExtensionProbe(w: Wii)
    requires w.state.DidReqStatus? && w.productId == 0x0330
    ensures Next(Next(Next(w, EXT_FOUND), ACK), ACK) == w.(state := ExtDidReadRegister, ext := UnknownExt)
  {
    var w1 := w.(state := ExtDidInit, ext := UnknownExt);
    assert Next(w, EXT_FOUND) == w1;
    var w2 := w1.(state := ExtDidNoEncryption);
    assert Next(w1, ACK) == w2;
  }

  lemma {:induction false} ProFound(w: Wii)
    requires w.state.DidReqStatus? && w.productId == 0x0330 && w.register == 0xa4
    ensures Run(w, [EXT_FOUND, ACK, ACK, PRO_ID, NACK])
         == w.(state := ExtDidInit, ext := UPro, device := ProController, register := 0xa6,
               requested := KEE, ready := w.ready + 1)
  {
    ExtensionProbe(w);
    Run5(w, EXT_FOUND, ACK, ACK, PRO_ID, NACK);
    FromGuessed(w.(state := DevGuessed, ext := UPro, device := ProController));
  }

  lemma {:induction false} NunchukFound(w: Wii)
    requires w.state.ExtDidInit? && w.productId == 0x0330 && w.register == 0xa6 && w.device.ProController?
    ensures Run(w, [NACK, EXT_FOUND, ACK, ACK, NUNCHUK_ID])
         == w.(state := LedUpdated, ext := Nunchuk, mode := Vertical, requested := KEE, ready := w.ready + 1)
  {
    var v := w.(state := DidReqStatus);
    assert Process(w.(state := Setup)) == Process(w.(state := DumpFinished)) == v;
    assert Next(w, NACK) == v;
    ExtensionProbe(v);
    Run5(w, NACK, EXT_FOUND, ACK, ACK, NUNCHUK_ID);
    FromGuessed(v.(state := DevGuessed, ext := Nunchuk, mode := Vertical));
  }

  /** After a restart the Pro's device type sticks while the extension is read anew: it can
      end up streaming a report that its handler throws away. */
  lemma {:induction false} ProAfterRestart()
    ensures var w := Run(Run(Start(0x0330), [EXT_FOUND, ACK, ACK, PRO_ID, NACK]),
                         [NACK, EXT_FOUND, ACK, ACK, NUNCHUK_ID]);
      Assigned(w) && w.device.ProController? && !Accepts(w.requested, w.ext, w.mode)
  {
    var w := Start(0x0330);
    assert w.state.DidReqStatus? && w.register == 0xa4 && w.productId == 0x0330;
    ProFound(w);
    NunchukFound(Run(w, [EXT_FOUND, ACK, ACK, PRO_ID, NACK]));
  }

  lemma {:induction false} ProFoundFrom(w: Wii)
    requires w.state.ExtDidInit? && w.productId == 0x0330 && w.register == 0xa6 && w.device.ProController?
    ensures Run(w, [NACK, EXT_FOUND, ACK, ACK, PRO_ID])
         == w.(state := LedUpdated, ext := UPro, requested := KEE, ready := w.ready + 1)
  {
    var v := w.(state := DidReqStatus);
    assert Process(w.(state := Setup)) == Process(w.(state := DumpFinished)) == v;
    assert Next(w, NACK) == v;
    ExtensionProbe(v);
    Run5(w, NACK, EXT_FOUND, ACK, ACK, PRO_ID);
    FromGuessed(v.(state := DevGuessed, ext := UPro));
  }

  /** A restart alone does no harm: identified again, the Pro is accepted. */
  lemma {:induction false} ProFoundAgain()
    ensures var w := Run(Run(Start(0x0330), [EXT_FOUND, ACK, ACK, PRO_ID, NACK]), [NACK, EXT_FOUND, ACK, ACK, PRO_ID]);
      Assigned(w) && w.device.ProController? && Accepts(w.requested, w.ext, w.mode)
  {
    var w := Start(0x0330);
    assert w.state.DidReqStatus? && w.register == 0xa4 && w.productId == 0x0330;
    ProFound(w);
    ProFoundFrom(Run(w, [EXT_FOUND, ACK, ACK, PRO_ID, NACK]));
  }

  lemma {:induction false} FromGuessed(w: Wii)
    requires w.state.DevGuessed?
    ensures Process(w) == w.(state := LedUpdated, requested := Choose(w.device, w.ext, w.mode), ready := w.ready + 1)
  {
    var v := w.(state := DevAssigned, requested := Choose(w.device, w.ext, w.mode));
    assert Process(v.(state := LedUpdated)) == v.(state := LedUpdated);
    assert Process(v) == v.(state := LedUpdated, ready := v.ready + 1);
  }

  lemma {:induction false} Run5(w: Wii, a: Event, b: Event, c: Event, d: Event, e: Event)
    ensures Run(w, [a, b, c, d, e]) == Next(Next(Next(Next(Next(w, a), b), c), d), e)
  {
    assert [a, b, c, d, e][1..] == [b, c, d, e];
    assert [b, c, d, e][1..] == [c, d, e];
    assert [c, d, e][1..] == [d, e];
    assert [d, e][1..] == [e];
    var w1 := Next(w, a);
    var w2 := Next(w1, b);
    var w3 := Next(w2, c);
    var w4 := Next(w3, d);
    assert Run(w4, [e]) == Next(w4, e);
    assert Run(w3, [d, e]) == Run(w4, [e]);
    assert Run(w2, [c, d, e]) == Run(w3, [d, e]);
    assert Run(w1, [b, c, d, e]) == Run(w2, [c, d, e]);
  }

  // ---------------------------------------------------------------- the code

  class WiiInstance {
    var state: Fsm
    var register: nat
    var mode: Mode
    var device: Device
    var ext: Extension
    var productId: nat
    var requested: ReportType
    var ready: nat

    function View(): Wii
      reads this
    {
      Wii(state, register, mode, device, ext, productId, requested, ready)
    }

    constructor (product: nat)
      ensures View() == Start(product)
    {
      mode, state, register := Horizontal, Fsm.Setup, 0xa4;
      device, ext, productId, requested, ready := UnknownDevice, NoExt, product, NoReport, 0;
      new;
      ProcessFsm();
    }

    /** Re-entrant: two of the steps call it again after changing the state. */
    method ProcessFsm()
      modifies this
      ensures View() == Process(old(View()))
      decreases Rank(state), 1
    {
      match state {
        case Setup => state := DumpFinished; ProcessFsm();
        case DumpInProgress => state := DumpFinished; ProcessFsm();
        case DumpFinished => state := DidReqStatus;
        case DevUnknown => state := ExtDidInit;
        case ExtUnknown => state := ExtDidInit;
        case ExtDidInit => state := ExtDidNoEncryption;
        case ExtDidNoEncryption => state := ExtDidReadRegister;
        case DevGuessed => AssignDevice();
        case ReadCalibration => state := DidReadCalibration;
        case ReadCalibration2 => state := DidReadCalibration2;
        case DevAssigned => UpdateLed();
        case _ =>
      }
    }

    method AssignDevice()
      requires state.DevGuessed?
      modifies this
      ensures View() == Process(old(View()))
      decreases Rank(state), 0
    {
      if device.ProController? {
        requested := KEE;
      } else if ext.Nunchuk? {
        requested := if mode.Accel? then KAE else KE;
      } else if ext.Classic? {
        requested := E;
      } else if ext.Board? {
        requested := KEE;
      } else if ext.Udraw? {
        requested := KE;
      } else {
        requested := if mode.Accel? then KA else K;
      }
      state := DevAssigned;
      ProcessFsm();
    }

    method UpdateLed()
      requires state.DevAssigned?
      modifies this
      ensures View() == Process(old(View()))
      decreases Rank(state), 0
    {
      state := LedUpdated;
      ProcessFsm();
      ready := ready + 1;
    }

    method ProcessReqStatus(e: Event)
      requires e.Status?
      modifies this
      ensures View() == Next(old(View()), e)
    {
      if !e.longEnough {
        return;
      }
      if state == DidReqStatus {
        if productId == 0x0306 {
          state, device := DevGuessed, Remote;
        } else if productId == 0x0330 {
          if !e.extension {
            state, device := DevGuessed, RemoteMp;
          } else {
            state := DevUnknown;
          }
        }
        if e.extension {
          state, ext := ExtUnknown, UnknownExt;
        } else {
          ext := NoExt;
        }
        if e.aPressed {
          mode := Accel;
        } else if e.plusPressed {
          mode := Vertical;
        }
        ProcessFsm();
      }
    }

    method ReadRegister(e: Event)
      requires e.Data? && e.longEnough && state == ExtDidReadRegister
      modifies this
      ensures View() == Next(old(View()), e)
    {
      if e.error {
        return;
      }
      if e.size == 5 && e.r4 == 0x00 && e.r5 == 0xfa {
        if e.r10 == 0x01 && e.r11 == 0x20 {
          device, ext := ProController, UPro;
        } else if device == UnknownDevice {
          if productId == 0x0330 {
            device := RemoteMp;
          } else if productId == 0x0306 {
            device := Remote;
          }
        }
        if ext == UnknownExt {
          if e.r10 == 0x00 && e.r11 == 0x00 {
            ext, mode := Nunchuk, Vertical;
          } else if e.r10 == 0x04 && e.r11 == 0x02 {
            ext := Board;
          } else if e.r10 == 0x01 && e.r11 == 0x01 {
            ext := Classic;
          } else if e.r10 == 0x01 && e.r11 == 0x12 {
            ext, mode := Udraw, Vertical;
          }
        }
        if ext == Board {
          state := ReadCalibration;
        } else {
          state := DevGuessed;
        }
        ProcessFsm();
      }
    }

    method ProcessReqData(e: Event)
      requires e.Data?
      modifies this
      ensures View() == Next(old(View()), e)
    {
      if !e.longEnough {
        return;
      }
      match state {
        case ExtDidReadRegister => ReadRegister(e);
        case DidReadCalibration =>
          if !e.error {
            state := ReadCalibration2;
            ProcessFsm();
          }
        case DidReadCalibration2 =>
          if !e.error {
            state := DevGuessed;
            ProcessFsm();
          }
        case DumpInProgress => ProcessFsm();
        case _ =>
      }
    }

    method ProcessReqReturn(e: Event)
      requires e.Return?
      modifies this
      ensures View() == Next(old(View()), e)
    {
      if e.r3 == WMEM {
        if e.r4 != 0 {
          if register == 0xa6 {
            state := Fsm.Setup;
          } else {
            state, register := DevUnknown, 0xa6;
          }
        }
        ProcessFsm();
      }
    }
  }
}
