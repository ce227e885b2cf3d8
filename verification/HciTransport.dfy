/** The HCI packet transport of `btstack_port_esp32.c`.

    The controller task (`host_recv_pkt_cb`) stores length-tagged packets in a byte ring
    under a mutex and then asks for a callback; the main thread's callback
    (`transport_deliver_packets`) drains the ring and gives the mutex back around each
    delivery.  Every interleaving of the two is a run of `Next`. */
module HciTransport {
  import opened Common
  import opened ByteRing

  type Packet = p: seq<Byte> | |p| < 65536

  // ---------------------------------------------------------------- framing

  function Tag(len: nat): (t: seq<Byte>)
    requires len < 65536
    ensures |t| == 2
  {
    [len % 256, len / 256]
  }

  function TagValue(t: seq<Byte>): (len: nat)
    requires |t| == 2
    ensures len < 65536
  {
    var lo: int, hi: int := t[0], t[1];
    lo + 256 * hi
  }

  lemma TagRoundTrip(len: nat)
    requires len < 65536
    ensures TagValue(Tag(len)) == len
  {
  }

  function Frame(p: Packet): seq<Byte> { Tag(|p|) + p }

  function Frames(ps: seq<Packet>): seq<Byte> {
    if ps == [] then [] else Frame(ps[0]) + Frames(ps[1..])
  }

  lemma {:induction false} FramesAppend(ps: seq<Packet>, p: Packet)
    ensures Frames(ps + [p]) == Frames(ps) + Frame(p)
    decreases |ps|
  {
    if ps == [] {
      assert ps + [p] == [p];
      assert Frames([p]) == Frame(p) + Frames([]);
    } else {
      assert (ps + [p])[1..] == ps[1..] + [p];
      FramesAppend(ps[1..], p);
    }
  }

  // ---------------------------------------------------------------- the two threads

  datatype Owner = Nobody | Controller | Main

  datatype Producer =
    | PIdle
    | PLocked(p: Packet)    // holds the mutex, space not yet checked
    | PTagged(p: Packet)    // length tag written
    | PStored               // payload written
    | PNotify               // mutex given back, callback not yet requested

  /** A call of the packet handler: the part of the packet that lies in the receive buffer,
      type byte first, and the `uint16_t size` that the handler is told for the rest. */
  datatype Delivery = Delivery(bytes: seq<Byte>, size: nat)

  /** `len - 1` as a `uint16_t`. */
  function SizeTold(len: nat): nat { (len + 65535) % 65536 }

  /** An intact packet. */
  function Plain(p: Packet): Delivery { Delivery(p, SizeTold(|p|)) }

  function Plains(ps: seq<Packet>): (ds: seq<Delivery>)
    ensures |ds| == |ps| && forall i :: 0 <= i < |ps| ==> ds[i] == Plain(ps[i])
  {
    seq(|ps|, i requires 0 <= i < |ps| => Plain(ps[i]))
  }

  datatype Consumer =
    | CIdle
    | CWait                 // wants the mutex
    | CLoop                 // at the loop test
    | CTagged(len: nat)     // length tag read
    | CHolding(d: Delivery) // packet copied to the receive buffer
    | CDeliver(d: Delivery) // mutex given back, handler not yet run
    | COverrun              // more bytes copied than the receive buffer has

  datatype State = State(
    capacity: nat,
    ring: seq<Byte>,
    mutex: Owner,
    producer: Producer,
    consumer: Consumer,
    pending: bool,            // packet_receive_callback_context is queued
    accepted: seq<Packet>,    // history: packets that passed the space check
    delivered: seq<Delivery>, // history: calls of the packet handler
    buffer: seq<Byte>         // hci_receive_buffer
  )

  datatype Step = Recv(p: Packet) | Check | Store | PUnlock | Notify
                | Start | Lock | Loop | Fetch | CUnlock | Deliver

  /** Both sizes are fixed when the firmware is built. */
  function Init(capacity: nat, bufferSize: nat): State {
    State(capacity, [], Nobody, PIdle, CIdle, false, [], [], seq(bufferSize, _ => 0))
  }

  /** `data` copied to the front of the receive buffer. */
  function Overlay(buffer: seq<Byte>, data: seq<Byte>): (b: seq<Byte>)
    ensures |b| >= |data| && b[..|data|] == data
    ensures |data| <= |buffer| ==> |b| == |buffer|
  {
    data + buffer[Min(|data|, |buffer|)..]
  }

  /** The handler is told of `len` bytes, however many were just copied in. */
  function Handed(buffer: seq<Byte>, len: nat): Delivery { Delivery(buffer[..Min(len, |buffer|)], SizeTold(len)) }

  function Free(s: State): int { s.capacity - |s.ring| }

  /** `uint16_t space`: the free count truncated to 16 bits. */
  function Space(s: State): int { Free(s) % 65536 }

  function RingWrite(s: State, data: seq<Byte>): seq<Byte> {
    if |data| <= Free(s) then s.ring + data else s.ring
  }

  function Min(a: nat, b: nat): nat { if a < b then a else b }

  predicate Enabled(s: State, e: Step) {
    match e
    case Recv(_) => s.producer.PIdle? && s.mutex.Nobody?
    case Check => s.producer.PLocked?
    case Store => s.producer.PTagged?
    case PUnlock => s.producer.PStored?
    case Notify => s.producer.PNotify?
    case Start => s.consumer.CIdle? && s.pending
    case Lock => s.consumer.CWait? && s.mutex.Nobody?
    case Loop => s.consumer.CLoop?
    case Fetch => s.consumer.CTagged?
    case CUnlock => s.consumer.CHolding?
    case Deliver => s.consumer.CDeliver?
  }

  function Next(s: State, e: Step): State
    requires Enabled(s, e)
  {
    match e
    case Recv(p) => s.(producer := PLocked(p), mutex := Controller)
    case Check =>
      if Space(s) < |s.producer.p| then
        s.(producer := PIdle, mutex := Nobody)
      else
        s.(producer := PTagged(s.producer.p), ring := RingWrite(s, Tag(|s.producer.p|)),
           accepted := s.accepted + [s.producer.p])
    case Store => s.(producer := PStored, ring := RingWrite(s, s.producer.p))
    case PUnlock => s.(producer := PNotify, mutex := Nobody)
    case Notify => s.(producer := PIdle, pending := true)
    case Start => s.(consumer := CWait, pending := false)
    case Lock => s.(consumer := CLoop, mutex := Main)
    case Loop =>
      if |s.ring| == 0 then
        s.(consumer := CIdle, mutex := Nobody)
      else
        var k := Min(2, |s.ring|);
        s.(consumer := CTagged(TagValue(s.ring[..k] + [0, 0][k..])), ring := s.ring[k..])
    case Fetch =>
      var k := Min(s.consumer.len, |s.ring|);
      if k > |s.buffer| then s.(consumer := COverrun)
      else
        var b := Overlay(s.buffer, s.ring[..k]);
        s.(consumer := CHolding(Handed(b, s.consumer.len)), ring := s.ring[k..], buffer := b)
    case CUnlock => s.(consumer := CDeliver(s.consumer.d), mutex := Nobody)
    case Deliver => s.(consumer := CWait, delivered := s.delivered + [s.consumer.d])
  }

  // ---------------------------------------------------------------- the invariant

  function InFlight(s: State): seq<Delivery> {
    if s.consumer.CHolding? || s.consumer.CDeliver? then [s.consumer.d] else []
  }

  /** How many packets have left the ring. */
  function Taken(s: State): (n: nat)
    ensures n == |s.delivered + InFlight(s)|
  {
    |s.delivered| + (if s.consumer.CHolding? || s.consumer.CDeliver? then 1 else 0)
  }

  predicate Queued(s: State) {
    Taken(s) <= |s.accepted| && (s.producer.PTagged? ==> Taken(s) < |s.accepted|)
  }

  /** Packets accepted, not yet taken out of the ring and not the one being stored. */
  function Queue(s: State): seq<Packet>
    requires Queued(s)
  {
    s.accepted[Taken(s)..if s.producer.PTagged? then |s.accepted| - 1 else |s.accepted|]
  }

  ghost predicate History(s: State) {
    && s.delivered + InFlight(s) <= Plains(s.accepted)
    && (s.producer.PTagged? ==>
          Taken(s) < |s.accepted| && s.accepted[|s.accepted| - 1] == s.producer.p)
  }

  ghost predicate RingShape(s: State)
    requires History(s)
  {
    match (s.producer, s.consumer)
    case (PTagged(p), _) => s.ring == Frames(Queue(s)) + Tag(|p|) && |p| <= Free(s)
    case (_, CTagged(len)) =>
      && |Queue(s)| > 0
      && len == |Queue(s)[0]|
      && s.ring == Queue(s)[0] + Frames(Queue(s)[1..])
    case _ => s.ring == Frames(Queue(s))
  }

  ghost predicate MutexOk(s: State) {
    && (s.mutex.Controller? <==> s.producer.PLocked? || s.producer.PTagged? || s.producer.PStored?)
    && (s.mutex.Main? <==> s.consumer.CLoop? || s.consumer.CTagged? || s.consumer.CHolding?)
  }

  /** Someone will still look at a nonempty ring. */
  predicate Watched(s: State) {
    s.pending || !s.consumer.CIdle? || s.producer.PTagged? || s.producer.PStored? || s.producer.PNotify?
  }

  /** Every accepted packet fits the receive buffer, and nothing ran past its end. */
  predicate BufferSafe(s: State) {
    && !s.consumer.COverrun?
    && (forall i :: 0 <= i < |s.accepted| ==> |s.accepted[i]| <= |s.buffer|)
  }

  ghost predicate Inv(s: State) {
    && |s.ring| <= s.capacity
    && BufferSafe(s)
    && MutexOk(s)
    && History(s)
    && RingShape(s)
    && (s.ring != [] ==> Watched(s))
  }

  /** The packet about to be accepted has room for its tag as well, and fits the receive
      buffer it will be copied to. */
  predicate RoomFor(s: State, e: Step) {
    e.Check? && s.producer.PLocked? && Space(s) >= |s.producer.p| ==>
      Free(s) >= |s.producer.p| + 2 && |s.producer.p| <= |s.buffer|
  }

  /** Accepting a packet leaves the queue alone until its payload is stored. */
  lemma {:induction false} CheckQueue(s: State, t: State)
    requires History(s) && s.producer.PLocked? && t.producer == PTagged(s.producer.p)
    requires t.accepted == s.accepted + [s.producer.p] && t.delivered == s.delivered && t.consumer == s.consumer
    ensures History(t) && Queue(t) == Queue(s)
  {
    assert InFlight(t) == InFlight(s);
    assert Plains(t.accepted)[..|s.accepted|] == Plains(s.accepted);
    assert Queue(t) == t.accepted[Taken(s)..|s.accepted|] == Queue(s);
  }

  lemma {:induction false} CheckKeeps(s: State)
    requires Inv(s) && Enabled(s, Check) && RoomFor(s, Check)
    ensures Inv(Next(s, Check))
  {
    if Space(s) >= |s.producer.p| {
      var t := Next(s, Check);
      assert t.ring == s.ring + Tag(|s.producer.p|);
      CheckQueue(s, t);
    } else {
      SameQueue(s, Next(s, Check));
    }
  }

  /** Storing the payload puts the packet at the end of the queue. */
  lemma {:induction false} StoreQueue(s: State, t: State)
    requires History(s) && s.producer.PTagged? && !t.producer.PTagged?
    requires t.accepted == s.accepted && t.delivered == s.delivered && t.consumer == s.consumer
    ensures History(t) && Queue(t) == Queue(s) + [s.producer.p]
  {
    var k, n := Taken(s), |s.accepted|;
    assert InFlight(t) == InFlight(s);
    assert s.accepted[k..] == s.accepted[k..n - 1] + [s.accepted[n - 1]];
  }

  lemma {:induction false} StoreKeeps(s: State)
    requires Inv(s) && Enabled(s, Store)
    ensures Inv(Next(s, Store))
  {
    var t := Next(s, Store);
    StoreQueue(s, t);
    FramesAppend(Queue(s), s.producer.p);
    assert t.ring == Frames(Queue(s)) + Frame(s.producer.p);
  }

  lemma {:induction false} LoopReads(s: State, q: seq<Packet>)
    requires Enabled(s, Loop) && q != [] && s.ring == Frames(q)
    ensures Next(s, Loop).consumer == CTagged(|q[0]|) && Next(s, Loop).ring == q[0] + Frames(q[1..])
  {
    assert s.ring == Tag(|q[0]|) + (q[0] + Frames(q[1..]));
    assert s.ring[..2] + [0, 0][2..] == Tag(|q[0]|);
    TagRoundTrip(|q[0]|);
  }

  lemma SameQueue(s: State, t: State)
    requires History(s) && t.accepted == s.accepted && t.delivered == s.delivered
    requires InFlight(t) == InFlight(s) && t.producer.PTagged? == s.producer.PTagged?
    requires t.producer.PTagged? ==> t.producer == s.producer
    ensures History(t) && Queue(t) == Queue(s)
  {
  }

  lemma {:induction false} LoopKeeps(s: State)
    requires Inv(s) && Enabled(s, Loop)
    ensures Inv(Next(s, Loop))
  {
    SameQueue(s, Next(s, Loop));
    if |s.ring| > 0 {
      LoopReads(s, Queue(s));
    }
  }

  lemma {:induction false} FetchSplits(s: State, p: Packet, tail: seq<Byte>)
    requires s.consumer.CTagged? && s.consumer.len == |p| <= |s.buffer| && s.ring == p + tail
    ensures Next(s, Fetch).consumer == CHolding(Plain(p)) && Next(s, Fetch).ring == tail
    ensures |Next(s, Fetch).buffer| == |s.buffer|
  {
    assert s.ring[..|p|] == p && s.ring[|p|..] == tail;
  }

  lemma {:induction false} FetchQueue(s: State, t: State)
    requires History(s) && s.consumer.CTagged? && !s.producer.PTagged? && |Queue(s)| > 0
    requires t.accepted == s.accepted && t.delivered == s.delivered && t.producer == s.producer
    requires t.consumer == CHolding(Plain(Queue(s)[0]))
    ensures History(t) && Queue(t) == Queue(s)[1..]
  {
    var n := |s.delivered|;
    assert s.delivered + InFlight(s) == s.delivered;
    assert Queue(s)[0] == s.accepted[n];
    assert Plains(s.accepted)[..n + 1] == s.delivered + [Plain(s.accepted[n])];
  }

  /** The tag of a whole frame never asks for more than the receive buffer holds. */
  lemma {:induction false} TagFits(s: State)
    requires Inv(s) && s.consumer.CTagged?
    ensures s.consumer.len <= |s.buffer|
  {
    var n := Taken(s);
    assert Queue(s)[0] == s.accepted[n];
  }

  lemma {:induction false} FetchKeeps(s: State)
    requires Inv(s) && Enabled(s, Fetch)
    ensures Inv(Next(s, Fetch))
  {
    var t, q := Next(s, Fetch), Queue(s);
    TagFits(s);
    FetchSplits(s, q[0], Frames(q[1..]));
    FetchQueue(s, t);
  }

  lemma {:induction false} DeliverKeeps(s: State)
    requires Inv(s) && Enabled(s, Deliver)
    ensures Inv(Next(s, Deliver))
  {
    var t := Next(s, Deliver);
    assert t.delivered + InFlight(t) == s.delivered + InFlight(s);
    assert Queue(t) == Queue(s);
  }

  lemma {:induction false} OtherKeeps(s: State, e: Step)
    requires Inv(s) && Enabled(s, e)
    requires e.Recv? || e.PUnlock? || e.Notify? || e.Start? || e.Lock? || e.CUnlock?
    ensures Inv(Next(s, e))
  {
    SameQueue(s, Next(s, e));
  }

  lemma {:induction false} StepKeeps(s: State, e: Step)
    requires Inv(s) && Enabled(s, e) && RoomFor(s, e)
    ensures Inv(Next(s, e))
  {
    match e
    case Check => CheckKeeps(s);
    case Store => StoreKeeps(s);
    case Loop => LoopKeeps(s);
    case Fetch => FetchKeeps(s);
    case Deliver => DeliverKeeps(s);
    case _ => OtherKeeps(s, e);
  }

  // ---------------------------------------------------------------- whole runs

  /** A run: every step is enabled where it is taken. */
  ghost predicate Run(s: State, steps: seq<Step>)
    decreases |steps|
  {
    steps == [] || (Enabled(s, steps[0]) && Run(Next(s, steps[0]), steps[1..]))
  }

  ghost function After(s: State, steps: seq<Step>): State
    requires Run(s, steps)
    decreases |steps|
  {
    if steps == [] then s else After(Next(s, steps[0]), steps[1..])
  }

  ghost predicate RoomThroughout(s: State, steps: seq<Step>)
    requires Run(s, steps)
    decreases |steps|
  {
    steps == [] || (RoomFor(s, steps[0]) && RoomThroughout(Next(s, steps[0]), steps[1..]))
  }

  lemma {:induction false} RunKeeps(s: State, steps: seq<Step>)
    requires Inv(s) && Run(s, steps) && RoomThroughout(s, steps)
    ensures Inv(After(s, steps))
    decreases |steps|
  {
    if steps != [] {
      StepKeeps(s, steps[0]);
      RunKeeps(Next(s, steps[0]), steps[1..]);
    }
  }

  /** Whatever happens, the receive buffer keeps its size. */
  lemma {:induction false} BufferSizeFixed(s: State, steps: seq<Step>)
    requires Run(s, steps)
    ensures |After(s, steps).buffer| == |s.buffer|
    decreases |steps|
  {
    if steps != [] {
      assert |Next(s, steps[0]).buffer| == |s.buffer|;
      BufferSizeFixed(Next(s, steps[0]), steps[1..]);
    }
  }

  /** In every interleaving in which each accepted packet fits the receive buffer and finds
      room for its tag: whenever the mutex is free the ring holds exactly the accepted
      packets not yet taken, framed and in order; the handler has seen a prefix of the
      accepted packets; a nonempty ring is always still going to be looked at; no tag read
      asks for more than the receive buffer holds, no copy runs past it, and for every
      packet that is not empty the handler is told a size within it. */
  lemma {:induction false} TransportCorrect(capacity: nat, bufferSize: nat, steps: seq<Step>)
    requires Run(Init(capacity, bufferSize), steps) && RoomThroughout(Init(capacity, bufferSize), steps)
    ensures var s := After(Init(capacity, bufferSize), steps);
      && s.delivered + InFlight(s) <= Plains(s.accepted)
      && (s.mutex.Nobody? ==> s.ring == Frames(s.accepted[Taken(s)..]))
      && (s.ring != [] ==> Watched(s))
      && (s.consumer.CTagged? ==> s.consumer.len <= bufferSize) && !s.consumer.COverrun?
      && forall i :: 0 <= i < |s.delivered| && s.accepted[i] != [] ==> 1 + s.delivered[i].size <= bufferSize
  {
    RunKeeps(Init(capacity, bufferSize), steps);
    BufferSizeFixed(Init(capacity, bufferSize), steps);
    var s := After(Init(capacity, bufferSize), steps);
    if s.mutex.Nobody? {
      assert Queue(s) == s.accepted[Taken(s)..];
    }
    if s.consumer.CTagged? {
      TagFits(s);
    }
    SizesFit(s);
  }

  lemma {:induction false} SizesFit(s: State)
    requires History(s) && BufferSafe(s)
    ensures forall i :: 0 <= i < |s.delivered| && s.accepted[i] != [] ==> 1 + s.delivered[i].size <= |s.buffer|
  {
    forall i | 0 <= i < |s.delivered| && s.accepted[i] != []
      ensures 1 + s.delivered[i].size <= |s.buffer|
    {
      assert s.delivered[i] == (s.delivered + InFlight(s))[i] == Plains(s.accepted)[i];
      SizeToldExact(|s.accepted[i]|, |s.buffer|);
    }
  }

  /** The handler is told of more than a buffer of `size` bytes exactly when the tag asks for
      more - or is zero, which the subtraction turns into the largest size there is. */
  lemma SizeToldExact(tag: nat, size: nat)
    requires tag < 65536
    ensures 1 + SizeTold(tag) > size <==> if tag == 0 then size < 65536 else tag > size
  {
  }

  /** What one read of the ring does to the receive buffer, with or without sound framing:
      the copy runs past it exactly when the tag and the bytes available both exceed it;
      otherwise the handler is told of more than the buffer exactly as above. */
  lemma {:induction false} FetchExact(s: State)
    requires s.consumer.CTagged? && s.consumer.len < 65536
    ensures var c, size := Next(s, Fetch).consumer, |s.buffer|;
      && (c.COverrun? <==> s.consumer.len > size && |s.ring| > size)
      && (c.COverrun? || c.CHolding?)
      && (c.CHolding? ==>
            (1 + c.d.size > size <==> if s.consumer.len == 0 then size < 65536 else s.consumer.len > size))
  {
    SizeToldExact(s.consumer.len, |s.buffer|);
  }

  // ---------------------------------------------------------------- rings too small to overrun

  /** At most two bytes less than the ring holds are left when a tag has been read. */
  ghost predicate Confined(s: State) {
    && |s.ring| <= s.capacity <= |s.buffer| + 2
    && !s.consumer.COverrun?
    && MutexOk(s)
    && (s.consumer.CTagged? ==> s.ring == [] || |s.ring| + 2 <= s.capacity)
  }

  lemma StepConfined(s: State, e: Step)
    requires Confined(s) && Enabled(s, e)
    ensures Confined(Next(s, e))
  {
  }

  lemma {:induction false} RunConfined(s: State, steps: seq<Step>)
    requires Confined(s) && Run(s, steps)
    ensures Confined(After(s, steps))
    decreases |steps|
  {
    if steps != [] {
      StepConfined(s, steps[0]);
      RunConfined(Next(s, steps[0]), steps[1..]);
    }
  }

  /** Whatever arrives, with or without room, a ring of at most two bytes more than the
      receive buffer never makes a copy run past that buffer. */
  lemma {:induction false} SmallRingNeverOverruns(capacity: nat, bufferSize: nat, steps: seq<Step>)
    requires capacity <= bufferSize + 2 && Run(Init(capacity, bufferSize), steps)
    ensures !After(Init(capacity, bufferSize), steps).consumer.COverrun?
  {
    RunConfined(Init(capacity, bufferSize), steps);
  }

  // ---------------------------------------------------------------- nothing is stranded

  function ProducerWork(p: Producer): nat {
    match p
    case PIdle => 0 case PLocked(_) => 13 case PTagged(_) => 12 case PStored => 5 case PNotify => 4
  }

  function ConsumerWork(c: Consumer): nat {
    match c
    case CIdle => 0 case CWait => 2 case CLoop => 1 case CTagged(_) => 5 case CHolding(_) => 4 case CDeliver(_) => 3 case COverrun => 0
  }

  function Load(p: Producer, c: Consumer, pending: bool, queued: nat): nat
    requires c.CTagged? ==> queued > 0
  {
    ProducerWork(p) + ConsumerWork(c) + (if pending then 3 else 0) + 6 * (if c.CTagged? then queued - 1 else queued)
  }

  function Work(s: State): nat
    requires History(s) && (s.consumer.CTagged? ==> |Queue(s)| > 0)
  {
    Load(s.producer, s.consumer, s.pending, |Queue(s)|)
  }

  lemma MutexKeepsTaggedApart(s: State)
    requires Inv(s)
    ensures s.consumer.CTagged? ==> |Queue(s)| > 0
  {
  }

  function Growth(e: Step): int { if e.Store? then 1 else if e.Fetch? then -1 else 0 }

  lemma QueueSize(s: State, e: Step)
    requires Queued(s) && Enabled(s, e) && Queued(Next(s, e)) && !Next(s, e).consumer.COverrun?
    ensures |Queue(Next(s, e))| == |Queue(s)| + Growth(e)
  {
  }

  lemma LoadDrops(s: State, e: Step, n: nat)
    requires Enabled(s, e) && !e.Recv? && n + Growth(e) >= 0 && !Next(s, e).consumer.COverrun?
    requires (s.consumer.CTagged? ==> n > 0) && (Next(s, e).consumer.CTagged? ==> n + Growth(e) > 0)
    ensures var t := Next(s, e);
      Load(t.producer, t.consumer, t.pending, n + Growth(e)) < Load(s.producer, s.consumer, s.pending, n)
  {
  }

  /** Every step other than the arrival of a packet brings the transport closer to rest. */
  lemma {:induction false} StepProgress(s: State, e: Step)
    requires Inv(s) && Enabled(s, e) && RoomFor(s, e) && !e.Recv?
    ensures Inv(Next(s, e))
    ensures s.consumer.CTagged? ==> |Queue(s)| > 0
    ensures Next(s, e).consumer.CTagged? ==> |Queue(Next(s, e))| > 0
    ensures Work(Next(s, e)) < Work(s)
  {
    StepKeeps(s, e);
    MutexKeepsTaggedApart(s);
    MutexKeepsTaggedApart(Next(s, e));
    QueueSize(s, e);
    LoadDrops(s, e, |Queue(s)|);
  }

  /** With no further arrivals the two threads together take at most `Work(s)` steps. */
  lemma {:induction false} QuietRunEnds(s: State, steps: seq<Step>)
    requires Inv(s) && Run(s, steps) && RoomThroughout(s, steps)
    requires forall e :: e in steps ==> !e.Recv?
    ensures s.consumer.CTagged? ==> |Queue(s)| > 0
    ensures |steps| <= Work(s)
    decreases |steps|
  {
    MutexKeepsTaggedApart(s);
    if steps != [] {
      StepProgress(s, steps[0]);
      QuietRunEnds(Next(s, steps[0]), steps[1..]);
    }
  }

  lemma {:induction false} RestIsIdle(s: State)
    requires Inv(s)
    requires forall e: Step :: Enabled(s, e) ==> e.Recv?
    ensures s.producer.PIdle? && s.consumer.CIdle? && s.ring == []
  {
    assert !Enabled(s, Check) && !Enabled(s, Store) && !Enabled(s, PUnlock) && !Enabled(s, Notify);
    assert !Enabled(s, Start) && !Enabled(s, Loop) && !Enabled(s, Fetch) && !Enabled(s, CUnlock) && !Enabled(s, Deliver);
    assert !Enabled(s, Lock);
  }

  /** At rest, when no step but an arrival is possible, every accepted packet was delivered. */
  lemma {:induction false} RestMeansDelivered(s: State)
    requires Inv(s)
    requires forall e: Step :: Enabled(s, e) ==> e.Recv?
    ensures s.delivered == Plains(s.accepted) && s.ring == []
  {
    RestIsIdle(s);
    assert s.delivered + InFlight(s) == s.delivered;
    assert Frames(Queue(s)) == [];
    assert Queue(s) == s.accepted[|s.delivered|..];
    assert Queue(s) == [];
    assert Plains(s.accepted)[..|s.accepted|] == Plains(s.accepted);
  }

  // ---------------------------------------------------------------- the missing two bytes

  /** The controller task's steps for one packet, with the mutex held throughout. */
  function StoreOne(s: State): State
    requires s.producer.PLocked? && Space(s) >= |s.producer.p|
  {
    Next(Next(Next(s, Check), Store), PUnlock)
  }

  /** The space test forgets the tag: from any good state an accepted packet leaves a good
      state - the ring holding exactly the accepted packets, each of which fits the receive
      buffer - if and only if there was room for the packet and two more bytes and the
      packet fits that buffer. */
  lemma {:induction false} FramingExact(s: State)
    requires Inv(s) && s.producer.PLocked? && Space(s) >= |s.producer.p|
    ensures Inv(StoreOne(s)) <==> Free(s) >= |s.producer.p| + 2 && |s.producer.p| <= |s.buffer|
  {
    var p, t := s.producer.p, StoreOne(s);
    if Free(s) >= |p| + 2 && |p| <= |s.buffer| {
      StepKeeps(s, Check);
      StepKeeps(Next(s, Check), Store);
      StepKeeps(Next(Next(s, Check), Store), PUnlock);
    } else if |p| > |s.buffer| {
      assert t.accepted[|s.accepted|] == p;
    } else {
      CheckQueue(s, Next(s, Check));
      StoreQueue(Next(s, Check), t);
      if Inv(t) {
        FramesAppend(Queue(s), p);
        assert false;
      }
    }
  }

  // ---------------------------------------------------------------- the callbacks on the real ring

  function Written(capacity: nat, ring: seq<Byte>, data: seq<Byte>): seq<Byte> {
    if |data| <= capacity - |ring| then ring + data else ring
  }

  /** The ring after `host_recv_pkt_cb`. */
  function Received(capacity: nat, ring: seq<Byte>, p: Packet): seq<Byte> {
    if (capacity - |ring|) % 65536 < |p| then ring
    else Written(capacity, Written(capacity, ring, Tag(|p|)), p)
  }

  /** The length tag at the front of the ring (missing tag bytes read as zero). */
  function FrontTag(ring: seq<Byte>): nat {
    var k := Min(2, |ring|);
    TagValue(ring[..k] + [0, 0][k..])
  }

  /** The payload bytes that one turn of the loop in `transport_deliver_packets` finds. */
  function FrontBytes(ring: seq<Byte>): (p: seq<Byte>)
    ensures |p| == Min(FrontTag(ring), |ring| - Min(2, |ring|))
  {
    var rest := ring[Min(2, |ring|)..];
    rest[..Min(FrontTag(ring), |rest|)]
  }

  function BehindFront(ring: seq<Byte>): (r: seq<Byte>)
    ensures ring != [] ==> |r| < |ring|
  {
    var rest := ring[Min(2, |ring|)..];
    rest[Min(FrontTag(ring), |rest|)..]
  }

  /** The packets handed over, and whether the loop then ran past the receive buffer. */
  datatype Drain = Drain(handled: seq<Delivery>, overrun: bool)

  /** What an undisturbed `transport_deliver_packets` hands to the packet handler. */
  function Drained(ring: seq<Byte>, buffer: seq<Byte>): Drain
    decreases |ring|
  {
    if ring == [] then Drain([], false)
    else if |FrontBytes(ring)| > |buffer| then Drain([], true)
    else
      var b := Overlay(buffer, FrontBytes(ring));
      var later := Drained(BehindFront(ring), b);
      Drain([Handed(b, FrontTag(ring))] + later.handled, later.overrun)
  }

  predicate AllFit(ps: seq<Packet>, size: nat) { forall i :: 0 <= i < |ps| ==> |ps[i]| <= size }

  lemma {:induction false} FrontOfFrames(p: Packet, tail: seq<Byte>)
    ensures var ring := Frame(p) + tail;
      FrontTag(ring) == |p| && FrontBytes(ring) == p && BehindFront(ring) == tail
  {
    var ring := Frame(p) + tail;
    assert ring[..2] + [0, 0][2..] == Tag(|p|);
    assert ring[2..] == p + tail;
    TagRoundTrip(|p|);
  }

  lemma {:induction false} DrainedFront(p: Packet, tail: seq<Byte>, buffer: seq<Byte>)
    ensures var later := Drained(tail, Overlay(buffer, p));
      Drained(Frame(p) + tail, buffer)
      == if |p| > |buffer| then Drain([], true) else Drain([Plain(p)] + later.handled, later.overrun)
  {
    FrontOfFrames(p, tail);
    assert |p| <= |buffer| ==> Handed(Overlay(buffer, p), |p|) == Plain(p);
  }

  lemma {:induction false} AllFitTail(ps: seq<Packet>, size: nat)
    requires ps != []
    ensures AllFit(ps, size) <==> |ps[0]| <= size && AllFit(ps[1..], size)
  {
    assert forall i :: 0 < i < |ps| ==> ps[i] == ps[1..][i - 1];
  }

  /** Draining decodes exactly what was framed, whatever the buffer held, and overruns the
      buffer exactly when some packet is longer than it. */
  lemma {:induction false} DrainedFrames(ps: seq<Packet>, buffer: seq<Byte>)
    ensures Drained(Frames(ps), buffer).overrun <==> !AllFit(ps, |buffer|)
    ensures AllFit(ps, |buffer|) ==> Drained(Frames(ps), buffer).handled == Plains(ps)
    decreases |ps|
  {
    if ps != [] {
      DrainedFront(ps[0], Frames(ps[1..]), buffer);
      AllFitTail(ps, |buffer|);
      DrainedFrames(ps[1..], Overlay(buffer, ps[0]));
      assert Plains(ps) == [Plain(ps[0])] + Plains(ps[1..]);
    }
  }

  lemma ReceivedIsSteps(s: State)
    requires s.producer.PLocked? && Space(s) >= |s.producer.p|
    ensures StoreOne(s).ring == Received(s.capacity, s.ring, s.producer.p)
  {
  }

  method HostRecvPkt(ring: Ring, data: Packet) returns (notify: bool)
    requires ring.Valid()
    modifies ring, ring.storage
    ensures ring.Valid()
    ensures ring.Contents() == Received(ring.storage.Length, old(ring.Contents()), data)
    ensures notify == ((ring.storage.Length - |old(ring.Contents())|) % 65536 >= |data|)
  {
    var free := ring.BytesFree();
    var space := free % 65536;
    if space < |data| {
      return false;
    }
    var _ := ring.Write(Tag(|data|));
    var _ := ring.Write(data);
    return true;
  }

  /** One turn of the loop, with the mutex held.  `None` stands for a copy that runs past
      the receive buffer, after which the model promises nothing.  That happens exactly when
      the tag and the bytes available behind it both exceed the buffer. */
  method TakePacket(ring: Ring, buffer: array<Byte>) returns (packet: Option<Delivery>)
    requires ring.Valid() && ring.Contents() != [] && buffer != ring.storage
    modifies ring, ring.storage, buffer
    ensures ring.Valid()
    ensures var was := old(ring.Contents());
      packet.None? <==> FrontTag(was) > buffer.Length && |was| - Min(2, |was|) > buffer.Length
    ensures packet.Some? ==>
      && buffer[..] == Overlay(old(buffer[..]), FrontBytes(old(ring.Contents())))
      && packet.value == Handed(buffer[..], FrontTag(old(ring.Contents())))
      && ring.Contents() == BehindFront(old(ring.Contents()))
  {
    var tag := ring.Read(2);
    var len := TagValue(tag + [0, 0][|tag|..]);
    var data := ring.Read(len);
    if |data| > buffer.Length {
      return None;
    }
    CopyTo(buffer, data);
    packet := Some(Delivery(buffer[..Min(len, buffer.Length)], SizeTold(len)));
  }

  method CopyTo(buffer: array<Byte>, data: seq<Byte>)
    requires |data| <= buffer.Length
    modifies buffer
    ensures buffer[..] == Overlay(old(buffer[..]), data)
  {
    forall i | 0 <= i < |data| {
      buffer[i] := data[i];
    }
  }

  method DeliverPackets(ring: Ring, buffer: array<Byte>) returns (handled: seq<Delivery>, overrun: bool)
    requires ring.Valid() && buffer != ring.storage
    modifies ring, ring.storage, buffer
    ensures ring.Valid()
    ensures Drain(handled, overrun) == Drained(old(ring.Contents()), old(buffer[..]))
    ensures !overrun ==> ring.Contents() == []
  {
    handled, overrun := [], false;
    ghost var start, bytes, was, b := ring.Contents(), ring.Contents(), buffer[..], buffer[..];
    var available := ring.BytesAvailable();
    while available != 0
      invariant ring.Valid() && bytes == ring.Contents() && b == buffer[..] && available == |bytes|
      invariant Resumed(handled, Drained(bytes, b)) == Drained(start, was)
      decreases available
    {
      DrainedStep(handled, bytes, b);
      var packet := TakePacket(ring, buffer);
      if packet.None? {
        return handled, true;
      }
      handled := handled + [packet.value];
      bytes, b := BehindFront(bytes), Overlay(b, FrontBytes(bytes));
      available := ring.BytesAvailable();
    }
  }

  ghost function Resumed(handled: seq<Delivery>, rest: Drain): Drain {
    Drain(handled + rest.handled, rest.overrun)
  }

  lemma DrainedStep(handled: seq<Delivery>, bytes: seq<Byte>, b: seq<Byte>)
    requires bytes != []
    ensures |FrontBytes(bytes)| > |b| ==> Resumed(handled, Drained(bytes, b)) == Drain(handled, true)
    ensures |FrontBytes(bytes)| <= |b| ==>
      var b' := Overlay(b, FrontBytes(bytes));
      Resumed(handled, Drained(bytes, b))
      == Resumed(handled + [Handed(b', FrontTag(bytes))], Drained(BehindFront(bytes), b'))
  {
  }
}
