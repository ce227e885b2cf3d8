/** Runs of the HCI packet transport in which a packet was accepted without room for its tag,
    or is empty: what is lost, what the packet handler is told, and when the copy to the
    receive buffer runs past its end. */
module HciFaults {
  import opened Common
  import opened HciTransport

  // ---------------------------------------------------------------- building runs

  /** `t` is the end of some run from `s`. */
  ghost predicate Reachable(s: State, t: State) {
    exists steps :: Run(s, steps) && After(s, steps) == t
  }

  lemma {:induction false} ReachSelf(s: State)
    ensures Reachable(s, s)
  {
    assert Run(s, []) && After(s, []) == s;
  }

  lemma {:induction false} ReachStep(s: State, t: State, e: Step)
    requires Reachable(s, t) && Enabled(t, e)
    ensures Reachable(s, Next(t, e))
  {
    var steps :| Run(s, steps) && After(s, steps) == t;
    assert Run(Next(t, e), []) && After(Next(t, e), []) == Next(t, e);
    assert [e][1..] == [];
    assert Run(t, [e]) && After(t, [e]) == Next(t, e);
    RunConcat(s, steps, [e]);
    assert Run(s, steps + [e]);
  }

  lemma {:induction false} RunConcat(s: State, a: seq<Step>, b: seq<Step>)
    requires Run(s, a) && Run(After(s, a), b)
    ensures Run(s, a + b) && After(s, a + b) == After(After(s, a), b)
    decreases |a|
  {
    if a == [] {
      assert a + b == b;
    } else {
      assert (a + b)[0] == a[0] && (a + b)[1..] == a[1..] + b;
      RunConcat(Next(s, a[0]), a[1..], b);
    }
  }

  /** The state after the controller task handled one packet undisturbed. */
  function Having(s: State, p: Packet): State {
    s.(ring := Received(s.capacity, s.ring, p), pending := true, accepted := s.accepted + [p])
  }

  lemma {:induction false} ReceiveReaches(s: State, t: State, p: Packet)
    requires Reachable(s, t) && t.producer.PIdle? && t.mutex.Nobody? && Space(t) >= |p|
    ensures Reachable(s, Having(t, p))
  {
    var t1 := Next(t, Recv(p));
    ReachStep(s, t, Recv(p));
    var t2 := Next(t1, Check);
    ReachStep(s, t1, Check);
    var t3 := Next(t2, Store);
    ReachStep(s, t2, Store);
    ReachStep(s, t3, PUnlock);
    ReachStep(s, Next(t3, PUnlock), Notify);
    ReceivedIsSteps(t1);
    assert Next(Next(t3, PUnlock), Notify) == Having(t, p);
  }

  /** The state after the main thread took one packet undisturbed. */
  function Served(s: State): State {
    var b := Overlay(s.buffer, FrontBytes(s.ring));
    s.(ring := BehindFront(s.ring), buffer := b, delivered := s.delivered + [Handed(b, FrontTag(s.ring))])
  }

  lemma {:induction false} TakeReaches(s: State, t: State)
    requires Reachable(s, t) && t.consumer.CWait? && t.mutex.Nobody?
    requires t.ring != [] && |FrontBytes(t.ring)| <= |t.buffer|
    ensures Reachable(s, Served(t))
  {
    ReachStep(s, t, Lock);
    var t1 := Next(t, Lock);
    ReachStep(s, t1, Loop);
    var t2 := Next(t1, Loop);
    ReachStep(s, t2, Fetch);
    var t3 := Next(t2, Fetch);
    ReachStep(s, t3, CUnlock);
    ReachStep(s, Next(t3, CUnlock), Deliver);
    assert Next(Next(t3, CUnlock), Deliver) == Served(t);
  }

  lemma {:induction false} OverrunReaches(s: State, t: State) returns (u: State)
    requires Reachable(s, t) && t.consumer.CWait? && t.mutex.Nobody?
    requires t.ring != [] && |FrontBytes(t.ring)| > |t.buffer|
    ensures Reachable(s, u) && u.consumer.COverrun? && u.accepted == t.accepted
  {
    ReachStep(s, t, Lock);
    var t1 := Next(t, Lock);
    ReachStep(s, t1, Loop);
    var t2 := Next(t1, Loop);
    ReachStep(s, t2, Fetch);
    u := Next(t2, Fetch);
  }

  // ---------------------------------------------------------------- steps between rests

  /** What matters of a state in which neither thread is at work on the ring; `called` tells
      that an idle main thread will be called if anything arrived. */
  datatype Rest = Rest(ring: seq<Byte>, accepted: seq<Packet>, main: Consumer, called: bool,
                       controller: Producer, mutex: Owner, capacity: nat, bufferSize: nat)

  function RestOf(t: State): Rest {
    Rest(t.ring, t.accepted, t.consumer, t.pending || !t.consumer.CIdle? || t.accepted == [],
         t.producer, t.mutex, t.capacity, |t.buffer|)
  }

  /** A run from `s` has come to `t`, where neither thread holds the mutex and the controller
      task is idle. */
  ghost predicate Rests(s: State, t: State, ring: seq<Byte>, accepted: seq<Packet>, main: Consumer) {
    Reachable(s, t) && RestOf(t) == Rest(ring, accepted, main, true, PIdle, Nobody, s.capacity, |s.buffer|)
  }

  /** The main thread did nothing. */
  predicate Unread(s: State, t: State) { (t.buffer, t.delivered) == (s.buffer, s.delivered) }

  lemma {:induction false} ReceivedRoom(capacity: nat, ring: seq<Byte>, p: Packet)
    requires capacity < 65536 && |ring| + |p| + 2 <= capacity
    ensures Received(capacity, ring, p) == ring + Frame(p)
  {
    assert (ring + Tag(|p|)) + p == ring + Frame(p);
  }

  lemma ReceivedNoRoom(capacity: nat, ring: seq<Byte>, p: Packet)
    requires capacity < 65536 && |ring| + |p| <= capacity < |ring| + |p| + 2 && |ring| + 2 <= capacity
    ensures Received(capacity, ring, p) == ring + Tag(|p|)
  {
  }

  /** A packet with room for its tag is stored whole. */
  lemma {:induction false} Stores(s: State, t: State, ring: seq<Byte>, accepted: seq<Packet>, main: Consumer, p: Packet) returns (u: State)
    requires Rests(s, t, ring, accepted, main) && s.capacity < 65536 && |ring| + |p| + 2 <= s.capacity
    ensures Rests(s, u, ring + Frame(p), accepted + [p], main)
    ensures Unread(t, u)
  {
    ReceiveReaches(s, t, p);
    ReceivedRoom(t.capacity, ring, p);
    u := Having(t, p);
  }

  /** A packet with room for its own bytes but not for its tag leaves only the tag. */
  lemma {:induction false} Loses(s: State, t: State, ring: seq<Byte>, accepted: seq<Packet>, main: Consumer, p: Packet) returns (u: State)
    requires Rests(s, t, ring, accepted, main)
    requires |ring| + |p| <= s.capacity < |ring| + |p| + 2 && |ring| + 2 <= s.capacity < 65536
    ensures Rests(s, u, ring + Tag(|p|), accepted + [p], main)
    ensures Unread(t, u)
  {
    ReceiveReaches(s, t, p);
    ReceivedNoRoom(t.capacity, ring, p);
    u := Having(t, p);
  }

  lemma {:induction false} Starts(s: State, t: State, ring: seq<Byte>, accepted: seq<Packet>) returns (u: State)
    requires Rests(s, t, ring, accepted, CIdle) && accepted != []
    ensures Rests(s, u, ring, accepted, CWait)
    ensures Unread(t, u)
  {
    ReachStep(s, t, Start);
    u := Next(t, Start);
  }

  /** The front of the ring as the main thread reads it: a tag, the bytes it finds for it and
      the rest. */
  predicate Cut(ring: seq<Byte>, tag: nat, data: seq<Byte>, tail: seq<Byte>) {
    ring != [] && FrontTag(ring) == tag && FrontBytes(ring) == data && BehindFront(ring) == tail
  }

  predicate Handled(s: State, t: State, tag: nat, data: seq<Byte>) {
    (t.buffer, t.delivered) == (Overlay(s.buffer, data), s.delivered + [Handed(t.buffer, tag)])
  }

  lemma {:induction false} Takes(s: State, t: State, ring: seq<Byte>, accepted: seq<Packet>, tag: nat, data: seq<Byte>, tail: seq<Byte>)
    returns (u: State)
    requires Rests(s, t, ring, accepted, CWait) && Cut(ring, tag, data, tail) && |data| <= |s.buffer|
    ensures Rests(s, u, tail, accepted, CWait)
    ensures Handled(t, u, tag, data)
  {
    TakeReaches(s, t);
    u := Served(t);
  }

  lemma {:induction false} FrameCut(p: Packet, tail: seq<Byte>)
    ensures Cut(Frame(p) + tail, |p|, p, tail)
  {
    FrontOfFrames(p, tail);
  }

  lemma {:induction false} ByteCut(len: Byte, data: seq<Byte>, tail: seq<Byte>)
    requires |data| == len
    ensures Cut([len, 0] + (data + tail), len, data, tail)
  {
    var ring := [len, 0] + (data + tail);
    Front(ring, len, 0);
    assert ring[2..] == data + tail;
  }

  /** A tag that asks for more than is there gets what is there. */
  lemma {:induction false} ShortCut(lo: Byte, hi: Byte, data: seq<Byte>)
    requires lo as int + 256 * (hi as int) >= |data|
    ensures Cut([lo, hi] + data, lo as int + 256 * (hi as int), data, [])
  {
    var ring := [lo, hi] + data;
    Front(ring, lo, hi);
    assert ring[2..] == data;
  }

  lemma {:induction false} Front(ring: seq<Byte>, lo: Byte, hi: Byte)
    requires |ring| >= 2 && ring[0] == lo && ring[1] == hi
    ensures FrontTag(ring) == lo as int + 256 * (hi as int)
  {
    assert ring[..2] + [0, 0][2..] == [lo, hi];
  }

  // ---------------------------------------------------------------- what goes wrong

  const NOTHING: Packet := []
  const TWO: Packet := [1, 1]
  const LOST: Packet := [7, 8, 9]
  const HIGH: Packet := [255, 255, 255, 255]

  lemma {:induction false} Begins(capacity: nat, size: nat)
    ensures Rests(Init(capacity, size), Init(capacity, size), [], [], CIdle)
  {
    ReachSelf(Init(capacity, size));
  }

  lemma {:induction false} FirstStored(s: State, p: Packet) returns (t: State)
    requires s == Init(s.capacity, |s.buffer|) && |p| + 2 <= s.capacity < 65536
    ensures Rests(s, t, Frame(p), [p], CIdle)
    ensures Unread(s, t)
  {
    Begins(s.capacity, |s.buffer|);
    t := Stores(s, s, [], [], CIdle, p);
    assert [] + Frame(p) == Frame(p) && [] + [p] == [p];
  }

  /** A three-byte packet passes the test of a four-byte ring, but only its tag is stored. */
  lemma {:induction false} PayloadLostWithoutRoom(size: nat) returns (end: State)
    ensures Rests(Init(4, size), end, [3, 0], [LOST], CIdle)
  {
    var s := Init(4, size);
    Begins(4, size);
    end := Loses(s, s, [], [], CIdle, LOST);
    assert [] + Tag(3) == [3, 0] && [] + [LOST] == [LOST];
  }

  /** In an eight-byte ring, behind a packet that was stored whole. */
  lemma {:induction false} TagWithoutPayload(size: nat) returns (t: State)
    ensures Rests(Init(8, size), t, Frame(TWO) + Tag(3), [TWO, LOST], CWait)
    ensures Unread(Init(8, size), t)
  {
    var s := Init(8, size);
    var s1 := FirstStored(s, TWO);
    var s2 := Loses(s, s1, Frame(TWO), [TWO], CIdle, LOST);
    assert [TWO] + [LOST] == [TWO, LOST];
    t := Starts(s, s2, Frame(TWO) + Tag(3), [TWO, LOST]);
  }

  lemma {:induction false} TagCut(n: nat)
    requires n < 65536
    ensures Cut(Tag(n), n, [], [])
  {
    TagRoundTrip(n);
    assert Tag(n)[..2] + [0, 0][2..] == Tag(n);
  }

  /** A tag without payload is served from what the receive buffer holds already. */
  lemma {:induction false} TakesLoneTag(s: State, t: State, accepted: seq<Packet>, n: nat) returns (u: State)
    requires n < 65536 && Rests(s, t, Tag(n), accepted, CWait)
    ensures Rests(s, u, [], accepted, CWait)
    ensures u.delivered == t.delivered + [Handed(t.buffer, n)]
  {
    TagCut(n);
    u := Takes(s, t, Tag(n), accepted, n, [], []);
    assert Overlay(t.buffer, []) == t.buffer;
  }

  /** A packet whose payload was lost is delivered all the same: with the bytes an earlier
      packet left in the receive buffer. */
  lemma {:induction false} StalePacketDelivered(size: nat) returns (end: State)
    requires size >= 3
    ensures Rests(Init(8, size), end, [], [TWO, LOST], CWait)
    ensures end.delivered == [Plain(TWO), Delivery([1, 1, 0], 2)]
  {
    var s := Init(8, size);
    var t := TagWithoutPayload(size);
    FrameCut(TWO, Tag(|LOST|));
    var u := Takes(s, t, Frame(TWO) + Tag(|LOST|), [TWO, LOST], |TWO|, TWO, Tag(|LOST|));
    end := TakesLoneTag(s, u, [TWO, LOST], |LOST|);
    StaleBytes(s.buffer, u.buffer);
    assert end.delivered == ([] + [Plain(TWO)]) + [Delivery([1, 1, 0], 2)];
  }

  lemma {:induction false} StaleBytes(zeros: seq<Byte>, b: seq<Byte>)
    requires |zeros| >= 3 && zeros[2] == 0 && b == Overlay(zeros, TWO)
    ensures Handed(b, |TWO|) == Plain(TWO) && Handed(b, |LOST|) == Delivery([1, 1, 0], 2)
  {
    assert b[..2] == TWO && b[2] == 0;
    assert b[..3] == b[..2] + [b[2]];
  }

  lemma {:induction false} OneServed(s: State, p: Packet) returns (u: State)
    requires s == Init(s.capacity, |s.buffer|) && |p| + 2 <= s.capacity < 65536 && |p| <= |s.buffer|
    ensures Rests(s, u, [], [p], CWait)
    ensures u.delivered == [Plain(p)]
  {
    var s1 := FirstStored(s, p);
    var t := Starts(s, s1, Frame(p), [p]);
    FrameCut(p, []);
    assert Frame(p) + [] == Frame(p);
    u := Takes(s, t, Frame(p), [p], |p|, p, []);
    assert u.delivered == [] + [Plain(p)];
  }

  /** An empty packet is framed soundly, but the handler is told of 65535 bytes. */
  lemma {:induction false} EmptyPacketTold(size: nat) returns (end: State)
    ensures Rests(Init(2, size), end, [], [NOTHING], CWait)
    ensures end.delivered == [Delivery([], 65535)]
  {
    end := OneServed(Init(2, size), NOTHING);
  }

  /** A tag without payload in front of a frame: three bytes of the frame are taken for the
      payload, and the rest of the frame for the next tag. */
  lemma {:induction false} WrongCut(tail: seq<Byte>)
    ensures Cut((Tag(3) + Frame(HIGH)) + tail, 3, [4, 0, 255], [255, 255, 255] + tail)
  {
    ByteCut(3, [4, 0, 255], [255, 255, 255] + tail);
    assert Tag(3) == [3, 0] && Frame(HIGH) == [4, 0, 255] + [255, 255, 255];
    assert (Tag(3) + Frame(HIGH)) + tail == [3, 0] + ([4, 0, 255] + ([255, 255, 255] + tail));
  }

  /** A packet stored behind a lone tag is cut in the wrong place, so that its payload is next
      in the ring. */
  lemma {:induction false} Misframed(s: State, t: State, accepted: seq<Packet>) returns (u: State)
    requires Rests(s, t, Tag(3), accepted, CWait) && 8 <= s.capacity < 65536 && |s.buffer| >= 3
    ensures Rests(s, u, [255, 255, 255], accepted + [HIGH], CWait)
    ensures |u.delivered| == |t.delivered| + 1
  {
    var t1 := Stores(s, t, Tag(3), accepted, CWait, HIGH);
    WrongCut([]);
    assert (Tag(3) + Frame(HIGH)) + [] == Tag(3) + Frame(HIGH) && [255, 255, 255] + [] == [255, 255, 255];
    u := Takes(s, t1, Tag(3) + Frame(HIGH), accepted + [HIGH], 3, [4, 0, 255], [255, 255, 255]);
  }

  /** Three packets of at most four bytes, each accepted by the space test of an eight-byte
      ring, the second stored without its payload: the third is then cut in the wrong
      place, its payload is taken for a tag, and the handler is told of 65534 bytes behind
      the type byte, whatever the size of the receive buffer.  The copy itself stays within
      that buffer. */
  lemma {:induction false} HugeSizeTold(size: nat) returns (end: State)
    requires size >= 4
    ensures Rests(Init(8, size), end, [], [TWO, LOST, HIGH], CWait)
    ensures |end.delivered| == 3 && end.delivered[2].size == 65534
  {
    var s := Init(8, size);
    var t := TagWithoutPayload(size);
    FrameCut(TWO, Tag(3));
    var t1 := Takes(s, t, Frame(TWO) + Tag(3), [TWO, LOST], 2, TWO, Tag(3));
    var u := Misframed(s, t1, [TWO, LOST]);
    assert [TWO, LOST] + [HIGH] == [TWO, LOST, HIGH];
    ShortCut(255, 255, [255]);
    assert [255, 255] + [255] == [255, 255, 255];
    end := Takes(s, u, [255, 255, 255], [TWO, LOST, HIGH], 65535, [255], []);
  }

  // ---------------------------------------------------------------- a copy past the buffer

  function Full(size: nat): (p: Packet)
    requires size < 65536
    ensures |p| == size
  {
    seq(size, _ => 1)
  }

  lemma {:induction false} FramesConcat(a: seq<Packet>, b: seq<Packet>)
    ensures Frames(a + b) == Frames(a) + Frames(b)
    decreases |a|
  {
    if a == [] {
      assert a + b == b;
    } else {
      assert (a + b)[0] == a[0] && (a + b)[1..] == a[1..] + b;
      FramesConcat(a[1..], b);
    }
  }

  lemma {:induction false} StoresAll(s: State, t: State, qs: seq<Packet>, ps: seq<Packet>) returns (u: State)
    requires Rests(s, t, Frames(qs), qs, CIdle) && |Frames(qs + ps)| <= s.capacity < 65536
    ensures Rests(s, u, Frames(qs + ps), qs + ps, CIdle)
    decreases |ps|
  {
    if ps == [] {
      assert qs + ps == qs;
      u := t;
    } else {
      var p, more := ps[0], qs + [ps[0]];
      assert qs + ps == more + ps[1..];
      FramesAppend(qs, p);
      FramesConcat(more, ps[1..]);
      var t1 := Stores(s, t, Frames(qs), qs, CIdle, p);
      u := StoresAll(s, t1, more, ps[1..]);
    }
  }

  lemma {:induction false} TakesAll(s: State, t: State, ps: seq<Packet>, tail: seq<Byte>, accepted: seq<Packet>)
    returns (u: State)
    requires Rests(s, t, Frames(ps) + tail, accepted, CWait) && AllFit(ps, |s.buffer|)
    ensures Rests(s, u, tail, accepted, CWait)
    decreases |ps|
  {
    if ps == [] {
      assert Frames(ps) + tail == tail;
      u := t;
    } else {
      var rest := Frames(ps[1..]) + tail;
      assert Frames(ps) + tail == Frame(ps[0]) + rest;
      FrameCut(ps[0], rest);
      AllFitTail(ps, |s.buffer|);
      var t1 := Takes(s, t, Frame(ps[0]) + rest, accepted, |ps[0]|, ps[0], rest);
      u := TakesAll(s, t1, ps[1..], tail, accepted);
    }
  }

  /** Packets of at most `size` bytes whose frames take exactly `n` bytes. */
  function Filling(n: nat, size: nat): (ps: seq<Packet>)
    requires 2 <= n < 65536 && size >= 1
    decreases n
  {
    if n <= size + 2 then [Full(n - 2)]
    else if n == size + 3 then [Full(size - 1), Full(0)]
    else [Full(size)] + Filling(n - size - 2, size)
  }

  lemma {:induction false} FillingExact(n: nat, size: nat)
    requires 2 <= n < 65536 && size >= 1
    ensures |Frames(Filling(n, size))| == n && AllFit(Filling(n, size), size)
    decreases n
  {
    var ps := Filling(n, size);
    assert Frames(ps) == Frame(ps[0]) + Frames(ps[1..]);
    if n > size + 3 {
      FillingExact(n - size - 2, size);
      assert ps[1..] == Filling(n - size - 2, size);
      AllFitTail(ps, size);
    } else if n == size + 3 {
      assert ps[1..] == [Full(0)];
      assert Frames([Full(0)]) == Frame(Full(0)) + Frames([]);
    }
  }

  /** The ring filled up to four bytes with whole packets, then a packet without its payload,
      and the whole ones taken: a lone tag is left. */
  lemma {:induction false} LoneTag(s: State, ps: seq<Packet>) returns (u: State)
    requires s == Init(s.capacity, |s.buffer|) && |Frames(ps)| + 4 == s.capacity < 65536 && ps != []
    requires AllFit(ps, |s.buffer|)
    ensures Rests(s, u, Tag(3), ps + [LOST], CWait)
  {
    Begins(s.capacity, |s.buffer|);
    assert [] + ps == ps;
    var s1 := StoresAll(s, s, [], ps);
    var s2 := Loses(s, s1, Frames(ps), ps, CIdle, LOST);
    var t := Starts(s, s2, Frames(ps) + Tag(3), ps + [LOST]);
    u := TakesAll(s, t, ps, Tag(3), ps + [LOST]);
  }

  /** Whenever the ring has at least three bytes more than the receive buffer, packets that
      all fit the buffer, each accepted by the space test, can make the copy run past it. */
  lemma {:induction false} OverrunWithoutRoom(capacity: nat, size: nat) returns (end: State)
    requires size >= 4 && 8 <= capacity < 65536 && size + 3 <= capacity
    ensures Reachable(Init(capacity, size), end) && end.consumer.COverrun? && AllFit(end.accepted, size)
  {
    var s, ps := Init(capacity, size), Filling(capacity - 4, size);
    FillingExact(capacity - 4, size);
    var t := LoneTag(s, ps);
    var u := Misframed(s, t, ps + [LOST]);
    var p := Full(if size + 5 <= capacity then size else capacity - 5);
    var v := Stores(s, u, [255, 255, 255], ps + [LOST] + [HIGH], CWait, p);
    ShortCut(255, 255, [255] + Frame(p));
    assert [255, 255] + ([255] + Frame(p)) == [255, 255, 255] + Frame(p);
    end := OverrunReaches(s, v);
    ThreeMore(ps, p, size);
  }

  lemma ThreeMore(ps: seq<Packet>, p: Packet, size: nat)
    requires AllFit(ps, size) && |p| <= size && size >= 4
    ensures AllFit(ps + [LOST] + [HIGH] + [p], size)
  {
  }

  /** The exact condition on the two sizes, for a ring of less than 64 kB and a receive buffer
      of at least five bytes: some run with packets that fit the buffer makes the copy run
      past it if and only if the ring has at least three bytes more than the buffer. */
  lemma {:induction false} OverrunPossibleIff(capacity: nat, size: nat)
    requires capacity < 65536 && size >= 5
    ensures (exists t :: Reachable(Init(capacity, size), t) && t.consumer.COverrun? && AllFit(t.accepted, size))
       <==> capacity >= size + 3
  {
    if capacity >= size + 3 {
      var end := OverrunWithoutRoom(capacity, size);
    } else {
      forall t | Reachable(Init(capacity, size), t)
        ensures !t.consumer.COverrun?
      {
        var steps :| Run(Init(capacity, size), steps) && After(Init(capacity, size), steps) == t;
        SmallRingNeverOverruns(capacity, size, steps);
      }
    }
  }
}
