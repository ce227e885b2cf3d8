/** The I2S playback and recording buffers of `btstack_audio_esp32_v4.c`. */
module AudioSink {
  import opened Common

  const MAX_SAMPLES: nat := 480   // MAX_DMA_BUFFER_SAMPLES
  const BYTES_PER_FRAME: nat := 4

  // ---------------------------------------------------------------- mono and stereo

  /** Each sample twice, as left and right. */
  function Doubled(s: seq<int>): (r: seq<int>)
    ensures |r| == 2 * |s|
  {
    seq(2 * |s|, i requires 0 <= i < 2 * |s| => s[i / 2])
  }

  /** The left samples of a stereo buffer. */
  function Left(s: seq<int>): (r: seq<int>)
    ensures |r| == |s| / 2
  {
    seq(|s| / 2, i requires 0 <= i < |s| / 2 => s[2 * i])
  }

  /** Recording what was played gives back the mono signal. */
  lemma LeftOfDoubled(s: seq<int>)
    ensures Left(Doubled(s)) == s
  {
  }

  predicate ChannelsAgree(s: seq<int>) { forall i :: 0 <= i < |s| / 2 ==> s[2 * i + 1] == Left(s)[i] }

  lemma DoubledAt(s: seq<int>, i: nat)
    requires i < |s|
    ensures Doubled(s)[2 * i] == s[i] && Doubled(s)[2 * i + 1] == s[i]
  {
    assert (2 * i) / 2 == i && (2 * i + 1) / 2 == i;
  }

  predicate SamePair(a: seq<int>, b: seq<int>, i: nat)
    requires |a| == |b| && 2 * i + 1 < |a|
  {
    a[2 * i] == b[2 * i] && a[2 * i + 1] == b[2 * i + 1]
  }

  lemma SamePairs(a: seq<int>, b: seq<int>)
    requires |a| == |b| && |a| % 2 == 0 && forall i :: 0 <= i < |a| / 2 ==> SamePair(a, b, i)
    ensures a == b
  {
    forall j | 0 <= j < |a|
      ensures a[j] == b[j]
    {
      assert SamePair(a, b, j / 2);
    }
  }

  /** A stereo buffer is a doubled mono one exactly when both channels agree. */
  lemma DoubledIff(s: seq<int>)
    requires |s| % 2 == 0
    ensures Doubled(Left(s)) == s <==> ChannelsAgree(s)
  {
    if Doubled(Left(s)) == s {
      forall i | 0 <= i < |s| / 2
        ensures s[2 * i + 1] == Left(s)[i]
      {
        DoubledAt(Left(s), i);
      }
    }
    if ChannelsAgree(s) {
      AgreeMeansDoubled(s);
    }
  }

  lemma AgreeMeansDoubled(s: seq<int>)
    requires |s| % 2 == 0 && ChannelsAgree(s)
    ensures Doubled(Left(s)) == s
  {
    forall i | 0 <= i < |s| / 2
      ensures SamePair(Doubled(Left(s)), s, i)
    {
      DoubledAt(Left(s), i);
      assert s[2 * i + 1] == Left(s)[i];
    }
    SamePairs(Doubled(Left(s)), s);
  }

  /** The loop's progress: samples `lo` to `n` of `was` are spread out in `now`, those below
      are still in place, and nothing behind the frames has moved. */
  predicate Spread(now: seq<int>, was: seq<int>, lo: nat, n: nat)
    requires |now| == |was| && lo <= n && 2 * n <= |was|
  {
    && (forall k :: 0 <= k < lo ==> now[k] == was[k])
    && (forall m :: lo <= m < n ==> now[2 * m] == was[m] && now[2 * m + 1] == was[m])
    && (forall k :: 2 * n <= k < |was| ==> now[k] == was[k])
  }

  lemma SpreadStep(now: seq<int>, was: seq<int>, i: nat, n: nat)
    requires |now| == |was| && i < n && 2 * n <= |was| && Spread(now, was, i + 1, n)
    ensures Spread(now[2 * i := was[i]][2 * i + 1 := was[i]], was, i, n)
  {
  }

  lemma SpreadDone(now: seq<int>, was: seq<int>, n: nat)
    requires |now| == |was| && 2 * n <= |was| && Spread(now, was, 0, n)
    ensures now == Doubled(was[..n]) + was[2 * n..]
  {
    var d := Doubled(was[..n]);
    forall i | 0 <= i < |d| / 2
      ensures SamePair(now[..2 * n], d, i)
    {
      DoubledAt(was[..n], i);
      assert was[..n][i] == was[i];
    }
    SamePairs(now[..2 * n], d);
    assert now[2 * n..] == was[2 * n..];
    assert now == now[..2 * n] + now[2 * n..];
  }

  /** The backward loop: samples spread out in place, no unread one overwritten. */
  method DuplicateSamples(buffer: array<int>, n: nat)
    requires 2 * n <= buffer.Length
    modifies buffer
    ensures buffer[..] == Doubled(old(buffer[..n])) + old(buffer[2 * n..])
  {
    ghost var was := buffer[..];
    var i := n - 1;
    while i >= 0
      invariant -1 <= i < n
      invariant Spread(buffer[..], was, i + 1, n)
    {
      ghost var now := buffer[..];
      assert now[i] == was[i];
      SpreadStep(now, was, i, n);
      buffer[2 * i] := buffer[i];
      buffer[2 * i + 1] := buffer[i];
      assert buffer[..] == now[2 * i := was[i]][2 * i + 1 := was[i]];
      i := i - 1;
    }
    SpreadDone(buffer[..], was, n);
    assert was[..n] == old(buffer[..n]) && was[2 * n..] == old(buffer[2 * n..]);
  }

  /** The forward loop: the second channel dropped in place. */
  method DropSecondChannel(buffer: array<int>, n: nat)
    requires 2 * n <= buffer.Length
    modifies buffer
    ensures buffer[..n] == Left(old(buffer[..2 * n]))
    ensures buffer[n..] == old(buffer[n..])
  {
    var i := 0;
    while i < n
      invariant 0 <= i <= n
      invariant forall k :: 0 <= k < i ==> buffer[k] == old(buffer[2 * k])
      invariant forall k :: i <= k < buffer.Length ==> buffer[k] == old(buffer[k])
    {
      buffer[i] := buffer[2 * i];
      i := i + 1;
    }
  }

  // ---------------------------------------------------------------- the driver

  datatype Phase = Off | Initialized | Streaming

  datatype Driver = Driver(phase: Phase, channels: nat, n: nat, ready: bool, buffer: seq<int>)

  predicate WellFormed(d: Driver) {
    d.n <= MAX_SAMPLES && 1 <= d.channels <= 2 && |d.buffer| == 2 * MAX_SAMPLES
  }

  /** One block from the playback callback. */
  datatype Block = Block(channels: nat, samples: seq<int>)

  function Stereo(b: Block): seq<int> {
    if b.channels == 1 then Doubled(b.samples) else b.samples
  }

  predicate Fits(d: Driver, samples: seq<int>) { |samples| == d.channels * d.n }

  /** Everything the I2S driver would be handed. */
  function Pending(d: Driver): seq<int>
    requires WellFormed(d)
  {
    d.buffer[..2 * d.n]
  }

  predicate AsksForData(d: Driver) { !d.ready && d.phase == Streaming }

  function Silence(n: nat): (r: seq<int>)
    ensures |r| == n
  {
    seq(n, i => 0)
  }

  /** The buffer made ready before the write; `samples` is what the callback delivers if it
      is called. */
  function Filled(d: Driver, samples: seq<int>): (r: Driver)
    requires WellFormed(d) && Fits(d, samples)
    ensures WellFormed(r)
  {
    var rest := d.buffer[2 * d.n..];
    if d.ready then d
    else if d.phase == Streaming then FillLength(d, samples); d.(ready := true, buffer := Stereo(Block(d.channels, samples)) + rest)
    else d.(buffer := Silence(2 * d.n) + rest)
  }

  lemma FillLength(d: Driver, samples: seq<int>)
    requires WellFormed(d) && Fits(d, samples)
    ensures |Stereo(Block(d.channels, samples))| == 2 * d.n
  {
  }

  /** The driver after `i2s_write` took `written` bytes. */
  function Written(d: Driver, written: nat): Driver {
    if written == d.n * BYTES_PER_FRAME then d.(ready := false) else d
  }

  /** What the driver is handed: the waiting block; else, while streaming, the callback's
      samples, each mono one twice; else silence. */
  lemma {:induction false} FilledExact(d: Driver, samples: seq<int>, i: nat)
    requires WellFormed(d) && Fits(d, samples) && i < 2 * d.n
    ensures Pending(Filled(d, samples))[i]
         == if d.ready then d.buffer[i]
            else if d.phase != Streaming then 0
            else if d.channels == 1 then samples[i / 2] else samples[i]
    ensures Filled(d, samples).ready <==> d.ready || d.phase == Streaming
  {
    FillLength(d, samples);
  }

  /** A write that took only part of the buffer fails an assertion. */
  predicate Partial(d: Driver, written: nat) { written != 0 && written != d.n * BYTES_PER_FRAME }

  // ---------------------------------------------------------------- a run, with its history

  datatype System = System(
    driver: Driver,
    produced: seq<Block>,        // callback blocks, without the discarded ones
    played: seq<seq<int>>,       // ready buffers written completely
    discarded: seq<Block>,       // blocks a restart threw away
    calls: nat)                  // callback invocations

  datatype Event =
    | Init(channels: nat, n: nat)
    | Start
    | Stop
    | Close
    | TxDone(samples: seq<int>, written: nat)

  predicate Accepted(d: Driver, e: Event) {
    match e
    case Init(c, n) => 1 <= c <= 2 && n <= MAX_SAMPLES
    case TxDone(samples, written) => Fits(d, samples) && !Partial(d, written)
    case _ => true
  }

  function NextDriver(d: Driver, e: Event): (r: Driver)
    requires WellFormed(d) && Accepted(d, e)
    ensures WellFormed(r)
  {
    match e
    case Init(c, n) => d.(phase := Initialized, channels := c, n := n)
    case Start => if d.phase == Initialized then d.(phase := Streaming, ready := false) else d
    case Stop => if d.phase == Streaming then d.(phase := Initialized) else d
    case Close => d.(phase := Off)
    case TxDone(samples, written) => Written(Filled(d, samples), written)
  }

  function Next(s: System, e: Event): System
    requires WellFormed(s.driver) && Accepted(s.driver, e)
  {
    var d, d' := s.driver, NextDriver(s.driver, e);
    match e
    case Start =>
      if d.phase == Initialized && d.ready && s.produced != [] then
        s.(driver := d', produced := s.produced[..|s.produced| - 1], discarded := s.discarded + [s.produced[|s.produced| - 1]])
      else s.(driver := d')
    case TxDone(samples, written) =>
      var f := Filled(d, samples);
      System(d',
             if AsksForData(d) then s.produced + [Block(d.channels, samples)] else s.produced,
             if f.ready && !d'.ready then s.played + [Pending(f)] else s.played,
             s.discarded,
             if AsksForData(d) then s.calls + 1 else s.calls)
    case _ => s.(driver := d')
  }

  /** Every block the callback produced was played once, in order, apart from at most one,
      which waits unharmed in the buffer, and those a restart discarded. */
  predicate Inv(s: System) {
    && WellFormed(s.driver)
    && s.calls == |s.produced| + |s.discarded|
    && |s.produced| == |s.played| + (if s.driver.ready then 1 else 0)
    && (forall i :: 0 <= i < |s.played| ==> s.played[i] == Stereo(s.produced[i]))
    && (s.driver.ready ==> Pending(s.driver) == Stereo(s.produced[|s.produced| - 1]))
  }

  /** Re-initialising over a waiting block must keep the buffer size. */
  predicate Undamaging(s: System, e: Event) { e.Init? && s.driver.ready ==> e.n == s.driver.n }

  lemma TxDoneKeeps(s: System, samples: seq<int>, written: nat)
    requires Inv(s) && Accepted(s.driver, TxDone(samples, written))
    ensures Inv(Next(s, TxDone(samples, written)))
  {
    var d := s.driver;
    if AsksForData(d) {
      FillLength(d, samples);
      var stereo := Stereo(Block(d.channels, samples));
      assert Filled(d, samples).buffer[..2 * d.n] == stereo;
    }
  }

  lemma StartKeeps(s: System)
    requires Inv(s)
    ensures Inv(Next(s, Start))
  {
  }

  lemma StepKeeps(s: System, e: Event)
    requires Inv(s) && Accepted(s.driver, e) && Undamaging(s, e)
    ensures Inv(Next(s, e))
  {
    match e
    case Start => StartKeeps(s);
    case TxDone(samples, written) => TxDoneKeeps(s, samples, written);
    case _ =>
  }

  /** And only then: a waiting block of another size is handed on cut or padded. */
  lemma InitKeepsIff(s: System, channels: nat, n: nat)
    requires Inv(s) && Accepted(s.driver, Init(channels, n))
    ensures Inv(Next(s, Init(channels, n))) <==> Undamaging(s, Init(channels, n))
  {
    var s' := Next(s, Init(channels, n));
    if s.driver.ready && n != s.driver.n {
      assert |Pending(s'.driver)| != |Pending(s.driver)|;
    }
  }

  /** A block of two samples waits, the sink is initialised for one: half of the block is
      played as if it were the whole. */
  lemma ReinitCutsBlock(a: int, b: int)
    ensures var s := Next(Next(Next(Fresh(), Init(1, 2)), Start), TxDone([a, b], 0));
      var r := Next(Next(s, Init(1, 1)), TxDone([a], 4));
      Inv(s) && s.driver.ready && r.produced == [Block(1, [a, b])] && r.played == [[a, a]]
  {
    var s1 := Next(Next(Fresh(), Init(1, 2)), Start);
    var s := Next(s1, TxDone([a, b], 0));
    StepKeeps(Fresh(), Init(1, 2));
    StepKeeps(Next(Fresh(), Init(1, 2)), Start);
    StepKeeps(s1, TxDone([a, b], 0));
    assert s.driver.buffer[..4] == Doubled([a, b]) == [a, a, b, b];
    var d := Next(s, Init(1, 1)).driver;
    assert Pending(d) == d.buffer[..4][..2] == [a, a];
  }

  predicate Acceptable(s: System, es: seq<Event>)
    decreases |es|
  {
    es == [] || (
      && WellFormed(s.driver) && Accepted(s.driver, es[0]) && Undamaging(s, es[0])
      && Acceptable(Next(s, es[0]), es[1..]))
  }

  function Run(s: System, es: seq<Event>): System
    requires Acceptable(s, es)
    decreases |es|
  {
    if es == [] then s else Run(Next(s, es[0]), es[1..])
  }

  lemma {:induction false} RunKeeps(s: System, es: seq<Event>)
    requires Inv(s) && Acceptable(s, es)
    ensures Inv(Run(s, es))
    decreases |es|
  {
    if es != [] {
      StepKeeps(s, es[0]);
      RunKeeps(Next(s, es[0]), es[1..]);
    }
  }

  function Fresh(): System {
    System(Driver(Off, 1, 0, false, Silence(2 * MAX_SAMPLES)), [], [], [], 0)
  }

  /** From start-up, whatever the order of calls, transmit events, full and empty writes. */
  lemma AudioConserved(es: seq<Event>)
    requires Acceptable(Fresh(), es)
    ensures Inv(Run(Fresh(), es))
  {
    RunKeeps(Fresh(), es);
  }

  /** What the calls so far say: initialised, and then streaming. */
  datatype Calls = Calls(initialized: bool, streaming: bool)

  function Called(c: Calls, e: Event): Calls {
    match e
    case Init(_, _) => Calls(true, false)
    case Start => if c.initialized then Calls(false, true) else c
    case Stop => if c.streaming then Calls(true, false) else c
    case Close => Calls(false, false)
    case TxDone(_, _) => c
  }

  function AllCalled(c: Calls, es: seq<Event>): Calls
    decreases |es|
  {
    if es == [] then c else AllCalled(Called(c, es[0]), es[1..])
  }

  predicate InPhase(s: System, c: Calls) {
    && (s.driver.phase == Streaming <==> c.streaming)
    && (s.driver.phase == Initialized <==> c.initialized)
  }

  lemma {:induction false} PhaseStep(s: System, c: Calls, e: Event)
    requires WellFormed(s.driver) && Accepted(s.driver, e) && InPhase(s, c)
    ensures InPhase(Next(s, e), Called(c, e))
    ensures Next(s, e).calls == if e.TxDone? && c.streaming && !s.driver.ready then s.calls + 1 else s.calls
  {
  }

  lemma {:induction false} PhaseRun(s: System, c: Calls, es: seq<Event>)
    requires Acceptable(s, es) && InPhase(s, c)
    ensures InPhase(Run(s, es), AllCalled(c, es))
    decreases |es|
  {
    if es != [] {
      PhaseStep(s, c, es[0]);
      PhaseRun(Next(s, es[0]), Called(c, es[0]), es[1..]);
    }
  }

  /** In every run the sink streams exactly after a start that followed an initialisation or a
      stop, until the next stop, close or initialisation. */
  lemma {:induction false} StreamsExactly(es: seq<Event>)
    requires Acceptable(Fresh(), es)
    ensures Run(Fresh(), es).driver.phase == Streaming <==> AllCalled(Calls(false, false), es).streaming
  {
    PhaseRun(Fresh(), Calls(false, false), es);
  }

  predicate EmptyWrite(e: Event) { e.TxDone? && e.written == 0 }

  /** However often the driver takes nothing, the waiting block stays, untouched, and the
      callback is not asked again. */
  lemma {:induction false} StalledUnchanged(s: System, es: seq<Event>)
    requires WellFormed(s.driver) && s.driver.ready && s.driver.n > 0 && Acceptable(s, es)
    requires forall i :: 0 <= i < |es| ==> EmptyWrite(es[i])
    ensures Run(s, es) == s
    decreases |es|
  {
    if es != [] {
      assert EmptyWrite(es[0]);
      StalledUnchanged(s, es[1..]);
    }
  }

  /** A stalled block goes out exactly once when the driver takes it. */
  lemma StalledThenPlayed(s: System, es: seq<Event>, samples: seq<int>)
    requires Inv(s) && s.driver.ready && s.driver.n > 0 && Acceptable(s, es) && Fits(s.driver, samples)
    requires forall i :: 0 <= i < |es| ==> EmptyWrite(es[i])
    ensures Run(s, es) == s && Accepted(s.driver, TxDone(samples, s.driver.n * BYTES_PER_FRAME))
    ensures var r := Next(Run(s, es), TxDone(samples, s.driver.n * BYTES_PER_FRAME));
            && r.played == s.played + [Stereo(s.produced[|s.produced| - 1])]
            && r.produced == s.produced && r.calls == s.calls && !r.driver.ready
  {
    StalledUnchanged(s, es);
  }

  /** A block is lost exactly when a stream starts over a block that waits, and then it is
      that block. */
  lemma DiscardExact(s: System, e: Event)
    requires Inv(s) && Accepted(s.driver, e)
    ensures Next(s, e).discarded != s.discarded <==> e.Start? && s.driver.phase == Initialized && s.driver.ready
    ensures Next(s, e).discarded != s.discarded ==>
              Next(s, e).discarded == s.discarded + [s.produced[|s.produced| - 1]]
  {
    assert forall b: Block :: |s.discarded + [b]| > |s.discarded|;
  }

  predicate NoWrite(es: seq<Event>) { forall i :: 0 <= i < |es| ==> !es[i].TxDone? && !es[i].Start? }

  lemma {:induction false} WaitingBlockStays(s: System, es: seq<Event>)
    requires Inv(s) && s.driver.ready && Acceptable(s, es) && NoWrite(es)
    ensures var r := Run(s, es);
      Inv(r) && r.driver.ready && r.produced == s.produced && r.discarded == s.discarded && r.played == s.played
    decreases |es|
  {
    if es != [] {
      assert !es[0].TxDone? && !es[0].Start?;
      StepKeeps(s, es[0]);
      WaitingBlockStays(Next(s, es[0]), es[1..]);
    }
  }

  /** A waiting block survives every stop, close and initialisation, in any number, until the
      next start of the stream throws it away. */
  lemma RestartDiscards(s: System, es: seq<Event>)
    requires Inv(s) && s.driver.ready && Acceptable(s, es) && NoWrite(es) && Run(s, es).driver.phase == Initialized
    ensures WellFormed(Run(s, es).driver)
    ensures var r := Next(Run(s, es), Start);
            && r.discarded == s.discarded + [s.produced[|s.produced| - 1]]
            && r.played == s.played && !r.driver.ready
  {
    WaitingBlockStays(s, es);
    DiscardExact(Run(s, es), Start);
  }

  // ---------------------------------------------------------------- the code

  class Sink {
    var phase: Phase
    var numChannels: nat
    var samplesPerBuffer: nat
    var bufferReady: bool
    const buffer: array<int>

    function View(): Driver
      reads this, buffer
    {
      Driver(phase, numChannels, samplesPerBuffer, bufferReady, buffer[..])
    }

    ghost predicate Valid()
      reads this, buffer
    {
      WellFormed(View())
    }

    constructor ()
      ensures Valid() && fresh(buffer) && View() == Fresh().driver
    {
      phase, numChannels, samplesPerBuffer, bufferReady := Off, 1, 0, false;
      buffer := new int[2 * MAX_SAMPLES](_ => 0);
    }

    /** The callback stores its samples at the front of the buffer. */
    method Playback(samples: seq<int>)
      requires |samples| <= buffer.Length
      modifies buffer
      ensures buffer[..] == samples + old(buffer[|samples|..])
    {
      var i := 0;
      while i < |samples|
        invariant 0 <= i <= |samples|
        invariant forall k :: 0 <= k < i ==> buffer[k] == samples[k]
        invariant forall k :: i <= k < buffer.Length ==> buffer[k] == old(buffer[k])
      {
        buffer[i] := samples[i];
        i := i + 1;
      }
    }

    method FetchData(samples: seq<int>)
      requires Valid() && Fits(View(), samples)
      modifies this`bufferReady, buffer
      ensures Valid() && View() == Filled(old(View()), samples)
    {
      if !bufferReady {
        var n := samplesPerBuffer;
        ghost var rest := buffer[2 * n..];
        FillLength(View(), samples);
        if phase == Streaming {
          Playback(samples);
          if numChannels == 1 {
            assert buffer[..n] == samples && buffer[2 * n..] == rest;
            DuplicateSamples(buffer, n);
          }
          bufferReady := true;
        } else {
          Playback(seq(2 * n, i => 0));
          assert buffer[..] == Silence(2 * n) + rest;
        }
      }
    }

    /** Answers a transmit event; `written` is what `i2s_write` reports.  Returns what was
        handed over if the driver took it, and whether the partial-write assertion failed. */
    method FillBuffer(samples: seq<int>, written: nat) returns (out: Option<seq<int>>, asserted: bool)
      requires Valid() && Fits(View(), samples)
      modifies this`bufferReady, buffer
      ensures Valid() && View() == Written(Filled(old(View()), samples), written)
      ensures asserted == Partial(old(View()), written)
      ensures out == if written == samplesPerBuffer * BYTES_PER_FRAME then Some(Pending(Filled(old(View()), samples))) else None
    {
      FetchData(samples);
      var dataLen := samplesPerBuffer * BYTES_PER_FRAME;
      out, asserted := None, false;
      if written == dataLen {
        out := Some(buffer[..2 * samplesPerBuffer]);
        bufferReady := false;
      } else if written != 0 {
        asserted := true;
      }
    }

    method Initialize(channels: nat, n: nat)
      requires Valid() && 1 <= channels <= 2 && n <= 480
      modifies this`numChannels, this`samplesPerBuffer, this`phase
      ensures Valid() && Accepted(old(View()), Init(channels, n))
      ensures View() == NextDriver(old(View()), Init(channels, n))
      ensures phase == Initialized && numChannels == channels && samplesPerBuffer == n
    {
      numChannels := channels;
      phase := Initialized;
      samplesPerBuffer := n;
    }

    method StartStream()
      requires Valid()
      modifies this`phase, this`bufferReady
      ensures Valid() && View() == NextDriver(old(View()), Start)
    {
      if phase == Initialized {
        phase := Streaming;
        bufferReady := false;
      }
    }

    method StopStream()
      requires Valid()
      modifies this`phase
      ensures Valid() && View() == NextDriver(old(View()), Stop)
    {
      if phase == Streaming {
        phase := Initialized;
      }
    }

    method CloseSink()
      requires Valid()
      modifies this`phase
      ensures Valid() && View() == NextDriver(old(View()), Close)
    {
      if phase == Streaming {
        StopStream();
      }
      phase := Off;
    }
  }

  /** Recording: `bytesRead` is what `i2s_read` reports, `buffer` what it stored.  The
      callback gets the block only while streaming. */
  method ProcessRecording(buffer: array<int>, n: nat, bytesRead: nat, streaming: bool, channels: nat)
    returns (delivered: Option<seq<int>>, asserted: bool)
    requires 2 * n <= buffer.Length
    modifies buffer
    ensures asserted == (0 < bytesRead < n * BYTES_PER_FRAME)
    ensures delivered ==
            if bytesRead == 0 || bytesRead < n * BYTES_PER_FRAME || !streaming then None
            else if channels == 1 then Some(Left(old(buffer[..2 * n])))
            else Some(old(buffer[..2 * n]))
    ensures delivered == None ==> buffer[..] == old(buffer[..])
  {
    delivered, asserted := None, false;
    if bytesRead == 0 {
      return;
    } else if bytesRead < n * BYTES_PER_FRAME {
      asserted := true;
      return;
    }
    if streaming {
      if channels == 1 {
        DropSecondChannel(buffer, n);
      }
      delivered := Some(buffer[..if channels == 1 then n else 2 * n]);
    }
  }

  /** A mono block played and recorded over a loopback comes back unchanged. */
  lemma LoopbackMono(s: System, i: nat)
    requires Inv(s) && i < |s.played| && s.produced[i].channels == 1
    ensures Left(s.played[i]) == s.produced[i].samples
  {
    LeftOfDoubled(s.produced[i].samples);
  }
}
