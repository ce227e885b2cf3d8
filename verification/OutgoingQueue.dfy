/** The ring of unsent reports (`uni_circular_buffer.c`) and the send/retry logic of
    `uni_hid_device.c` on top of it. */
module OutgoingQueue {
  import opened Common

  const SLOTS: nat := 32          // UNI_CIRCULAR_BUFFER_SIZE
  const DATA_SIZE: nat := 128     // UNI_CIRCULAR_BUFFER_DATA_SIZE

  type Cid = c: int | 0 <= c < 65536
  datatype Report = Report(cid: Cid, data: seq<int>)

  datatype Error = Ok | BufferFull | BufferEmpty | BufferTooBig

  /** `int16_t` view of a channel id and back: the buffer stores channel ids signed. */
  function Signed(cid: Cid): (v: int)
    ensures -32768 <= v < 32768 && v % 65536 == cid
  {
    if cid < 32768 then cid else cid - 65536
  }

  function Unsigned(v: int): (cid: Cid)
    requires -32768 <= v < 32768
  {
    if v >= 0 then v else v + 65536
  }

  lemma CidRoundTrip(cid: Cid)
    ensures Unsigned(Signed(cid)) == cid
  {
  }

  datatype Slot = Slot(cid: int, data: seq<int>, len: nat)

  predicate SlotOk(slot: Slot) {
    |slot.data| == DATA_SIZE && slot.len < DATA_SIZE && -32768 <= slot.cid < 32768
  }

  function ReportIn(slot: Slot): Report
    requires SlotOk(slot)
  {
    Report(Unsigned(slot.cid), slot.data[..slot.len])
  }

  /** `n` reports from `head` on, oldest first. */
  ghost function Queued(slots: seq<Slot>, head: nat, n: nat): (s: seq<Report>)
    requires |slots| == SLOTS && head < SLOTS && n < SLOTS
    requires forall i :: 0 <= i < SLOTS ==> SlotOk(slots[i])
    ensures |s| == n && forall k :: 0 <= k < n ==> s[k] == ReportIn(slots[RingIndex(head, k, SLOTS)])
  {
    seq(n, k requires 0 <= k < n => ReportIn(slots[RingIndex(head, k, SLOTS)]))
  }

  class CircularBuffer {
    const buffer: array<Slot>
    var head: nat
    var tail: nat

    ghost predicate Valid()
      reads this, buffer
    {
      && buffer.Length == SLOTS
      && head < SLOTS && tail < SLOTS
      && forall i :: 0 <= i < SLOTS ==> SlotOk(buffer[i])
    }

    ghost function Count(): (n: nat)
      requires Valid()
      reads this, buffer
      ensures n < SLOTS
    {
      if head <= tail then tail - head else tail + SLOTS - head
    }

    /** The queued reports, oldest first. */
    ghost function Contents(): (s: seq<Report>)
      requires Valid()
      reads this, buffer
    {
      Queued(buffer[..], head, Count())
    }

    constructor ()
      ensures Valid() && fresh(buffer) && Contents() == []
    {
      buffer := new Slot[SLOTS](_ => Slot(0, seq(DATA_SIZE, _ => 0), 0));
      head, tail := 0, 0;
    }

    method IsEmpty() returns (b: bool)
      requires Valid()
      ensures b <==> Contents() == []
    {
      b := head == tail;
    }

    method IsFull() returns (b: bool)
      requires Valid()
      ensures b <==> |Contents()| == SLOTS - 1
    {
      b := tail + 1 == head || (head == 0 && tail == SLOTS - 1);
    }

    method Put(cid: int, data: seq<int>) returns (e: Error)
      requires Valid() && -32768 <= cid < 32768
      modifies this`tail, buffer
      ensures Valid()
      ensures e == if |old(Contents())| == SLOTS - 1 then BufferFull
                   else if |data| >= DATA_SIZE then BufferTooBig else Ok
      ensures Contents() == if e == Ok then old(Contents()) + [Report(Unsigned(cid), data)] else old(Contents())
      ensures forall i :: 0 <= i < SLOTS && i != old(tail) ==> buffer[i] == old(buffer[i])
    {
      var full := IsFull();
      if full {
        return BufferFull;
      }
      if |data| >= DATA_SIZE {
        return BufferTooBig;
      }
      ghost var before := Contents();
      var slot := Slot(cid, data + buffer[tail].data[|data|..], |data|);
      assert slot.data[..|data|] == data;
      buffer[tail] := slot;
      tail := tail + 1;
      if tail == SLOTS {
        tail := 0;
      }
      assert Contents() == before + [Report(Unsigned(cid), data)];
      return Ok;
    }

    /** The caller gets the slot, not a copy: its data stays readable until overwritten. */
    method Get() returns (e: Error, slot: nat)
      requires Valid()
      modifies this`head
      ensures Valid() && slot < SLOTS
      ensures e == if old(Contents()) == [] then BufferEmpty else Ok
      ensures e == Ok ==> slot == old(head) && slot != tail && ReportIn(buffer[slot]) == old(Contents())[0]
                          && Contents() == old(Contents())[1..]
      ensures e != Ok ==> head == old(head) && Contents() == old(Contents())
    {
      var empty := IsEmpty();
      if empty {
        return BufferEmpty, 0;
      }
      slot := head;
      head := head + 1;
      if head == SLOTS {
        head := 0;
      }
      return Ok, slot;
    }

    method Reset()
      requires Valid()
      modifies this`head, this`tail
      ensures Valid() && Contents() == []
    {
      head, tail := 0, 0;
    }
  }

  // ---------------------------------------------------------------- send and retry

  datatype Queue = Queue(
    submitted: seq<Report>,   // history: valid reports given to `send_report`
    sent: seq<Report>,        // history: reports `l2cap_send` took
    dropped: seq<Report>,     // history: reports that could not be queued
    waiting: seq<Report>)

  predicate IsValid(r: Report) { r.cid != 0 && 0 < |r.data| < 65536 }

  /** `uni_hid_device_send_report`; `accepted` is the outcome of `l2cap_send`. */
  function Send(q: Queue, r: Report, accepted: bool): Queue {
    if !IsValid(r) then q
    else if accepted then q.(sent := q.sent + [r])
    else if |q.waiting| == SLOTS - 1 || |r.data| >= DATA_SIZE then q.(dropped := q.dropped + [r])
    else q.(waiting := q.waiting + [r])
  }

  /** What becomes of a report, case by case: a report without channel or data is ignored; one
      that `l2cap_send` takes is sent; any other waits if fewer than 31 wait already and it
      has less than 128 bytes, and is lost otherwise. */
  lemma {:induction false} SendExact(q: Queue, r: Report, accepted: bool)
    ensures var t := Send(q, r, accepted);
      (t.sent, t.waiting, t.dropped)
      == if r.cid == 0 || |r.data| == 0 || |r.data| >= 65536 then (q.sent, q.waiting, q.dropped)
         else if accepted then (q.sent + [r], q.waiting, q.dropped)
         else if |q.waiting| != 31 && |r.data| < 128 then (q.sent, q.waiting + [r], q.dropped)
         else (q.sent, q.waiting, q.dropped + [r])
  {
  }

  datatype Event = Submit(r: Report, accepted: bool) | Retry(accepted: bool)

  function Next(q: Queue, e: Event): Queue {
    match e
    case Submit(r, accepted) =>
      Send(if IsValid(r) then q.(submitted := q.submitted + [r]) else q, r, accepted)
    case Retry(accepted) =>
      if q.waiting == [] then q
      else Send(q.(waiting := q.waiting[1..]), q.waiting[0], accepted)
  }

  function Run(q: Queue, events: seq<Event>): Queue
    decreases |events|
  {
    if events == [] then q else Run(Next(q, events[0]), events[1..])
  }

  const EMPTY: Queue := Queue([], [], [], [])

  ghost predicate Conserved(q: Queue) {
    multiset(q.submitted) == multiset(q.sent) + multiset(q.waiting) + multiset(q.dropped)
  }

  ghost predicate Inv(q: Queue) {
    && |q.waiting| < SLOTS
    && (forall i :: 0 <= i < |q.waiting| ==> IsValid(q.waiting[i]) && |q.waiting[i].data| < DATA_SIZE)
    && Conserved(q)
  }

  /** Popping the oldest report and sending it keeps it in exactly one place; a retry that
      fails always finds room again. */
  lemma {:induction false} RetryKeeps(q: Queue, accepted: bool)
    requires Inv(q)
    ensures Inv(Next(q, Retry(accepted)))
    ensures Next(q, Retry(accepted)).dropped == q.dropped
    ensures q.waiting != [] && !accepted ==> Next(q, Retry(accepted)).waiting == q.waiting[1..] + [q.waiting[0]]
  {
    if q.waiting != [] {
      assert q.waiting == [q.waiting[0]] + q.waiting[1..];
      assert multiset(q.waiting) == multiset{q.waiting[0]} + multiset(q.waiting[1..]);
    }
  }

  lemma SubmitKeeps(q: Queue, r: Report, accepted: bool)
    requires Inv(q)
    ensures Inv(Next(q, Submit(r, accepted)))
  {
  }

  lemma {:induction false} StepKeeps(q: Queue, e: Event)
    requires Inv(q)
    ensures Inv(Next(q, e))
  {
    if e.Retry? {
      RetryKeeps(q, e.accepted);
    } else {
      SubmitKeeps(q, e.r, e.accepted);
    }
  }

  lemma {:induction false} RunKeeps(q: Queue, events: seq<Event>)
    requires Inv(q)
    ensures Inv(Run(q, events))
    decreases |events|
  {
    if events != [] {
      StepKeeps(q, events[0]);
      RunKeeps(Next(q, events[0]), events[1..]);
    }
  }

  /** Over every run with arbitrary send outcomes each valid report is sent, waiting or
      dropped, exactly as often as it was submitted. */
  lemma {:induction false} ReportsConserved(events: seq<Event>)
    ensures var q := Run(EMPTY, events);
      && multiset(q.submitted) == multiset(q.sent) + multiset(q.waiting) + multiset(q.dropped)
      && |q.waiting| <= 31
  {
    RunKeeps(EMPTY, events);
  }

  /** Once reports go through again, the backlog leaves in order and completely. */
  lemma {:induction false} BacklogDrainsInOrder(q: Queue, retries: seq<Event>)
    requires |retries| == |q.waiting| && (forall i :: 0 <= i < |retries| ==> retries[i] == Retry(true))
    requires forall r :: r in q.waiting ==> IsValid(r)
    ensures Run(q, retries) == q.(sent := q.sent + q.waiting, waiting := [])
    decreases |retries|
  {
    if retries == [] {
      assert q.sent + q.waiting == q.sent;
    } else {
      var first, rest := q.waiting[0], q.waiting[1..];
      assert retries[0] == Retry(true);
      assert Next(q, Retry(true)) == q.(sent := q.sent + [first], waiting := rest);
      BacklogDrainsInOrder(q.(sent := q.sent + [first], waiting := rest), retries[1..]);
      assert q.sent + q.waiting == (q.sent + [first]) + rest;
    }
  }

  // ---------------------------------------------------------------- order

  predicate AllSame(s: seq<Report>) {
    forall i :: 0 <= i < |s| ==> s[i] == s[0]
  }

  /** A sequence that begins with itself moved one place on repeats its first report. */
  lemma {:induction false} ShiftFixed(s: seq<Report>, r: Report, k: nat)
    requires k < |s| && s <= [r] + s
    ensures s[k] == r
  {
    assert ([r] + s)[k] == s[k];
    if k > 0 {
      ShiftFixed(s, r, k - 1);
    }
  }

  lemma {:induction false} RotationFixed(s: seq<Report>, k: nat)
    requires k < |s| && s[1..] + [s[0]] == s
    ensures s[k] == s[0]
  {
    if k > 0 {
      RotationFixed(s, k - 1);
      assert (s[1..] + [s[0]])[k - 1] == s[k];
    }
  }

  lemma {:induction false} RotationExact(s: seq<Report>)
    requires s != []
    ensures s <= s[1..] + [s[0]] <==> AllSame(s)
    ensures AllSame(s) ==> s[1..] + [s[0]] == s
  {
    if s <= s[1..] + [s[0]] {
      forall i | 0 <= i < |s| ensures s[i] == s[0] {
        RotationFixed(s, i);
      }
    }
  }

  lemma {:induction false} SameInFront(s: seq<Report>, r: Report)
    ensures s <= [r] + s <==> AllSame([r] + s)
  {
    if s <= [r] + s {
      forall i | 0 <= i < |[r] + s| ensures ([r] + s)[i] == ([r] + s)[0] {
        if i > 0 {
          ShiftFixed(s, r, i - 1);
        }
      }
    }
    if AllSame([r] + s) {
      assert forall i :: 0 <= i < |s| ==> s[i] == ([r] + s)[i + 1] == r;
      assert s == ([r] + s)[..|s|];
    }
  }

  /** Everything that left or will leave, in the order in which it does so if every later
      retry succeeds. */
  function Line(q: Queue): seq<Report> { q.sent + q.waiting }

  /** The report an event adds, if it is valid and not dropped. */
  function Joining(q: Queue, e: Event): seq<Report> {
    if e.Submit? && IsValid(e.r) && (e.accepted || (|q.waiting| < SLOTS - 1 && |e.r.data| < DATA_SIZE))
    then [e.r] else []
  }

  /** What may not happen if order is to be kept: a retry that fails, or a fresh report that
      is taken while others wait - unless it makes no difference which report is which. */
  predicate KeepsOrder(q: Queue, e: Event) {
    match e
    case Retry(accepted) => !accepted ==> AllSame(q.waiting)
    case Submit(r, accepted) => accepted && IsValid(r) ==> AllSame([r] + q.waiting)
  }

  lemma {:induction false} RetryOrderExact(q: Queue, accepted: bool)
    requires Inv(q)
    ensures Line(q) <= Line(Next(q, Retry(accepted))) <==> KeepsOrder(q, Retry(accepted))
    ensures KeepsOrder(q, Retry(accepted)) ==> Line(Next(q, Retry(accepted))) == Line(q)
  {
    RetryKeeps(q, accepted);
    var w, q' := q.waiting, Next(q, Retry(accepted));
    if w != [] && accepted {
      assert w == [w[0]] + w[1..];
      JoinThree(q.sent, [w[0]], w[1..]);
    } else if w != [] {
      PrefixBehind(q.sent, w, w[1..] + [w[0]]);
      RotationExact(w);
    }
  }

  /** In particular a failed retry leaves the waiting reports in their order exactly when
      they are all equal. */
  lemma {:induction false} FailedRetryReorders(q: Queue)
    requires Inv(q) && q.waiting != []
    ensures Next(q, Retry(false)).waiting == q.waiting <==> AllSame(q.waiting)
  {
    RetryKeeps(q, false);
    RotationExact(q.waiting);
  }

  lemma {:induction false} SubmitOrderExact(q: Queue, r: Report, accepted: bool)
    requires Inv(q)
    ensures Line(q) <= Line(Next(q, Submit(r, accepted))) <==> KeepsOrder(q, Submit(r, accepted))
    ensures KeepsOrder(q, Submit(r, accepted)) ==>
              Line(Next(q, Submit(r, accepted))) == Line(q) + Joining(q, Submit(r, accepted))
  {
    var w, q' := q.waiting, Next(q, Submit(r, accepted));
    if IsValid(r) && accepted {
      assert Line(q') == (q.sent + [r]) + w == q.sent + ([r] + w);
      PrefixBehind(q.sent, w, [r] + w);
      SameInFront(w, r);
      if AllSame([r] + w) {
        assert forall i :: 0 <= i < |[r] + w| ==> ([r] + w)[i] == r;
        assert [r] + w == w + [r];
        assert q.sent + (w + [r]) == Line(q) + [r];
      }
    } else if IsValid(r) && Joining(q, Submit(r, accepted)) != [] {
      assert Line(q') == q.sent + (w + [r]) == Line(q) + [r];
    }
  }

  lemma {:induction false} PrefixBehind(a: seq<Report>, b: seq<Report>, c: seq<Report>)
    ensures a + b <= a + c <==> b <= c
  {
    if a + b <= a + c {
      assert b == (a + b)[|a|..] && c == (a + c)[|a|..];
      assert (a + c)[..|a + b|] == a + b;
      assert c[..|b|] == (a + c)[..|a + b|][|a|..];
    }
  }

  /** The exact condition for one event: the line grows at its end only, by the joining
      report, if and only if the event keeps order. */
  lemma {:induction false} OrderExact(q: Queue, e: Event)
    requires Inv(q)
    ensures Line(q) <= Line(Next(q, e)) <==> KeepsOrder(q, e)
    ensures Line(Next(q, e)) == Line(q) + Joining(q, e) <==> KeepsOrder(q, e)
  {
    if e.Retry? {
      RetryOrderExact(q, e.accepted);
    } else {
      SubmitOrderExact(q, e.r, e.accepted);
    }
  }

  ghost predicate AllKeepOrder(q: Queue, events: seq<Event>)
    decreases |events|
  {
    events == [] || (KeepsOrder(q, events[0]) && AllKeepOrder(Next(q, events[0]), events[1..]))
  }

  /** The valid reports that were not dropped, in the order of their submission. */
  function Kept(q: Queue, events: seq<Event>): seq<Report>
    decreases |events|
  {
    if events == [] then [] else Joining(q, events[0]) + Kept(Next(q, events[0]), events[1..])
  }

  /** After every event of the run what left and what waits are the reports kept so far, in
      the order of their submission. */
  ghost predicate AlwaysInOrder(q: Queue, line: seq<Report>, events: seq<Event>)
    decreases |events|
  {
    && Line(q) == line
    && (events != [] ==> AlwaysInOrder(Next(q, events[0]), line + Joining(q, events[0]), events[1..]))
  }

  lemma {:induction false} OrderRunExact(q: Queue, line: seq<Report>, events: seq<Event>)
    requires Inv(q) && line == Line(q)
    ensures AlwaysInOrder(q, line, events) <==> AllKeepOrder(q, events)
    decreases |events|
  {
    if events != [] {
      var e := events[0];
      StepKeeps(q, e);
      OrderExact(q, e);
      var n, grown := Next(q, e), line + Joining(q, e);
      if Line(n) == grown {
        OrderRunExact(n, grown, events[1..]);
      } else {
        assert !AlwaysInOrder(n, grown, events[1..]);
      }
    }
  }

  lemma {:induction false} LineGrows(q: Queue, events: seq<Event>)
    requires Inv(q) && AllKeepOrder(q, events)
    ensures Line(Run(q, events)) == Line(q) + Kept(q, events)
    decreases |events|
  {
    if events != [] {
      var e, rest := events[0], events[1..];
      StepKeeps(q, e);
      OrderExact(q, e);
      LineGrows(Next(q, e), rest);
      JoinThree(Line(q), Joining(q, e), Kept(Next(q, e), rest));
    }
  }

  lemma JoinThree(a: seq<Report>, b: seq<Report>, c: seq<Report>)
    ensures (a + b) + c == a + (b + c)
  {
  }

  /** From an empty queue, what left and what waits are together in the order of submission at
      every moment of the run, if and only if no event breaks order; then what left is, too. */
  lemma {:induction false} InOrderExact(events: seq<Event>)
    ensures AlwaysInOrder(EMPTY, [], events) <==> AllKeepOrder(EMPTY, events)
    ensures AllKeepOrder(EMPTY, events) ==> Run(EMPTY, events).sent <= Kept(EMPTY, events)
  {
    assert Line(EMPTY) == [];
    OrderRunExact(EMPTY, [], events);
    if AllKeepOrder(EMPTY, events) {
      LineGrows(EMPTY, events);
      assert Line(EMPTY) + Kept(EMPTY, events) == Kept(EMPTY, events);
    }
  }

  lemma {:induction false} DroppedGrows(q: Queue, events: seq<Event>)
    ensures |q.dropped| <= |Run(q, events).dropped|
    decreases |events|
  {
    if events != [] {
      DroppedGrows(Next(q, events[0]), events[1..]);
    }
  }

  lemma {:induction false} StepSubmits(q: Queue, e: Event)
    requires Inv(q) && Next(q, e).dropped == q.dropped
    ensures Next(q, e).submitted == q.submitted + Joining(q, e)
  {
    if e.Submit? {
      assert |q.dropped + [e.r]| > |q.dropped|;
    } else {
      assert Joining(q, e) == [];
    }
  }

  /** When nothing was dropped the reports kept are the ones submitted. */
  lemma {:induction false} KeptIsSubmitted(q: Queue, events: seq<Event>)
    requires Inv(q) && |Run(q, events).dropped| == |q.dropped|
    ensures Run(q, events).submitted == q.submitted + Kept(q, events)
    decreases |events|
  {
    if events != [] {
      var e, n, rest := events[0], Next(q, events[0]), events[1..];
      StepKeeps(q, e);
      DroppedGrows(n, rest);
      DroppedGrows(q, [e]);
      assert Run(q, [e]) == Run(n, []) == n;
      StepSubmits(q, e);
      KeptIsSubmitted(n, rest);
      JoinThree(q.submitted, Joining(q, e), Kept(n, rest));
    }
  }

  lemma {:induction false} Run3(q: Queue, a: Event, b: Event, c: Event)
    ensures Run(q, [a, b, c]) == Next(Next(Next(q, a), b), c)
  {
    assert [a, b, c][1..] == [b, c] && [b, c][1..] == [c] && [c][1..] == [];
    assert Run(Next(Next(q, a), b), [c]) == Next(Next(Next(q, a), b), c);
  }

  /** A report that waits is overtaken by one submitted later, with no failed retry. */
  lemma {:induction false} SubmissionOvertakes(a: Report, b: Report)
    requires IsValid(a) && IsValid(b) && |a.data| < DATA_SIZE
    ensures var q := Run(EMPTY, [Submit(a, false), Submit(b, true), Retry(true)]);
      q.submitted == [a, b] && q.sent == [b, a] && q.waiting == [] && q.dropped == []
  {
    Run3(EMPTY, Submit(a, false), Submit(b, true), Retry(true));
  }

  /** The order of what left alone says less: two failed retries can cancel each other out
      before anything leaves. */
  lemma {:induction false} FailedRetriesCancel(a: Report, b: Report)
    requires IsValid(a) && IsValid(b) && |a.data| < DATA_SIZE && |b.data| < DATA_SIZE && a != b
    ensures var q := Run(EMPTY, [Submit(a, false), Submit(b, false), Retry(false)]);
      && !KeepsOrder(Run(EMPTY, [Submit(a, false), Submit(b, false), Retry(false)]), Retry(false))
      && Run(q, [Retry(false), Retry(true), Retry(true)]).sent == [a, b] == q.submitted
  {
    Run3(EMPTY, Submit(a, false), Submit(b, false), Retry(false));
    var q := Run(EMPTY, [Submit(a, false), Submit(b, false), Retry(false)]);
    assert q.waiting == [b, a] && q.sent == [] && q.submitted == [a, b];
    Run3(q, Retry(false), Retry(true), Retry(true));
    var q1 := Next(q, Retry(false));
    assert q1.waiting == [a, b];
    assert Next(q1, Retry(true)).waiting == [b] && Next(q1, Retry(true)).sent == [a];
    assert q.waiting[1] != q.waiting[0];
  }

  /** A failed retry has the same effect among waiting reports. */
  lemma {:induction false} FailedRetryOvertakes(a: Report, b: Report)
    requires IsValid(a) && IsValid(b) && |a.data| < DATA_SIZE && |b.data| < DATA_SIZE
    ensures var q := Run(Run(EMPTY, [Submit(a, false), Submit(b, false), Retry(false)]), [Retry(true), Retry(true)]);
      q.submitted == [a, b] && q.sent == [b, a] && q.waiting == [] && q.dropped == []
  {
    Run3(EMPTY, Submit(a, false), Submit(b, false), Retry(false));
    var q := Run(EMPTY, [Submit(a, false), Submit(b, false), Retry(false)]);
    assert q.waiting == [b, a] && q.sent == [] && q.submitted == [a, b];
    BacklogDrainsInOrder(q, [Retry(true), Retry(true)]);
    assert q.sent + q.waiting == [b, a];
  }

  class HidOutput {
    const outgoing: CircularBuffer
    ghost var model: Queue

    ghost predicate Valid()
      reads this, outgoing, outgoing.buffer
    {
      outgoing.Valid() && Inv(model) && model.waiting == outgoing.Contents()
    }

    constructor ()
      ensures Valid() && fresh(outgoing) && fresh(outgoing.buffer) && model == EMPTY
    {
      outgoing := new CircularBuffer();
      model := EMPTY;
    }

    /** Shared by fresh submissions and retries. */
    method SendReport(cid: Cid, report: seq<int>, accepted: bool, ghost before: Queue)
      requires outgoing.Valid() && |report| < 65536 && before.waiting == outgoing.Contents()
      modifies this`model, outgoing, outgoing.buffer
      ensures outgoing.Valid() && model == Send(before, Report(cid, report), accepted)
      ensures model.waiting == outgoing.Contents()
    {
      ghost var r := Report(cid, report);
      model := Send(before, r, accepted);
      if cid <= 0 || |report| <= 0 {
        return;
      }
      if !accepted {
        var _ := outgoing.Put(Signed(cid), report);
      }
    }

    method Submit(cid: Cid, report: seq<int>, accepted: bool)
      requires Valid() && |report| < 65536
      modifies this, outgoing, outgoing.buffer
      ensures Valid() && model == Next(old(model), Event.Submit(Report(cid, report), accepted))
    {
      ghost var r := Report(cid, report);
      SubmitKeeps(model, r, accepted);
      SendReport(cid, report, accepted, if IsValid(r) then model.(submitted := model.submitted + [r]) else model);
    }

    method SendQueuedReports(accepted: bool)
      requires Valid()
      modifies this, outgoing, outgoing.buffer
      ensures Valid() && model == Next(old(model), Retry(accepted))
    {
      RetryKeeps(model, accepted);
      var empty := outgoing.IsEmpty();
      if empty {
        return;
      }
      var e, slot := outgoing.Get();
      if e != Ok {
        return;
      }
      var entry := outgoing.buffer[slot];
      SendReport(Unsigned(entry.cid), entry.data[..entry.len], accepted, model.(waiting := model.waiting[1..]));
    }
  }
}
