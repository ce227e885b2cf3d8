/** The fixed pool of HID devices (`uni_hid_device.c`).  Pointers into the static array are
    slot numbers; a slot whose address is zero is free. */
module DevicePool {

  import opened Common

  type Addr = a: int | 0 <= a < 0x1_0000_0000_0000

  datatype Slot = Slot(
    addr: Addr,
    parent: Option<nat>,
    child: Option<nat>,
    hidsCid: nat,
    kind: nat,          // vendor, product, class and controller type
    connected: bool)

  /** A slot after `uni_hid_device_init`. */
  const CLEAN: Slot := Slot(0, None, None, 0xffff, 0, false)

  type Pool = seq<Slot>

  // ---------------------------------------------------------------- what every operation does

  /** The first free slot, or the size of the pool. */
  function FirstFree(p: Pool): (i: nat)
    ensures i <= |p|
    ensures i < |p| ==> p[i].addr == 0
    ensures forall j :: 0 <= j < i ==> p[j].addr != 0
  {
    if p == [] then 0
    else if p[0].addr == 0 then 0
    else
      var i := FirstFree(p[1..]);
      assert forall j :: 1 <= j < i + 1 ==> p[j] == p[1..][j - 1];
      i + 1
  }

  predicate HasFree(p: Pool) { FirstFree(p) < |p| }

  function Created(p: Pool, a: Addr): (r: Pool)
    ensures |r| == |p|
  {
    if !HasFree(p) then p else p[FirstFree(p) := Slot(a, None, None, 0, 0, false)]
  }

  function CreatedVirtual(p: Pool, d: nat): (r: Pool)
    requires d < |p|
    ensures |r| == |p|
  {
    if !HasFree(p) then p
    else
      var i := FirstFree(p);
      var q := p[i := p[i].(addr := p[d].addr, parent := Some(d), kind := p[d].kind)];
      q[d := q[d].(child := Some(i))]
  }

  function Connected(p: Pool, d: nat): (r: Pool)
    requires d < |p|
    ensures |r| == |p|
  {
    p[d := p[d].(connected := true)]
  }

  function Disconnected(p: Pool, d: nat): (r: Pool)
    requires d < |p| && (p[d].child.Some? ==> p[d].child.value < |p|)
    ensures |r| == |p|
  {
    var q := if p[d].child.Some? then p[p[d].child.value := p[p[d].child.value].(connected := false)] else p;
    q[d := q[d].(connected := false)]
  }

  /** The devices the platform is told about: a connected child first. */
  function Told(p: Pool, d: nat): seq<nat>
    requires d < |p| && (p[d].child.Some? ==> p[d].child.value < |p|)
  {
    (if p[d].child.Some? && p[p[d].child.value].connected then [p[d].child.value] else [])
    + (if p[d].connected then [d] else [])
  }

  function Deleted(p: Pool, d: nat): (r: Pool)
    requires d < |p| && (p[d].child.Some? ==> p[d].child.value < |p|)
    ensures |r| == |p|
  {
    var q := if p[d].child.Some? then p[p[d].child.value := CLEAN] else p;
    q[d := CLEAN]
  }

  // ---------------------------------------------------------------- the invariant

  predicate ParentOk(p: Pool, i: nat)
    requires i < |p|
  {
    p[i].parent.Some? ==>
      var m := p[i].parent.value;
      m < |p| && p[m].parent.None? && p[m].child == Some(i) && p[m].addr == p[i].addr != 0
  }

  predicate ChildOk(p: Pool, i: nat)
    requires i < |p|
  {
    p[i].child.Some? ==> p[i].child.value < |p| && p[p[i].child.value].parent == Some(i)
  }

  ghost predicate Inv(p: Pool) {
    && (forall i :: 0 <= i < |p| && p[i].addr == 0 ==> p[i] == CLEAN)
    && (forall i :: 0 <= i < |p| ==> ParentOk(p, i) && ChildOk(p, i))
    && (forall i, j :: 0 <= i < j < |p| && p[i].parent.None? && p[j].parent.None? && p[i].addr == p[j].addr
          ==> p[i].addr == 0)
  }

  lemma {:induction false} ParentIsPhysical(p: Pool, d: nat)
    requires Inv(p) && d < |p| && p[d].child.Some?
    ensures p[d].parent.None?
  {
    assert ChildOk(p, d);
    assert ParentOk(p, p[d].child.value);
  }

  /** A child never has a child of its own, so the recursive calls stop at depth two. */
  lemma {:induction false} DepthAtMostTwo(p: Pool, d: nat)
    requires Inv(p) && d < |p| && p[d].child.Some?
    ensures p[d].parent.None? && p[d].child.value != d
    ensures p[d].child.value < |p| && p[p[d].child.value].child.None?
  {
    ParentIsPhysical(p, d);
    var c := p[d].child.value;
    assert ChildOk(p, d);
    if p[c].child.Some? {
      ParentIsPhysical(p, c);
    }
  }

  predicate IsPhysical(p: Pool, a: Addr, i: nat) {
    i < |p| && p[i].parent.None? && p[i].addr == a
  }

  // ---------------------------------------------------------------- exactly when it is kept

  /** `uni_hid_device_create` keeps the pool sound exactly when the address is nonzero and
      no physical device has it. */
  lemma {:induction false} CreateExact(p: Pool, a: Addr)
    requires Inv(p) && HasFree(p)
    ensures Inv(Created(p, a)) <==> a != 0 && (forall i: nat :: i < |p| ==> !IsPhysical(p, a, i))
  {
    var i, q := FirstFree(p), Created(p, a);
    assert p[i] == CLEAN;
    if a != 0 && forall j: nat :: j < |p| ==> !IsPhysical(p, a, j) {
      forall j | 0 <= j < |q| ensures ParentOk(q, j) && ChildOk(q, j) {
        assert ParentOk(p, j) && ChildOk(p, j);
      }
      forall j, k | 0 <= j < k < |q| && q[j].parent.None? && q[k].parent.None? && q[j].addr == q[k].addr
        ensures q[j].addr == 0
      {
        assert !IsPhysical(p, a, j) && !IsPhysical(p, a, k);
      }
    } else if a == 0 {
      assert q[i].addr == 0 && q[i] != CLEAN;
    } else {
      var j: nat :| j < |p| && IsPhysical(p, a, j);
      assert q[i].addr == q[j].addr && q[i].parent.None? && q[j].parent.None?;
    }
  }

  lemma {:induction false} CreateVirtualKeeps(p: Pool, d: nat)
    requires Inv(p) && HasFree(p) && d < |p| && p[d].addr != 0 && p[d].parent.None? && p[d].child.None?
    ensures Inv(CreatedVirtual(p, d))
  {
    var i, q := FirstFree(p), CreatedVirtual(p, d);
    assert p[i] == CLEAN && i != d;
    assert q[i].parent == Some(d) && q[i].addr == p[d].addr && q[i].child.None?;
    assert q[d] == p[d].(child := Some(i));
    assert forall j :: 0 <= j < |q| && j != i && j != d ==> q[j] == p[j];
    forall j | 0 <= j < |q| ensures ParentOk(q, j) && ChildOk(q, j) {
      assert ParentOk(p, j) && ChildOk(p, j);
      if p[j].child.Some? {
        assert ParentOk(p, p[j].child.value);
      }
    }
  }

  /** `uni_hid_device_create_virtual` keeps the pool sound exactly when the parent is a
      physical device in use without a child. */
  lemma {:induction false} CreateVirtualExact(p: Pool, d: nat)
    requires Inv(p) && HasFree(p) && d < |p|
    ensures Inv(CreatedVirtual(p, d)) <==> p[d].addr != 0 && p[d].parent.None? && p[d].child.None?
  {
    var i, q := FirstFree(p), CreatedVirtual(p, d);
    assert p[i] == CLEAN;
    assert ParentOk(p, d) && ChildOk(p, d);
    if p[d].addr == 0 {
      assert q[i].addr == 0 && q[i].parent == Some(d);
    } else if p[d].parent.Some? {
      assert !ParentOk(q, i);
    } else if p[d].child.Some? {
      var c := p[d].child.value;
      assert ParentOk(p, c);
      assert !ParentOk(q, c);
    } else {
      CreateVirtualKeeps(p, d);
    }
  }

  /** `uni_hid_device_delete` keeps the pool sound exactly when the device is not virtual. */
  lemma {:induction false} DeleteExact(p: Pool, d: nat)
    requires Inv(p) && d < |p|
    ensures p[d].child.Some? ==> p[d].child.value < |p|
    ensures Inv(Deleted(p, d)) <==> p[d].parent.None?
  {
    assert ParentOk(p, d) && ChildOk(p, d);
    var q := Deleted(p, d);
    if p[d].parent.Some? {
      var m := p[d].parent.value;
      assert ChildOk(p, m);
      if p[d].child.Some? {
        DepthAtMostTwo(p, d);
        assert false;
      }
      assert !ChildOk(q, m);
    } else {
      forall j | 0 <= j < |q| ensures ParentOk(q, j) && ChildOk(q, j) {
        assert ParentOk(p, j) && ChildOk(p, j);
      }
    }
  }

  /** `uni_hid_device_connect` keeps the pool sound exactly when the slot is in use. */
  lemma {:induction false} ConnectExact(p: Pool, d: nat)
    requires Inv(p) && d < |p|
    ensures Inv(Connected(p, d)) <==> p[d].addr != 0
  {
    var q := Connected(p, d);
    if p[d].addr != 0 {
      forall j | 0 <= j < |q| ensures ParentOk(q, j) && ChildOk(q, j) {
        assert ParentOk(p, j) && ChildOk(p, j);
      }
    } else {
      assert q[d].connected && q[d].addr == 0;
    }
  }

  /** A device that was connected, with its child, is reported when it is disconnected, the
      child first, and a second time neither is. */
  lemma {:induction false} ToldOnce(p: Pool, d: nat)
    requires Inv(p) && d < |p| && p[d].child.Some?
    ensures var c, q := p[d].child.value, Connected(p, d);
      && c < |p| && c != d
      && Told(Connected(q, c), d) == [c, d]
      && Told(Disconnected(Connected(q, c), d), d) == []
  {
    DepthAtMostTwo(p, d);
  }

  lemma {:induction false} DisconnectKeeps(p: Pool, d: nat)
    requires Inv(p) && d < |p|
    ensures p[d].child.Some? ==> p[d].child.value < |p|
    ensures Inv(Disconnected(p, d))
  {
    assert ParentOk(p, d) && ChildOk(p, d);
    if p[d].child.Some? {
      DepthAtMostTwo(p, d);
      assert ParentOk(p, p[d].child.value);
    }
    var q := Disconnected(p, d);
    forall j | 0 <= j < |q| ensures ParentOk(q, j) && ChildOk(q, j) {
      assert ParentOk(p, j) && ChildOk(p, j);
    }
  }

  /** Deleting a virtual device by index and reusing its slot leaves the parent pointing at
      an unrelated device. */
  lemma {:induction false} StaleChildCapturesStranger(a: Addr, b: Addr)
    requires a != 0 && b != 0 && a != b
    ensures var p0: Pool := [CLEAN, CLEAN];
      var p1 := CreatedVirtual(Created(p0, a), 0);
      var p2 := Created(Deleted(p1, 1), b);
      Inv(p1) && p2[0].child == Some(1) && p2[1].parent.None? && p2[1].addr == b
  {
    var p0: Pool := [CLEAN, CLEAN];
    CreateExact(p0, a);
    var p1 := Created(p0, a);
    assert p1[1..] == [CLEAN];
    assert FirstFree(p1) == 1;
    CreateVirtualExact(p1, 0);
    var p2 := CreatedVirtual(p1, 0);
    var p3 := Deleted(p2, 1);
    assert p3[1..] == [CLEAN];
    assert FirstFree(p3) == 1;
  }

  // ---------------------------------------------------------------- what each operation changes

  /** `i` is not slot `d` nor its child's. */
  predicate Elsewhere(p: Pool, d: nat, i: nat)
    requires d < |p|
  {
    i != d && p[d].child != Some(i)
  }

  /** A deletion leaves the device's slot and its child's as after setup, and no other slot
      changed. */
  lemma {:induction false} DeleteSlots(p: Pool, d: nat, i: nat)
    requires d < |p| && ChildOk(p, d) && i < |p|
    ensures Deleted(p, d)[i] == if Elsewhere(p, d, i) then p[i] else Slot(0, None, None, 0xffff, 0, false)
  {
  }

  /** Disconnecting clears the flag of the device and of its child, and nothing else. */
  lemma {:induction false} DisconnectSlots(p: Pool, d: nat, i: nat)
    requires d < |p| && ChildOk(p, d) && i < |p|
    ensures Disconnected(p, d)[i] == if Elsewhere(p, d, i) then p[i] else p[i].(connected := false)
    ensures i in Told(p, d) <==> !Elsewhere(p, d, i) && p[i].connected
  {
  }

  lemma {:induction false} LookupExact(p: Pool, a: Addr, i: nat)
    requires Inv(p) && a != 0
    ensures Lookup(p, a) == Some(i) <==> IsPhysical(p, a, i)
  {
  }

  /** Two sound pools with the same physical devices at an address are looked up alike. */
  lemma {:induction false} SameLookup(p: Pool, q: Pool, a: Addr)
    requires Inv(p) && Inv(q) && a != 0 && |p| == |q|
    requires forall i: nat :: i < |p| ==> (IsPhysical(p, a, i) <==> IsPhysical(q, a, i))
    ensures Lookup(p, a) == Lookup(q, a)
  {
    if Lookup(p, a).Some? {
      LookupExact(p, a, Lookup(p, a).value);
      LookupExact(q, a, Lookup(p, a).value);
    } else if Lookup(q, a).Some? {
      LookupExact(q, a, Lookup(q, a).value);
      LookupExact(p, a, Lookup(q, a).value);
    }
  }

  /** After a creation the address is found at the first free slot, all others as before. */
  lemma {:induction false} CreateLookup(p: Pool, a: Addr, b: Addr)
    requires Inv(p) && HasFree(p) && a != 0 && b != 0 && Lookup(p, a).None?
    ensures Lookup(Created(p, a), b) == if b == a then Some(FirstFree(p)) else Lookup(p, b)
  {
    var q := Created(p, a);
    CreateExact(p, a);
    if b == a {
      LookupExact(q, a, FirstFree(p));
    } else {
      SameLookup(p, q, b);
    }
  }

  /** A virtual device is never found, and creating one hides nothing. */
  lemma {:induction false} VirtualLookup(p: Pool, d: nat, b: Addr)
    requires Inv(p) && HasFree(p) && d < |p| && b != 0
    requires p[d].addr != 0 && p[d].parent.None? && p[d].child.None?
    ensures Lookup(CreatedVirtual(p, d), b) == Lookup(p, b)
    ensures CreatedVirtual(p, d)[FirstFree(p)].parent == Some(d) && CreatedVirtual(p, d)[d].child == Some(FirstFree(p))
  {
    CreateVirtualExact(p, d);
    SameLookup(p, CreatedVirtual(p, d), b);
  }

  /** A deleted physical device is found no more, all others as before, and its slot can be
      taken again. */
  lemma {:induction false} DeleteLookup(p: Pool, d: nat, b: Addr)
    requires Inv(p) && d < |p| && p[d].parent.None? && p[d].addr != 0 && b != 0
    ensures ChildOk(p, d)
    ensures Lookup(Deleted(p, d), b) == if b == p[d].addr then None else Lookup(p, b)
    ensures FirstFree(Deleted(p, d)) <= d
  {
    DeleteExact(p, d);
    var q := Deleted(p, d);
    assert ChildOk(p, d);
    DeleteSlots(p, d, d);
    assert q[d].addr == 0;
    if b == p[d].addr {
      if Lookup(q, b).Some? {
        var i := Lookup(q, b).value;
        DeleteSlots(p, d, i);
      }
    } else {
      forall i: nat | i < |p|
        ensures IsPhysical(p, b, i) <==> IsPhysical(q, b, i)
      {
        DeleteSlots(p, d, i);
      }
      SameLookup(p, q, b);
    }
  }

  // ---------------------------------------------------------------- whole runs

  datatype Op =
    | Create(a: Addr)            // after a failed lookup of a nonzero address
    | CreateVirtual(d: nat)      // for a childless physical device
    | Connect(d: nat)            // of a device in use
    | Disconnect(d: nat)
    | Delete(d: nat)             // of a physical device
    | RejectVirtual(d: nat)      // the platform refused the child of `d`

  predicate Allowed(p: Pool, op: Op) {
    match op
    case Create(a) => a != 0 && Lookup(p, a).None?
    case CreateVirtual(d) => d < |p| && p[d].addr != 0 && p[d].parent.None? && p[d].child.None?
    case Connect(d) => d < |p| && p[d].addr != 0
    case Disconnect(d) => d < |p| && ChildOk(p, d)
    case Delete(d) => d < |p| && p[d].parent.None? && ChildOk(p, d)
    case RejectVirtual(d) => d < |p| && p[d].child.Some? && ChildOk(p, d)
  }

  /** `uni_hid_device_get_instance_for_address`. */
  function Lookup(p: Pool, a: Addr): (r: Option<nat>)
    ensures r.Some? ==> IsPhysical(p, a, r.value)
    ensures r.None? ==> forall i: nat :: i < |p| ==> !IsPhysical(p, a, i)
  {
    LookupFrom(p, a, 0)
  }

  function LookupFrom(p: Pool, a: Addr, k: nat): (r: Option<nat>)
    requires k <= |p|
    ensures r.Some? ==> IsPhysical(p, a, r.value) && k <= r.value
    ensures r.None? ==> forall i: nat :: k <= i < |p| ==> !IsPhysical(p, a, i)
    decreases |p| - k
  {
    if k == |p| then None
    else if p[k].parent.None? && p[k].addr == a then Some(k)
    else LookupFrom(p, a, k + 1)
  }

  /** `d->child = NULL` after the refused child was deleted. */
  function Rejected(p: Pool, d: nat): (r: Pool)
    requires d < |p| && p[d].child.Some? && p[d].child.value < |p|
    ensures |r| == |p|
  {
    var q := p[p[d].child.value := CLEAN];
    q[d := q[d].(child := None)]
  }

  function Next(p: Pool, op: Op): (r: Pool)
    requires Allowed(p, op)
    ensures |r| == |p|
  {
    match op
    case Create(a) => Created(p, a)
    case CreateVirtual(d) => CreatedVirtual(p, d)
    case Connect(d) => Connected(p, d)
    case Disconnect(d) => Disconnected(p, d)
    case Delete(d) => Deleted(p, d)
    case RejectVirtual(d) => Rejected(p, d)
  }

  lemma {:induction false} RejectKeeps(p: Pool, d: nat)
    requires Inv(p) && Allowed(p, RejectVirtual(d))
    ensures Inv(Rejected(p, d))
  {
    DepthAtMostTwo(p, d);
    var q := Rejected(p, d);
    forall j | 0 <= j < |q| ensures ParentOk(q, j) && ChildOk(q, j) {
      assert ParentOk(p, j) && ChildOk(p, j);
    }
  }

  lemma {:induction false} StepKeeps(p: Pool, op: Op)
    requires Inv(p) && Allowed(p, op)
    ensures Inv(Next(p, op))
  {
    match op
    case Create(a) => if HasFree(p) { CreateExact(p, a); }
    case CreateVirtual(d) => if HasFree(p) { CreateVirtualExact(p, d); }
    case Connect(d) => ConnectExact(p, d);
    case Disconnect(d) => DisconnectKeeps(p, d);
    case Delete(d) => DeleteExact(p, d);
    case RejectVirtual(d) => RejectKeeps(p, d);
  }

  ghost predicate Run(p: Pool, ops: seq<Op>)
    decreases |ops|
  {
    ops == [] || (Allowed(p, ops[0]) && Run(Next(p, ops[0]), ops[1..]))
  }

  ghost function After(p: Pool, ops: seq<Op>): Pool
    requires Run(p, ops)
    decreases |ops|
  {
    if ops == [] then p else After(Next(p, ops[0]), ops[1..])
  }

  function Fresh(n: nat): (p: Pool)
    ensures |p| == n && forall i :: 0 <= i < n ==> p[i] == CLEAN
  {
    seq(n, _ => CLEAN)
  }

  lemma {:induction false} RunKeeps(p: Pool, ops: seq<Op>)
    requires Inv(p) && Run(p, ops)
    ensures Inv(After(p, ops))
    decreases |ops|
  {
    if ops != [] {
      StepKeeps(p, ops[0]);
      RunKeeps(Next(p, ops[0]), ops[1..]);
    }
  }

  /** In every reachable pool: links are mutual, nesting stops at two levels, free slots are
      clean, and looking up an address finds the one physical device that has it. */
  lemma {:induction false} PoolSound(n: nat, ops: seq<Op>, a: Addr, i: nat)
    requires Run(Fresh(n), ops) && a != 0
    ensures var p := After(Fresh(n), ops);
      && Inv(p)
      && (Lookup(p, a) == Some(i) <==> IsPhysical(p, a, i))
  {
    RunKeeps(Fresh(n), ops);
  }

  // ---------------------------------------------------------------- the code on the array

  class HidDevices {
    const devices: array<Slot>

    ghost predicate Sound()
      reads devices
    {
      Inv(devices[..])
    }

    constructor Setup(n: nat)
      ensures fresh(devices) && devices[..] == Fresh(n) && Sound()
    {
      devices := new Slot[n](_ => CLEAN);
    }

    method FindFree() returns (i: nat)
      ensures i == FirstFree(devices[..])
    {
      i := 0;
      while i < devices.Length
        invariant i <= devices.Length
        invariant forall j :: 0 <= j < i ==> devices[j].addr != 0
      {
        if devices[i].addr == 0 {
          return;
        }
        i := i + 1;
      }
    }

    method Create(a: Addr) returns (d: Option<nat>)
      modifies devices
      ensures devices[..] == Created(old(devices[..]), a)
      ensures d == if HasFree(old(devices[..])) then Some(FirstFree(old(devices[..]))) else None
      ensures d.Some? ==> devices[d.value] == Slot(a, None, None, 0, 0, false) && old(devices[d.value].addr) == 0
      ensures forall i :: 0 <= i < devices.Length && d != Some(i) ==> devices[i] == old(devices[i])
    {
      var i := FindFree();
      if i == devices.Length {
        return None;
      }
      devices[i] := Slot(a, None, None, 0, 0, false);
      return Some(i);
    }

    method CreateVirtual(parent: nat, enabled: bool) returns (d: Option<nat>)
      requires parent < devices.Length
      modifies devices
      ensures devices[..] == if enabled then CreatedVirtual(old(devices[..]), parent) else old(devices[..])
      ensures d == if enabled && HasFree(old(devices[..])) then Some(FirstFree(old(devices[..]))) else None
      ensures d.Some? && d != Some(parent) ==>
        && devices[d.value] == old(devices[d.value]).(addr := old(devices[parent].addr), parent := Some(parent), kind := old(devices[parent].kind))
        && devices[parent] == old(devices[parent]).(child := d)
      ensures forall i :: 0 <= i < devices.Length && d != Some(i) && i != parent ==> devices[i] == old(devices[i])
    {
      if !enabled {
        return None;
      }
      var i := FindFree();
      if i == devices.Length {
        return None;
      }
      devices[i] := devices[i].(addr := devices[parent].addr);
      devices[i] := devices[i].(parent := Some(parent));
      devices[parent] := devices[parent].(child := Some(i));
      devices[i] := devices[i].(kind := devices[parent].kind);
      return Some(i);
    }

    method GetInstanceForAddress(a: Addr) returns (d: Option<nat>)
      ensures d == Lookup(devices[..], a)
    {
      var i := 0;
      while i < devices.Length
        invariant i <= devices.Length
        invariant Lookup(devices[..], a) == LookupFrom(devices[..], a, i)
      {
        if devices[i].parent.None? && devices[i].addr == a {
          return Some(i);
        }
        i := i + 1;
      }
      return None;
    }

    /** Returns the device the platform is told about. */
    method Connect(d: nat) returns (told: nat)
      requires d < devices.Length
      modifies devices
      ensures devices[..] == Connected(old(devices[..]), d) && told == d
      ensures devices[d] == old(devices[d]).(connected := true)
      ensures forall i :: 0 <= i < devices.Length && i != d ==> devices[i] == old(devices[i])
    {
      devices[d] := devices[d].(connected := true);
      told := d;
    }

    /** Child first, then the device; returns the devices the platform is told about. */
    method Disconnect(d: nat) returns (told: seq<nat>)
      requires Sound() && d < devices.Length
      modifies devices
      ensures devices[d].child == old(devices[d].child)
      ensures old(ChildOk(devices[..], d)) && devices[..] == Disconnected(old(devices[..]), d)
      ensures told == Told(old(devices[..]), d)
      ensures forall i :: 0 <= i < devices.Length ==>
                devices[i] == if old(Elsewhere(devices[..], d, i)) then old(devices[i]) else old(devices[i]).(connected := false)
      ensures Sound()
      decreases if devices[d].parent.None? then 1 else 0
    {
      ghost var p := devices[..];
      DisconnectKeeps(p, d);
      assert ChildOk(p, d);
      told := [];
      if devices[d].child.Some? {
        DepthAtMostTwo(p, d);
        assert ParentOk(p, p[d].child.value);
        told := Disconnect(devices[d].child.value);
      }
      var connected := devices[d].connected;
      devices[d] := devices[d].(connected := false);
      if connected {
        told := told + [d];
      }
      assert devices[..] == Disconnected(p, d);
    }

    /** Child first, then the device. */
    method Delete(d: nat)
      requires Sound() && d < devices.Length
      modifies devices
      ensures old(ChildOk(devices[..], d)) && devices[..] == Deleted(old(devices[..]), d)
      ensures Sound() <==> old(devices[d].parent.None?)
      ensures forall i :: 0 <= i < devices.Length ==>
                devices[i] == if old(Elsewhere(devices[..], d, i)) then old(devices[i]) else Slot(0, None, None, 0xffff, 0, false)
      decreases if devices[d].parent.None? then 1 else 0
    {
      ghost var p := devices[..];
      DeleteExact(p, d);
      assert ChildOk(p, d);
      if devices[d].child.Some? {
        DepthAtMostTwo(p, d);
        Delete(devices[d].child.value);
      }
      devices[d] := CLEAN;
      assert devices[..] == Deleted(p, d);
    }
  }
}
