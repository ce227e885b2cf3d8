/** BTstack's byte ring buffer (`btstack_ring_buffer.c`): two indices and a full flag over
    a fixed block of storage, refined to a sequence of bytes. */
module ByteRing {

  import opened Common

  function Wrap(i: nat, size: nat): nat { if i == size then 0 else i }

  /** How many bytes lie between the two indices. */
  function Count(size: nat, r: nat, w: nat, full: bool): (n: nat)
    requires r < size && w < size
    ensures n <= size
  {
    if full && r == w then size else if r <= w then w - r else w + size - r
  }

  /** The `n` bytes from `r` on, oldest first. */
  function Stored(st: seq<Byte>, r: nat, n: nat): (s: seq<Byte>)
    requires r < |st| && n <= |st|
    ensures |s| == n
  {
    seq(n, k requires 0 <= k < n => st[RingIndex(r, k, |st|)])
  }

  /** Writing a chunk behind the last byte, short of the end of the storage, appends it. */
  lemma StoredAppend(st: seq<Byte>, st': seq<Byte>, r: nat, w: nat, data: seq<Byte>)
    requires r < |st| && w < |st| && w + |data| <= |st|
    requires |data| <= |st| - Count(|st|, r, w, false)
    requires |st'| == |st|
    requires forall i :: 0 <= i < |st| ==> st'[i] == if w <= i < w + |data| then data[i - w] else st[i]
    ensures var n := Count(|st|, r, w, false); Stored(st', r, n + |data|) == Stored(st, r, n) + data
  {
    var n := Count(|st|, r, w, false);
    forall k | 0 <= k < n + |data|
      ensures Stored(st', r, n + |data|)[k] == (Stored(st, r, n) + data)[k]
    {
      var i := RingIndex(r, k, |st|);
      assert k >= n ==> i == w + (k - n);
    }
  }

  /** Dropping bytes from the front leaves the rest. */
  lemma StoredDrop(st: seq<Byte>, r: nat, n: nat, m: nat)
    requires r < |st| && m <= n <= |st| && r + m <= |st|
    ensures Stored(st, r, n)[..m] == st[r..r + m]
    ensures Stored(st, r, n)[m..] == Stored(st, Wrap(r + m, |st|), n - m)
  {
    forall k | 0 <= k < n - m
      ensures Stored(st, r, n)[m..][k] == Stored(st, Wrap(r + m, |st|), n - m)[k]
    {
      assert RingIndex(r, m + k, |st|) == RingIndex(Wrap(r + m, |st|), k, |st|);
    }
  }

  lemma TwoChunks(s: seq<Byte>, a: nat, b: nat)
    requires a + b <= |s|
    ensures s[..a] + s[a..][..b] == s[..a + b] && s[a..][b..] == s[a + b..]
  {
  }

  class Ring {
    const storage: array<Byte>
    var lastRead: nat
    var lastWritten: nat
    var full: bool

    ghost predicate Valid()
      reads this
    {
      && lastRead < storage.Length
      && lastWritten < storage.Length
      && (full ==> lastRead == lastWritten)
    }

    /** The stored bytes, oldest first. */
    ghost function Contents(): (s: seq<Byte>)
      requires Valid()
      reads this, storage
    {
      Stored(storage[..], lastRead, Count(storage.Length, lastRead, lastWritten, full))
    }

    constructor (size: nat)
      requires size > 0
      ensures Valid() && fresh(storage) && storage.Length == size && Contents() == []
    {
      storage := new Byte[size];
      lastRead, lastWritten, full := 0, 0, false;
    }

    method BytesAvailable() returns (n: nat)
      requires Valid()
      ensures n == |Contents()| <= storage.Length
    {
      if full {
        return storage.Length;
      }
      var diff := lastWritten - lastRead;
      if diff >= 0 {
        return diff;
      }
      return diff + storage.Length;
    }

    method BytesFree() returns (n: nat)
      requires Valid()
      ensures n == storage.Length - |Contents()|
    {
      var available := BytesAvailable();
      n := storage.Length - available;
    }

    /** The first chunk of a write: up to the end of the storage. */
    method CopyIn(data: seq<Byte>)
      requires Valid() && lastWritten + |data| <= storage.Length
      requires |data| <= storage.Length - |Contents()|
      requires 0 < |data|
      modifies this`lastWritten, this`full, storage
      ensures Valid() && Contents() == old(Contents()) + data
      ensures lastWritten == if old(lastWritten) + |data| == storage.Length then 0 else old(lastWritten) + |data|
    {
      ghost var st, r, w := storage[..], lastRead, lastWritten;
      forall i | 0 <= i < |data| {
        storage[lastWritten + i] := data[i];
      }
      StoredAppend(st, storage[..], r, w, data);
      lastWritten := lastWritten + |data|;
      if lastWritten == storage.Length {
        lastWritten := 0;
      }
      if lastWritten == lastRead {
        full := true;
      }
    }

    /** All or nothing: a block that does not fit is refused. */
    method Write(data: seq<Byte>) returns (ok: bool)
      requires Valid()
      modifies this`lastWritten, this`full, storage
      ensures Valid()
      ensures ok == (|data| <= storage.Length - |old(Contents())|)
      ensures Contents() == if ok then old(Contents()) + data else old(Contents())
    {
      var free := BytesFree();
      if free < |data| {
        return false;
      }
      if |data| == 0 {
        return true;
      }
      var untilEnd := storage.Length - lastWritten;
      var first := if untilEnd < |data| then untilEnd else |data|;
      CopyIn(data[..first]);
      if first != |data| {
        assert data == data[..first] + data[first..];
        CopyIn(data[first..]);
      }
      return true;
    }

    /** One chunk of a read. */
    method CopyOut(n: nat) returns (data: seq<Byte>)
      requires Valid() && 0 < n <= |Contents()| && lastRead + n <= storage.Length
      modifies this`lastRead, this`full
      ensures Valid() && !full
      ensures data == old(Contents())[..n] && Contents() == old(Contents())[n..]
      ensures lastRead == if old(lastRead) + n == storage.Length then 0 else old(lastRead) + n
    {
      StoredDrop(storage[..], lastRead, Count(storage.Length, lastRead, lastWritten, full), n);
      data := storage[lastRead..lastRead + n];
      assert data == storage[..][lastRead..lastRead + n];
      lastRead := lastRead + n;
      if lastRead == storage.Length {
        lastRead := 0;
      }
      full := false;
    }

    /** Takes at most `n` bytes from the front. */
    method Read(n: nat) returns (data: seq<Byte>)
      requires Valid()
      modifies this`lastRead, this`full
      ensures Valid()
      ensures var k := if n < |old(Contents())| then n else |old(Contents())|;
        data == old(Contents())[..k] && Contents() == old(Contents())[k..]
    {
      var available := BytesAvailable();
      var remaining := if n < available then n else available;
      if remaining == 0 {
        return [];
      }
      var untilEnd := storage.Length - lastRead;
      var first := if untilEnd < remaining then untilEnd else remaining;
      ghost var before := Contents();
      data := CopyOut(first);
      if first != remaining {
        TwoChunks(before, first, remaining - first);
        var rest := CopyOut(remaining - first);
        data := data + rest;
      }
    }
  }
}
