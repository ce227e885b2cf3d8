/** Polynomials over GF(2) as bit strings, highest power first (transmission order),
    and the remainder of schoolbook long division by the CRC-32 generator of
    clause 3.2.9 of IEEE 802.3. */
module Gf2 {

  type Bits = seq<bool>

  /** The exponents of the generator below its leading 32. */
  predicate IsExponent(e: int) {
    e == 26 || e == 23 || e == 22 || e == 16 || e == 12 || e == 11 || e == 10
    || e == 8 || e == 7 || e == 5 || e == 4 || e == 2 || e == 1 || e == 0
  }

  /** The generator without its leading coefficient x^32. */
  function Generator(): (g: Bits)
    ensures |g| == 32
  {
    seq(32, i requires 0 <= i < 32 => IsExponent(31 - i))
  }

  function Zeros(n: nat): (z: Bits)
    ensures |z| == n && forall i :: 0 <= i < n ==> !z[i]
  {
    seq(n, _ => false)
  }

  function Ones(n: nat): (z: Bits)
    ensures |z| == n && forall i :: 0 <= i < n ==> z[i]
  {
    seq(n, _ => true)
  }

  predicate IsZero(a: Bits) {
    forall i :: 0 <= i < |a| ==> !a[i]
  }

  /** `a` added to the leading coefficients of `b`. */
  function Xor(a: Bits, b: Bits): (r: Bits)
    requires |a| <= |b|
    ensures |r| == |b|
    ensures forall i :: 0 <= i < |b| ==> r[i] == (b[i] != (i < |a| && a[i]))
  {
    seq(|b|, i requires 0 <= i < |b| => b[i] != (i < |a| && a[i]))
  }

  /** One row of the long division: the leading coefficient is cancelled. */
  function Cancel(w: Bits): (r: Bits)
    requires |w| >= 33
    ensures |r| == |w| - 1
  {
    Xor(if w[0] then Generator() else [], w[1..])
  }

  function Remainder(w: Bits): (r: Bits)
    requires |w| >= 32
    ensures |r| == 32
    decreases |w|
  {
    if |w| == 32 then w else Remainder(Cancel(w))
  }

  /** Multiplication of a remainder by x^n. */
  function Times(r: Bits, n: nat): (p: Bits)
    requires |r| == 32
    ensures |p| == 32
    decreases n
  {
    if n == 0 then r else Times(Cancel(r + [false]), n - 1)
  }

  // ---------------------------------------------------------------- long division

  lemma {:induction false} XorTail(a: Bits, b: Bits)
    requires 0 < |a| == |b|
    ensures Xor(a, b)[1..] == Xor(a[1..], b[1..])
  {
    forall i | 0 <= i < |a| - 1
      ensures Xor(a, b)[1..][i] == Xor(a[1..], b[1..])[i]
    {
      assert Xor(a, b)[1..][i] == Xor(a, b)[i + 1];
    }
  }

  lemma {:induction false} XorOfCancels(ga: Bits, gb: Bits, g: Bits, a: Bits, b: Bits)
    requires |a| == |b| >= 32 && |g| == 32 && (ga == g || ga == []) && (gb == g || gb == [])
    ensures Xor(if (ga == g) != (gb == g) then g else [], Xor(a, b)) == Xor(Xor(ga, a), Xor(gb, b))
  {
  }

  lemma {:induction false} CancelLinear(a: Bits, b: Bits)
    requires |a| == |b| >= 33
    ensures Cancel(Xor(a, b)) == Xor(Cancel(a), Cancel(b))
  {
    var g := Generator();
    var ga: Bits, gb: Bits := if a[0] then g else [], if b[0] then g else [];
    XorTail(a, b);
    XorOfCancels(ga, gb, g, a[1..], b[1..]);
  }

  lemma {:induction false} RemainderLinear(a: Bits, b: Bits)
    requires |a| == |b| >= 32
    ensures Remainder(Xor(a, b)) == Xor(Remainder(a), Remainder(b))
    decreases |a|
  {
    if |a| > 32 {
      CancelLinear(a, b);
      RemainderLinear(Cancel(a), Cancel(b));
    }
  }

  /** Leading zeros do not change a remainder. */
  lemma {:induction false} RemainderSkipsZeros(n: nat, w: Bits)
    requires |w| >= 32
    ensures Remainder(Zeros(n) + w) == Remainder(w)
    decreases n
  {
    if n == 0 {
      assert Zeros(n) + w == w;
    } else {
      var z := Zeros(n) + w;
      assert Cancel(z) == z[1..] == Zeros(n - 1) + w;
      RemainderSkipsZeros(n - 1, w);
    }
  }

  lemma {:induction false} CancelAbsorbed(r: Bits, v: Bits)
    requires |r| == 32 && |v| >= 33 && !v[0]
    ensures Cancel(Xor(r, v)) == Xor(Cancel(r + [false]), v[1..])
  {
    var g: Bits := if r[0] then Generator() else [];
    assert Xor(r, v)[0] == r[0] == (r + [false])[0];
    assert Cancel(r + [false]) == Xor(g, (r + [false])[1..]);
    assert |r + [false]| == 33 && (r + [false])[1..] == r[1..] + [false];
    forall i | 0 <= i < |v| - 1
      ensures Xor(r, v)[1..][i] == Xor((r + [false])[1..], v[1..])[i]
    {
      assert Xor(r, v)[1..][i] == Xor(r, v)[i + 1];
    }
    assert Xor(r, v)[1..] == Xor((r + [false])[1..], v[1..]);
  }

  /** Dividing past `n` already absorbed places multiplies the register by x^n. */
  lemma {:induction false} RemainderAbsorbed(r: Bits, n: nat, v: Bits)
    requires |r| == 32 && |v| >= 32
    ensures Remainder(Xor(r, Zeros(n) + v)) == Remainder(Xor(Times(r, n), v))
    decreases n
  {
    if n == 0 {
      assert Zeros(n) + v == v;
    } else {
      var z, next := Zeros(n) + v, Cancel(r + [false]);
      calc {
        Remainder(Xor(r, z));
        Remainder(Cancel(Xor(r, z)));
        { CancelAbsorbed(r, z); }
        Remainder(Xor(next, z[1..]));
        { assert z[1..] == Zeros(n - 1) + v; }
        Remainder(Xor(next, Zeros(n - 1) + v));
        { RemainderAbsorbed(next, n - 1, v); }
        Remainder(Xor(Times(r, n), v));
      }
    }
  }

  /** The generator has a nonzero constant term, so multiplying by x loses nothing. */
  lemma {:induction false} CancelNonZero(r: Bits)
    requires |r| == 32 && !IsZero(r)
    ensures !IsZero(Cancel(r + [false]))
  {
    var p := Cancel(r + [false]);
    if r[0] {
      assert p[31];
    } else {
      var i :| 0 <= i < 32 && r[i];
      assert p[i - 1];
    }
  }

  lemma {:induction false} TimesNonZero(r: Bits, n: nat)
    requires |r| == 32 && !IsZero(r)
    ensures !IsZero(Times(r, n))
    decreases n
  {
    if n > 0 {
      CancelNonZero(r);
      TimesNonZero(Cancel(r + [false]), n - 1);
    }
  }

  lemma {:induction false} TimesLinear(a: Bits, b: Bits, n: nat)
    requires |a| == |b| == 32
    ensures Times(Xor(a, b), n) == Xor(Times(a, n), Times(b, n))
    decreases n
  {
    if n > 0 {
      assert Xor(a, b) + [false] == Xor(a + [false], b + [false]);
      CancelLinear(a + [false], b + [false]);
      TimesLinear(Cancel(a + [false]), Cancel(b + [false]), n - 1);
    }
  }

  lemma {:induction false} XorZeroIff(a: Bits, b: Bits)
    requires |a| == |b|
    ensures IsZero(Xor(a, b)) <==> a == b
  {
    if IsZero(Xor(a, b)) {
      forall i | 0 <= i < |a| ensures a[i] == b[i] {
        assert !Xor(a, b)[i];
      }
    }
  }

  lemma {:induction false} TimesInjective(a: Bits, b: Bits, n: nat)
    requires |a| == |b| == 32
    ensures Times(a, n) == Times(b, n) <==> a == b
  {
    TimesLinear(a, b, n);
    XorZeroIff(a, b);
    XorZeroIff(Times(a, n), Times(b, n));
    if a != b {
      TimesNonZero(Xor(a, b), n);
    }
  }
}

/** The report checksum of `uni_crc32_le`: a bit-serial, reflected CRC-32.

    Machine words are their bit strings, least significant bit first, so `c >> 1` is
    `c[1..] + [false]`, `c & 1` is `c[0]` and mixing a byte into a word changes the
    first eight places.  `Crc` is the value of the two nested loops (`ComputeCrc`); it
    is proved to be the remainder of the long division of the seeded message
    (`CrcIsRemainder`), and the guarantees that the DualSense and DualShock 4 senders
    rely on follow for messages of every length. */
module Crc32 {
  import opened Gf2

  type Word = w: Bits | |w| == 32 witness Zeros(32)
  type Byte = b: Bits | |b| == 8 witness Zeros(8)

  function NibbleBits(n: nat): (r: Bits)
    ensures |r| == 4
  {
    [n % 2 == 1, n / 2 % 2 == 1, n / 4 % 2 == 1, n / 8 % 2 == 1]
  }

  function ByteOf(n: nat): Byte {
    NibbleBits(n) + NibbleBits(n / 16)
  }

  /** The word with these four bytes, highest first, as in a C literal. */
  function WordOf(b3: nat, b2: nat, b1: nat, b0: nat): Word {
    ByteOf(b0) + ByteOf(b1) + ByteOf(b2) + ByteOf(b3)
  }

  /** 0xedb88320. */
  const CRCPOLY: Word := WordOf(0xed, 0xb8, 0x83, 0x20)

  lemma NibbleAt(n: nat)
    ensures NibbleBits(n)[0] == (n % 2 == 1) && NibbleBits(n)[1] == (n / 2 % 2 == 1)
    ensures NibbleBits(n)[2] == (n / 4 % 2 == 1) && NibbleBits(n)[3] == (n / 8 % 2 == 1)
  {
  }

  lemma {:induction false} ByteAt(n: nat, i: nat)
    requires i < 8
    ensures ByteOf(n)[i] == if i < 4 then NibbleBits(n)[i] else NibbleBits(n / 16)[i - 4]
  {
  }

  lemma {:induction false} WordAt(b3: nat, b2: nat, b1: nat, b0: nat, i: nat)
    requires i < 32
    ensures WordOf(b3, b2, b1, b0)[i]
         == if i < 8 then ByteOf(b0)[i] else if i < 16 then ByteOf(b1)[i - 8]
            else if i < 24 then ByteOf(b2)[i - 16] else ByteOf(b3)[i - 24]
  {
  }

  /** Its bits, from the least significant on, are the generator's coefficients from x^31
      down to 1. */
  lemma {:induction false} PolynomialIsGenerator()
    ensures CRCPOLY == Generator()
  {
    forall i | 0 <= i < 32
      ensures CRCPOLY[i] == Generator()[i]
    {
      PolyBit(i);
    }
  }

  lemma {:induction false} PolyBit(i: nat)
    requires i < 32
    ensures WordOf(0xed, 0xb8, 0x83, 0x20)[i] == IsExponent(31 - i)
  {
    WordAt(0xed, 0xb8, 0x83, 0x20, i);
    if i < 8 {
      PolyByte(0x20, 0, i);
    } else if i < 16 {
      PolyByte(0x83, 8, i - 8);
    } else if i < 24 {
      PolyByte(0xb8, 16, i - 16);
    } else {
      PolyByte(0xed, 24, i - 24);
    }
  }

  lemma {:induction false} PolyByte(n: nat, at: nat, i: nat)
    requires i < 8
    requires (n, at) == (0x20, 0) || (n, at) == (0x83, 8) || (n, at) == (0xb8, 16) || (n, at) == (0xed, 24)
    ensures ByteOf(n)[i] == IsExponent(31 - (at + i))
  {
    ByteAt(n, i);
    NibbleAt(n);
    NibbleAt(n / 16);
  }

  const ALL_ONES: Word := Ones(32)

  function ShiftRight(c: Word): Word { c[1..] + [false] }

  function Not(c: Word): Word { Xor(ALL_ONES, c) }

  /** One turn of the inner loop. */
  function BitStep(c: Word): Word {
    Xor(if c[0] then CRCPOLY else Zeros(32), ShiftRight(c))
  }

  function Shift(c: Word, n: nat): Word
    decreases n
  {
    if n == 0 then c else Shift(BitStep(c), n - 1)
  }

  function Crc(c: Word, data: seq<Byte>): Word
    decreases |data|
  {
    if data == [] then c else Crc(Shift(Xor(data[0], c), 8), data[1..])
  }

  lemma {:induction false} ShiftByOne(w: Word, n: nat)
    requires n > 0
    ensures Shift(w, n) == Shift(BitStep(w), n - 1)
  {
  }

  /** The inner loop. */
  method ShiftOut(mixed: Word, bits: nat) returns (crc: Word)
    ensures crc == Shift(mixed, bits)
  {
    crc := mixed;
    var i := 0;
    while i < bits
      invariant i <= bits
      invariant Shift(crc, bits - i) == Shift(mixed, bits)
    {
      ShiftByOne(crc, bits - i);
      var mult: Word := if crc[0] then CRCPOLY else Zeros(32);
      var next: Word := Xor(mult, ShiftRight(crc));
      assert next == BitStep(crc);
      crc := next;
      i := i + 1;
    }
  }

  /** The outer loop. */
  method ComputeCrc(seed: Word, data: array<Byte>, len: nat) returns (crc: Word)
    requires len <= data.Length
    ensures crc == Crc(seed, data[..len])
  {
    crc := seed;
    var k := 0;
    while k < len
      invariant k <= len
      invariant Crc(crc, data[k..len]) == Crc(seed, data[..len])
    {
      assert data[k..len][1..] == data[k + 1..len];
      crc := ShiftOut(Xor(data[k], crc), 8);
      k := k + 1;
    }
  }

  // ---------------------------------------------------------------- long division

  /** A message in transmission order: each byte least significant bit first. */
  function MessageBits(data: seq<Byte>): (r: Bits)
    ensures |r| == 8 * |data|
  {
    if data == [] then [] else data[0] + MessageBits(data[1..])
  }

  lemma {:induction false} BitStepIsRow(c: Word)
    ensures BitStep(c) == Cancel(c + [false])
  {
    PolynomialIsGenerator();
    assert (c + [false])[1..] == ShiftRight(c);
  }

  lemma {:induction false} ShiftIsTimes(c: Word, n: nat)
    ensures Shift(c, n) == Times(c, n)
    decreases n
  {
    if n > 0 {
      BitStepIsRow(c);
      ShiftIsTimes(BitStep(c), n - 1);
    }
  }

  /** Clause 3.2.9 of IEEE 802.3: the checksum is the remainder of x^32 times the message,
      with the seed added to its leading coefficients, divided by the generator. */
  lemma {:induction false} CrcIsRemainder(c: Word, data: seq<Byte>)
    ensures Crc(c, data) == Remainder(Xor(c, MessageBits(data) + Zeros(32)))
    decreases |data|
  {
    if data == [] {
      assert MessageBits(data) + Zeros(32) == Zeros(32);
      assert Xor(c, Zeros(32)) == c;
    } else {
      var mixed: Word := Xor(data[0], c);
      var rest := MessageBits(data[1..]) + Zeros(32);
      assert MessageBits(data) + Zeros(32) == data[0] + rest;
      assert Xor(c, data[0] + rest) == Xor(mixed, Zeros(8) + rest);
      RemainderAbsorbed(mixed, 8, rest);
      ShiftIsTimes(mixed, 8);
      CrcIsRemainder(Shift(mixed, 8), data[1..]);
    }
  }

  // ---------------------------------------------------------------- algebra of the checksum

  /** Checksums chain: a message may be processed in pieces. */
  lemma {:induction false} CrcConcat(c: Word, a: seq<Byte>, b: seq<Byte>)
    ensures Crc(c, a + b) == Crc(Crc(c, a), b)
    decreases |a|
  {
    if a == [] {
      assert a + b == b;
    } else {
      assert (a + b)[1..] == a[1..] + b;
      CrcConcat(Shift(Xor(a[0], c), 8), a[1..], b);
    }
  }

  function XorBytes(a: seq<Byte>, b: seq<Byte>): (r: seq<Byte>)
    requires |a| == |b|
    ensures |r| == |a|
  {
    if a == [] then [] else [Xor(a[0], b[0])] + XorBytes(a[1..], b[1..])
  }

  /** The checksum is linear over GF(2), in the seed and the message together. */
  lemma {:induction false} CrcLinear(c: Word, d: Word, a: seq<Byte>, b: seq<Byte>)
    requires |a| == |b|
    ensures Crc(Xor(c, d), XorBytes(a, b)) == Xor(Crc(c, a), Crc(d, b))
    decreases |a|
  {
    if a != [] {
      var x: Word, y: Word := Xor(a[0], c), Xor(b[0], d);
      assert XorBytes(a, b)[1..] == XorBytes(a[1..], b[1..]);
      assert Xor(XorBytes(a, b)[0], Xor(c, d)) == Xor(x, y);
      ShiftIsTimes(x, 8);
      ShiftIsTimes(y, 8);
      ShiftIsTimes(Xor(x, y), 8);
      TimesLinear(x, y, 8);
      CrcLinear(Shift(x, 8), Shift(y, 8), a[1..], b[1..]);
    }
  }

  /** For a fixed message the checksum is injective in the seed. */
  lemma {:induction false} CrcSeedInjective(c: Word, d: Word, data: seq<Byte>)
    ensures Crc(c, data) == Crc(d, data) <==> c == d
    decreases |data|
  {
    if data != [] {
      var x: Word, y: Word := Xor(data[0], c), Xor(data[0], d);
      ShiftIsTimes(x, 8);
      ShiftIsTimes(y, 8);
      TimesInjective(x, y, 8);
      XorCancels(data[0], c, d);
      CrcSeedInjective(Shift(x, 8), Shift(y, 8), data[1..]);
    }
  }

  lemma {:induction false} XorCancels(a: Bits, b: Bits, c: Bits)
    requires |a| <= |b| == |c|
    ensures Xor(a, b) == Xor(a, c) <==> b == c
  {
    if Xor(a, b) == Xor(a, c) {
      forall i | 0 <= i < |b| ensures b[i] == c[i] {
        assert Xor(a, b)[i] == Xor(a, c)[i];
      }
    }
  }

  // ---------------------------------------------------------------- error detection

  /** Two bit strings that agree outside the 32 places from `at` on. */
  ghost predicate DifferWithinWindow(a: Bits, b: Bits, at: nat) {
    |a| == |b| && a != b && forall i :: 0 <= i < |a| && !(at <= i < at + 32) ==> a[i] == b[i]
  }

  lemma {:induction false} ShiftedBurst(burst: Bits, n: nat)
    requires |burst| == 32 && !IsZero(burst)
    ensures !IsZero(Remainder(burst + Zeros(n)))
  {
    assert burst + Zeros(n) == Xor(burst, Zeros(n) + Zeros(32));
    RemainderAbsorbed(burst, n, Zeros(32));
    assert Xor(Times(burst, n), Zeros(32)) == Times(burst, n);
    TimesNonZero(burst, n);
  }

  ghost predicate ZeroOutside(e: Bits, at: nat) {
    at + 32 <= |e| && forall i :: 0 <= i < |e| && !(at <= i < at + 32) ==> !e[i]
  }

  lemma {:induction false} SplitWindow(e: Bits, at: nat)
    requires ZeroOutside(e, at)
    ensures e == Zeros(at) + (e[at..at + 32] + Zeros(|e| - at - 32))
    ensures IsZero(e[at..at + 32]) ==> IsZero(e)
  {
    var burst := e[at..at + 32];
    if IsZero(burst) {
      forall i | 0 <= i < |e| ensures !e[i] {
        if at <= i < at + 32 {
          assert !burst[i - at];
        }
      }
    }
  }

  lemma {:induction false} BurstRemainder(e: Bits, at: nat)
    requires ZeroOutside(e, at) && !IsZero(e)
    ensures !IsZero(Remainder(e))
  {
    var burst, tail := e[at..at + 32], |e| - at - 32;
    SplitWindow(e, at);
    RemainderSkipsZeros(at, burst + Zeros(tail));
    ShiftedBurst(burst, tail);
  }

  lemma {:induction false} ErrorWindow(a: Bits, b: Bits, at: nat)
    requires DifferWithinWindow(a, b, at)
    ensures ZeroOutside(Xor(a + Zeros(32), b + Zeros(32)), at)
    ensures !IsZero(Xor(a + Zeros(32), b + Zeros(32)))
  {
    var x, y := a + Zeros(32), b + Zeros(32);
    var k: nat :| k < |a| && a[k] != b[k];
    assert x[k] == a[k] && y[k] == b[k];
    assert Xor(x, y)[k];
  }

  lemma XorOfSeeded(c: Word, x: Bits, y: Bits)
    requires |x| == |y| >= 32
    ensures Xor(Xor(c, x), Xor(c, y)) == Xor(x, y)
  {
  }

  /** Every error burst of at most 32 bits, aligned to bytes or not, changes the checksum. */
  lemma {:induction false} BurstDetected(c: Word, a: seq<Byte>, b: seq<Byte>, at: nat)
    requires DifferWithinWindow(MessageBits(a), MessageBits(b), at)
    ensures Crc(c, a) != Crc(c, b)
  {
    var x, y := MessageBits(a) + Zeros(32), MessageBits(b) + Zeros(32);
    ErrorWindow(MessageBits(a), MessageBits(b), at);
    BurstRemainder(Xor(x, y), at);
    XorOfSeeded(c, x, y);
    RemainderLinear(Xor(c, x), Xor(c, y));
    CrcIsRemainder(c, a);
    CrcIsRemainder(c, b);
    XorZeroIff(Crc(c, a), Crc(c, b));
  }

  // ---------------------------------------------------------------- sealed reports

  /** A word stored in memory, lowest byte first. */
  function LittleEndian(w: Word): (r: seq<Byte>)
    ensures |r| == 4
  {
    [w[..8], w[8..16], w[16..24], w[24..]]
  }

  /** The value the sender stores in the last four bytes of a report. */
  function Checksum(body: seq<Byte>): Word { Not(Crc(ALL_ONES, body)) }

  /** A report as the DualSense and DualShock 4 drivers put it on the wire. */
  function Seal(body: seq<Byte>): seq<Byte> { body + LittleEndian(Checksum(body)) }

  /** What every intact sealed report leaves in the register, whatever its body. */
  function Residue(): Word { Shift(ALL_ONES, 32) }

  lemma {:induction false} MessageBitsOfWord(w: Word)
    ensures MessageBits(LittleEndian(w)) == w
  {
    var le := LittleEndian(w);
    assert MessageBits(le[3..]) == le[3];
    assert MessageBits(le[2..]) == le[2] + MessageBits(le[3..]);
    assert MessageBits(le[1..]) == le[1] + MessageBits(le[2..]);
  }

  lemma {:induction false} RegisterShift(r: Word, n: nat)
    ensures Remainder(Xor(r, Zeros(n) + Zeros(32))) == Shift(r, n)
  {
    RemainderAbsorbed(r, n, Zeros(32));
    ShiftIsTimes(r, n);
    assert Xor(Times(r, n), Zeros(32)) == Times(r, n);
  }

  lemma MixedAhead(c: Word, w: Word)
    ensures Xor(c, w + Zeros(32)) == Xor(Xor(w, c), Zeros(|w|) + Zeros(32))
  {
  }

  lemma {:induction false} CrcOfWord(c: Word, w: Word)
    ensures Crc(c, LittleEndian(w)) == Shift(Xor(w, c), |w|)
  {
    CrcIsRemainder(c, LittleEndian(w));
    MessageBitsOfWord(w);
    MixedAhead(c, w);
    RegisterShift(Xor(w, c), |w|);
  }

  lemma {:induction false} OnesIffNot(w: Word, c: Word)
    ensures Xor(w, c) == ALL_ONES <==> w == Not(c)
  {
    if Xor(w, c) == ALL_ONES {
      forall i | 0 <= i < 32 ensures w[i] == Not(c)[i] {
        assert Xor(w, c)[i];
      }
    }
    if w == Not(c) {
      forall i | 0 <= i < 32 ensures Xor(w, c)[i] {
        assert w[i] == !c[i];
      }
    }
  }

  /** A receiver that runs the checksum over a whole report finds the residue exactly when
      the last four bytes are the checksum of the rest. */
  lemma {:induction false} ResidueIffSealed(body: seq<Byte>, w: Word)
    ensures Crc(ALL_ONES, body + LittleEndian(w)) == Residue() <==> w == Checksum(body)
  {
    var c := Crc(ALL_ONES, body);
    CrcConcat(ALL_ONES, body, LittleEndian(w));
    CrcOfWord(c, w);
    ShiftIsTimes(Xor(w, c), |w|);
    ShiftIsTimes(ALL_ONES, |w|);
    TimesInjective(Xor(w, c), ALL_ONES, |w|);
    OnesIffNot(w, c);
  }

  /** A sealed report hit by one burst of at most 32 bits is never mistaken for intact. */
  lemma {:induction false} SealDetectsBurst(body: seq<Byte>, received: seq<Byte>, at: nat)
    requires DifferWithinWindow(MessageBits(Seal(body)), MessageBits(received), at)
    ensures Crc(ALL_ONES, Seal(body)) == Residue() != Crc(ALL_ONES, received)
  {
    ResidueIffSealed(body, Checksum(body));
    BurstDetected(ALL_ONES, Seal(body), received, at);
  }

  /** What the wire carries, in terms of long division alone: each bit of the checksum is the
      complement of the remainder's, the message being seeded with 32 ones. */
  lemma {:induction false} ChecksumExact(body: seq<Byte>, i: nat)
    requires i < 32
    ensures Checksum(body)[i] == !Remainder(Xor(Ones(32), MessageBits(body) + Zeros(32)))[i]
  {
    CrcIsRemainder(Ones(32), body);
  }

  /** A sealed report is its body and then those 32 bits in transmission order. */
  lemma {:induction false} SealExact(body: seq<Byte>, i: nat)
    requires i < 32
    ensures |Seal(body)| == |body| + 4 && Seal(body)[..|body|] == body
    ensures MessageBits(Seal(body)[|body|..])[i] == !Remainder(Xor(Ones(32), MessageBits(body) + Zeros(32)))[i]
  {
    ChecksumExact(body, i);
    MessageBitsOfWord(Checksum(body));
    assert Seal(body)[|body|..] == LittleEndian(Checksum(body));
  }

  // ---------------------------------------------------------------- the residue

  /** The eight bits of a byte by name, and a word as four of them, so that concrete words
      can be computed. */
  datatype Octet = Octet(b0: bool, b1: bool, b2: bool, b3: bool, b4: bool, b5: bool, b6: bool, b7: bool)

  datatype Quad = Quad(o0: Octet, o1: Octet, o2: Octet, o3: Octet)

  function OctetOf(w: Bits, k: nat): Octet
    requires k + 8 <= |w|
  {
    Octet(w[k], w[k + 1], w[k + 2], w[k + 3], w[k + 4], w[k + 5], w[k + 6], w[k + 7])
  }

  function Named(w: Word): Quad { Quad(OctetOf(w, 0), OctetOf(w, 8), OctetOf(w, 16), OctetOf(w, 24)) }

  function TurnOctet(o: Octet, next: bool, f: bool, e: nat): Octet {
    Octet(o.b1 != (f && IsExponent(e)), o.b2 != (f && IsExponent(e - 1)),
          o.b3 != (f && IsExponent(e - 2)), o.b4 != (f && IsExponent(e - 3)),
          o.b5 != (f && IsExponent(e - 4)), o.b6 != (f && IsExponent(e - 5)),
          o.b7 != (f && IsExponent(e - 6)), next != (f && IsExponent(e - 7)))
  }

  /** One turn of the inner loop. */
  function Turn(q: Quad): Quad {
    var f := q.o0.b0;
    Quad(TurnOctet(q.o0, q.o1.b0, f, 31), TurnOctet(q.o1, q.o2.b0, f, 23),
         TurnOctet(q.o2, q.o3.b0, f, 15), TurnOctet(q.o3, false, f, 7))
  }

  lemma {:induction false} GeneratorAt(i: nat)
    requires i < 32
    ensures Generator()[i] == IsExponent(31 - i)
  {
  }

  lemma {:induction false} StepAt(w: Word, i: nat)
    requires i < 32
    ensures BitStep(w)[i] == ((i < 31 && w[i + 1]) != (w[0] && IsExponent(31 - i)))
  {
    BitStepIsRow(w);
    GeneratorAt(i);
  }

  /** `v` is `w` after one turn, bit by bit. */
  predicate Follows(w: Bits, v: Bits) {
    |v| == |w| == 32 && forall i :: 0 <= i < 32 ==> v[i] == ((i < 31 && w[i + 1]) != (w[0] && IsExponent(31 - i)))
  }

  lemma {:induction false} OctetFollows(w: Bits, v: Bits, k: nat)
    requires Follows(w, v) && k + 8 <= 32
    ensures OctetOf(v, k) == TurnOctet(OctetOf(w, k), k < 24 && w[k + 8], w[0], 31 - k)
  {
  }

  lemma {:induction false} TurnFollows(w: Word, v: Word)
    requires Follows(w, v)
    ensures Named(v) == Turn(Named(w))
  {
    OctetFollows(w, v, 0);
    OctetFollows(w, v, 8);
    OctetFollows(w, v, 16);
    OctetFollows(w, v, 24);
  }

  lemma {:induction false} TurnIsStep(w: Word)
    ensures Named(BitStep(w)) == Turn(Named(w))
  {
    forall i | 0 <= i < 32
      ensures BitStep(w)[i] == ((i < 31 && w[i + 1]) != (w[0] && IsExponent(31 - i)))
    {
      StepAt(w, i);
    }
    TurnFollows(w, BitStep(w));
  }

  function Turns(q: Quad, n: nat): Quad
    decreases n
  {
    if n == 0 then q else Turns(Turn(q), n - 1)
  }

  lemma {:induction false} ShiftTurns(w: Word, n: nat)
    ensures Named(Shift(w, n)) == Turns(Named(w), n)
    decreases n
  {
    if n > 0 {
      TurnIsStep(w);
      ShiftTurns(BitStep(w), n - 1);
    }
  }

  // The same turn as the C code computes it on a `uint32_t`.

  function Octet0(v: bv32): Octet {
    Octet(v & 0x1 != 0, v & 0x2 != 0, v & 0x4 != 0, v & 0x8 != 0,
          v & 0x10 != 0, v & 0x20 != 0, v & 0x40 != 0, v & 0x80 != 0)
  }

  function Octet1(v: bv32): Octet {
    Octet(v & 0x100 != 0, v & 0x200 != 0, v & 0x400 != 0, v & 0x800 != 0,
          v & 0x1000 != 0, v & 0x2000 != 0, v & 0x4000 != 0, v & 0x8000 != 0)
  }

  function Octet2(v: bv32): Octet {
    Octet(v & 0x10000 != 0, v & 0x20000 != 0, v & 0x40000 != 0, v & 0x80000 != 0,
          v & 0x100000 != 0, v & 0x200000 != 0, v & 0x400000 != 0, v & 0x800000 != 0)
  }

  function Octet3(v: bv32): Octet {
    Octet(v & 0x1000000 != 0, v & 0x2000000 != 0, v & 0x4000000 != 0, v & 0x8000000 != 0,
          v & 0x10000000 != 0, v & 0x20000000 != 0, v & 0x40000000 != 0, v & 0x80000000 != 0)
  }

  /** The bits of a C word. */
  function Quad32(v: bv32): Quad { Quad(Octet0(v), Octet1(v), Octet2(v), Octet3(v)) }

  /** `mult = (crc & 1) ? CRCPOLY : 0; crc = (crc >> 1) ^ mult`. */
  function Step32(v: bv32): bv32 {
    (v >> 1) ^ (if v & 1 != 0 then 0xedb88320 else 0)
  }

  lemma {:induction false} Turn0(v: bv32)
    ensures TurnOctet(Octet0(v), v & 0x100 != 0, v & 1 != 0, 31) == Octet0(Step32(v))
  {
  }

  lemma {:induction false} Turn1(v: bv32)
    ensures TurnOctet(Octet1(v), v & 0x10000 != 0, v & 1 != 0, 23) == Octet1(Step32(v))
  {
  }

  lemma {:induction false} Turn2(v: bv32)
    ensures TurnOctet(Octet2(v), v & 0x1000000 != 0, v & 1 != 0, 15) == Octet2(Step32(v))
  {
  }

  lemma {:induction false} Turn3(v: bv32)
    ensures TurnOctet(Octet3(v), false, v & 1 != 0, 7) == Octet3(Step32(v))
  {
  }

  /** The model's turn is the C statement. */
  lemma {:induction false} TurnIsC(v: bv32)
    ensures Turn(Quad32(v)) == Quad32(Step32(v))
  {
    Turn0(v);
    Turn1(v);
    Turn2(v);
    Turn3(v);
  }

  function Steps32(v: bv32, n: nat): bv32
    decreases n
  {
    if n == 0 then v else Steps32(Step32(v), n - 1)
  }

  lemma {:induction false} TurnsAreC(v: bv32, n: nat)
    ensures Turns(Quad32(v), n) == Quad32(Steps32(v, n))
    decreases n
  {
    if n > 0 {
      TurnIsC(v);
      TurnsAreC(Step32(v), n - 1);
    }
  }

  /** The model's word `w` has the bits of the C word `v`. */
  predicate SameWord(w: Word, v: bv32) { Named(w) == Quad32(v) }

  lemma {:induction false} TwoSteps(v: bv32, n: nat)
    requires n >= 2
    ensures Steps32(v, n) == Steps32(Step32(Step32(v)), n - 2)
  {
  }

  lemma {:induction false} EightSteps(v: bv32, v1: bv32, v2: bv32, v3: bv32, v4: bv32, v5: bv32, v6: bv32, v7: bv32, v8: bv32, n: nat)
    requires n >= 8 && Step32(v) == v1 && Step32(v1) == v2 && Step32(v2) == v3 && Step32(v3) == v4
    requires Step32(v4) == v5 && Step32(v5) == v6 && Step32(v6) == v7 && Step32(v7) == v8
    ensures Steps32(v, n) == Steps32(v8, n - 8)
  {
    TwoSteps(v, n);
    TwoSteps(v2, n - 2);
    TwoSteps(v4, n - 4);
    TwoSteps(v6, n - 6);
  }

  lemma {:induction false} ResidueByte1(n: nat)
    requires n >= 8
    ensures Steps32(0xffffffff, n) == Steps32(0x2dfd1072, n - 8)
  {
    EightSteps(0xffffffff, 0x92477cdf, 0xa49b3d4f, 0xbff51d87, 0xb2420de3,
               0xb49985d1, 0xb7f441c8, 0x5bfa20e4, 0x2dfd1072, n);
  }

  lemma {:induction false} ResidueByte2(n: nat)
    requires n >= 8
    ensures Steps32(0x2dfd1072, n) == Steps32(0xbe26ed00, n - 8)
  {
    EightSteps(0x2dfd1072, 0x16fe8839, 0xe6c7c73c, 0x7363e39e, 0x39b1f1cf,
               0xf1607bc7, 0x9508bec3, 0xa73cdc41, 0xbe26ed00, n);
  }

  lemma {:induction false} ResidueByte3(n: nat)
    requires n >= 8
    ensures Steps32(0xbe26ed00, n) == Steps32(0x00be26ed, n - 8)
  {
    EightSteps(0xbe26ed00, 0x5f137680, 0x2f89bb40, 0x17c4dda0, 0x0be26ed0,
               0x05f13768, 0x02f89bb4, 0x017c4dda, 0x00be26ed, n);
  }

  lemma {:induction false} ResidueByte4(n: nat)
    requires n >= 8
    ensures Steps32(0x00be26ed, n) == Steps32(0xdebb20e3, n - 8)
  {
    EightSteps(0x00be26ed, 0xede79056, 0x76f3c82b, 0xd6c16735, 0x86d830ba,
               0x436c185d, 0xcc0e8f0e, 0x66074787, 0xdebb20e3, n);
  }

  lemma {:induction false} OnesAreC()
    ensures SameWord(Ones(32), 0xffffffff)
  {
  }

  lemma {:induction false} ResidueSteps(n: nat)
    requires n == 32
    ensures Steps32(0xffffffff, n) == 0xdebb20e3
  {
    ResidueByte1(n);
    ResidueByte2(n - 8);
    ResidueByte3(n - 16);
    ResidueByte4(n - 24);
  }

  /** The residue that every intact report leaves is the word 0xdebb20e3. */
  lemma {:induction false} ResidueExact()
    ensures SameWord(Residue(), 0xdebb20e3)
  {
    var n := |ALL_ONES|;
    OnesAreC();
    assert ALL_ONES == Ones(32);
    ShiftTurns(ALL_ONES, n);
    TurnsAreC(0xffffffff, n);
    ResidueSteps(n);
  }

  // ---------------------------------------------------------------- the DualSense sender

  const REPORT_BODY: nat := 75   // sizeof(ds5_output_report_t) - 4

  /** transaction_type, report_id, seq_tag and tag. */
  function Header(outputSeq: nat): (h: seq<Byte>)
    ensures |h| == 4
  {
    [ByteOf(0xa2), ByteOf(0x31), ByteOf(outputSeq * 16), ByteOf(0x10)]
  }

  lemma {:induction false} FixedHeaderBytes(i: nat)
    requires i < 8
    ensures ByteOf(0xa2)[i] == (i == 1 || i == 5 || i == 7)
    ensures ByteOf(0x31)[i] == (i == 0 || i == 4 || i == 5)
    ensures ByteOf(0x10)[i] == (i == 4)
  {
    ByteAt(0xa2, i);
    ByteAt(0x31, i);
    ByteAt(0x10, i);
    NibbleAt(0xa2);
    NibbleAt(0xa2 / 16);
    NibbleAt(0x31);
    NibbleAt(0x31 / 16);
    NibbleAt(0x10);
    NibbleAt(0x10 / 16);
  }

  lemma {:induction false} HighNibble(n: nat, i: nat)
    requires i < 8
    ensures ByteOf(n * 16)[i] == (i >= 4 && NibbleBits(n)[i - 4])
  {
    ByteAt(n * 16, i);
    NibbleAt(n * 16);
    assert n * 16 / 16 == n && n * 16 / 2 == n * 8 && n * 16 / 4 == n * 4 && n * 16 / 8 == n * 2;
  }

  /** The header bit by bit: 0xa2, 0x31, the sequence number in the high nibble, 0x10. */
  lemma {:induction false} HeaderExact(n: nat, i: nat)
    requires i < 8
    ensures Header(n)[0][i] == (i == 1 || i == 5 || i == 7)
    ensures Header(n)[1][i] == (i == 0 || i == 4 || i == 5)
    ensures i < 4 ==> !Header(n)[2][i]
    ensures i >= 4 ==> Header(n)[2][i] == (n / (if i == 4 then 1 else if i == 5 then 2 else if i == 6 then 4 else 8) % 2 == 1)
    ensures Header(n)[3][i] == (i == 4)
  {
    FixedHeaderBytes(i);
    HighNibble(n, i);
    NibbleAt(n);
  }

  method SealReport(body: seq<Byte>) returns (wire: seq<Byte>)
    ensures wire == Seal(body)
  {
    var out := new Byte[|body|](i requires 0 <= i < |body| => body[i]);
    assert out[..|body|] == body;
    var crc := ComputeCrc(ALL_ONES, out, |body|);
    wire := body + LittleEndian(Not(crc));
  }

  class Ds5Sender {
    var outputSeq: nat

    constructor ()
      ensures outputSeq == 0
    {
      outputSeq := 0;
    }

    method SendOutputReport(payload: seq<Byte>) returns (wire: seq<Byte>)
      requires |payload| == REPORT_BODY - 4
      modifies this
      ensures wire == Seal(Header(old(outputSeq)) + payload)
      ensures outputSeq == if old(outputSeq) + 1 == 15 then 0 else old(outputSeq) + 1
    {
      var body := Header(outputSeq) + payload;
      outputSeq := outputSeq + 1;
      if outputSeq == 15 {
        outputSeq := 0;
      }
      wire := SealReport(body);
    }
  }

  /** The sequence number of the k-th report after one numbered `start`. */
  function SeqAfter(start: nat, k: nat): (n: nat)
    requires start < 15
    ensures n == (start + k) % 15
  {
    if k == 0 then start
    else var m := SeqAfter(start, k - 1); if m + 1 == 15 then 0 else m + 1
  }

  lemma {:induction false} SeqTagInjective(m: nat, n: nat)
    requires m < 15 && n < 15 && ByteOf(m * 16) == ByteOf(n * 16)
    ensures m == n
  {
    assert NibbleBits(m) == ByteOf(m * 16)[4..] == ByteOf(n * 16)[4..] == NibbleBits(n);
    NibbleValue(m);
    NibbleValue(n);
  }

  lemma NibbleValue(n: nat)
    requires n < 16
    ensures n == (if NibbleBits(n)[0] then 1 else 0) + (if NibbleBits(n)[1] then 2 else 0)
              + (if NibbleBits(n)[2] then 4 else 0) + (if NibbleBits(n)[3] then 8 else 0)
  {
  }

  /** Two different reports less than 15 apart never carry the same sequence tag. */
  lemma {:induction false} RecentReportsDistinct(start: nat, i: nat, j: nat)
    requires start < 15 && i < j < i + 15
    ensures Header(SeqAfter(start, i)) != Header(SeqAfter(start, j))
  {
    var m, n := SeqAfter(start, i), SeqAfter(start, j);
    if ByteOf(m * 16) == ByteOf(n * 16) {
      SeqTagInjective(m, n);
      assert false;
    }
    assert Header(m)[2] != Header(n)[2];
  }
}
