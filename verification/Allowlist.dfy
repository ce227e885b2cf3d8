/** The Bluetooth allowlist (`uni_bt_allowlist.c`): a fixed array of addresses, mirrored after
    every change into a property string and restored from it at boot.  Address printing and
    scanning follow `btstack_util.c`. */
module Allowlist {

  import opened Common

  const BD_ADDR_LEN: nat := 6

  datatype Addr = Addr(b0: Byte, b1: Byte, b2: Byte, b3: Byte, b4: Byte, b5: Byte)

  const ZERO: Addr := Addr(0, 0, 0, 0, 0, 0)

  function Bytes(a: Addr): (s: seq<Byte>)
    ensures |s| == 6
  {
    [a.b0, a.b1, a.b2, a.b3, a.b4, a.b5]
  }

  function FromBytes(s: seq<Byte>): Addr
    requires |s| == 6
  {
    Addr(s[0], s[1], s[2], s[3], s[4], s[5])
  }

  // ---------------------------------------------------------------- addresses as text

  function HexChar(n: int): char
    requires 0 <= n < 16
  {
    if n < 10 then '0' + n as char else 'A' + (n - 10) as char
  }

  /** `nibble_for_char`. */
  function Nibble(c: char): (n: int)
    ensures -1 <= n < 16
  {
    if '0' <= c <= '9' then c as int - '0' as int
    else if 'a' <= c <= 'f' then c as int - 'a' as int + 10
    else if 'A' <= c <= 'F' then c as int - 'A' as int + 10
    else -1
  }

  lemma HexRoundTrip(n: int)
    requires 0 <= n < 16
    ensures Nibble(HexChar(n)) == n
  {
  }

  function PrintBytes(bs: seq<Byte>): (s: string)
    ensures |s| == if bs == [] then 0 else 3 * |bs| - 1
  {
    if bs == [] then ""
    else
      var hi, lo := HexChar(bs[0] / 16), HexChar(bs[0] % 16);
      if |bs| == 1 then [hi, lo] else [hi, lo, ':'] + PrintBytes(bs[1..])
  }

  /** Reading past the end of a C string finds its terminator. */
  function CharAt(s: string, i: nat): char { if i < |s| then s[i] else '\0' }

  /** `sscanf_bd_addr` with `n` bytes still to read: a separator between bytes is optional. */
  function Scan(s: string, at: nat, n: nat): (r: Option<seq<Byte>>)
    ensures r.Some? ==> |r.value| == n
    decreases n
  {
    if n == 0 then Some([])
    else
      var hi, lo := Nibble(CharAt(s, at)), Nibble(CharAt(s, at + 1));
      if hi < 0 || lo < 0 then None
      else
        var rest := Scan(s, AfterByte(s, at), n - 1);
        if rest.None? then None else Some([hi * 16 + lo] + rest.value)
  }

  function AfterByte(s: string, at: nat): nat {
    var c := CharAt(s, at + 2);
    if c == ':' || c == '-' || c == ' ' then at + 3 else at + 2
  }

  const DIGITS: string := "0123456789ABCDEF"

  lemma {:induction false} HexExact(n: int)
    requires 0 <= n < 16
    ensures HexChar(n) == DIGITS[n]
  {
  }

  /** Digits are read in either case, and nothing else is one. */
  lemma {:induction false} NibbleExact(c: char, n: int)
    requires 0 <= n < 16
    ensures Nibble(c) == n <==> c == DIGITS[n] || c == "0123456789abcdef"[n]
  {
  }

  /** A printed byte sequence, character by character: two capital hexadecimal digits a byte,
      high one first, with colons in between. */
  lemma {:induction false} PrintedExact(bs: seq<Byte>, k: nat)
    requires k < |bs|
    ensures PrintBytes(bs)[3 * k] == DIGITS[bs[k] / 16] && PrintBytes(bs)[3 * k + 1] == DIGITS[bs[k] % 16]
    ensures k + 1 < |bs| ==> PrintBytes(bs)[3 * k + 2] == ':'
    decreases k
  {
    HexExact(bs[0] / 16);
    HexExact(bs[0] % 16);
    if k > 0 {
      PrintTail(bs);
      PrintedExact(bs[1..], k - 1);
      assert PrintBytes(bs)[3..][3 * (k - 1)] == PrintBytes(bs)[3 * k];
      assert PrintBytes(bs)[3..][3 * (k - 1) + 1] == PrintBytes(bs)[3 * k + 1];
    }
  }

  /** `p` stands in `s` at position `at`. */
  predicate Holds(s: string, at: nat, p: string) {
    at + |p| <= |s| && s[at..at + |p|] == p
  }

  lemma PrintTail(bs: seq<Byte>)
    requires |bs| > 1
    ensures PrintBytes(bs)[2] == ':' && PrintBytes(bs)[3..] == PrintBytes(bs[1..])
  {
  }

  predicate Separates(c: char) { c == ':' || c == '-' || c == ' ' }

  /** Nothing, or one separating character. */
  predicate IsSeparator(sep: string) { |sep| == 0 || (|sep| == 1 && Separates(sep[0])) }

  lemma {:induction false} AfterSeparator(s: string, at: nat)
    ensures Separates(CharAt(s, at + 2)) ==> AfterByte(s, at) == at + 3
    ensures Nibble(CharAt(s, at + 2)) >= 0 ==> AfterByte(s, at) == at + 2
  {
  }

  /** Bytes in capital hexadecimal digits, with separators of any kind in between. */
  function Spelled(bs: seq<Byte>, seps: seq<string>): string
    requires |seps| == |bs|
  {
    if bs == [] then ""
    else
      [HexChar(bs[0] / 16), HexChar(bs[0] % 16)]
      + (if |bs| == 1 then "" else seps[0] + Spelled(bs[1..], seps[1..]))
  }

  lemma {:induction false} SpelledByte(s: string, at: nat, bs: seq<Byte>, seps: seq<string>)
    requires |seps| == |bs| > 0 && Holds(s, at, Spelled(bs, seps))
    ensures Nibble(CharAt(s, at)) == bs[0] / 16 && Nibble(CharAt(s, at + 1)) == bs[0] % 16
  {
    var p := Spelled(bs, seps);
    var t := s[at..at + |p|];
    assert s[at] == t[0] && s[at + 1] == t[1];
    HexRoundTrip(bs[0] / 16);
    HexRoundTrip(bs[0] % 16);
  }

  lemma {:induction false} HoldsFrom(s: string, at: nat, p: string, k: nat)
    requires k < |p| && Holds(s, at, p)
    ensures Holds(s, at + k, p[k..]) && CharAt(s, at + k) == p[k]
  {
    var t := s[at..at + |p|];
    assert t[k..] == s[at + k..at + |p|];
    assert t[k] == s[at + k];
  }

  lemma {:induction false} Behind(a: string, b: string, c: string)
    requires c != ""
    ensures (a + (b + c))[|a| + |b|..] == c
    ensures (a + (b + c))[|a|] == if b == "" then c[0] else b[0]
  {
  }

  lemma {:induction false} SpelledShape(bs: seq<Byte>, seps: seq<string>)
    requires |seps| == |bs| > 1
    ensures var p, w := Spelled(bs, seps), |seps[0]|;
      && |p| > 2 + w
      && p[2 + w..] == Spelled(bs[1..], seps[1..])
      && p[2] == if w == 0 then HexChar(bs[1] / 16) else seps[0][0]
  {
    Behind([HexChar(bs[0] / 16), HexChar(bs[0] % 16)], seps[0], Spelled(bs[1..], seps[1..]));
  }

  lemma {:induction false} SpelledTail(s: string, at: nat, bs: seq<Byte>, seps: seq<string>)
    requires |seps| == |bs| > 1 && Holds(s, at, Spelled(bs, seps)) && IsSeparator(seps[0])
    ensures AfterByte(s, at) == at + 2 + |seps[0]|
    ensures Holds(s, at + 2 + |seps[0]|, Spelled(bs[1..], seps[1..]))
  {
    var p, w := Spelled(bs, seps), |seps[0]|;
    SpelledShape(bs, seps);
    HoldsFrom(s, at, p, 2);
    HoldsFrom(s, at, p, 2 + w);
    HexRoundTrip(bs[1] / 16);
    AfterSeparator(s, at);
  }

  lemma {:induction false} ScanByte(s: string, at: nat, bs: seq<Byte>)
    requires bs != [] && Nibble(CharAt(s, at)) == bs[0] / 16 && Nibble(CharAt(s, at + 1)) == bs[0] % 16
    requires |bs| > 1 ==> Scan(s, AfterByte(s, at), |bs| - 1) == Some(bs[1..])
    ensures Scan(s, at, |bs|) == Some(bs)
  {
    assert bs == [bs[0] / 16 * 16 + bs[0] % 16] + bs[1..];
    assert |bs| == 1 ==> Scan(s, AfterByte(s, at), |bs| - 1) == Some(bs[1..]);
  }

  /** Colons, dashes, blanks and no separators at all, in any mixture, spell the same bytes. */
  lemma {:induction false} ScanSpelled(s: string, at: nat, bs: seq<Byte>, seps: seq<string>)
    requires |seps| == |bs| && Holds(s, at, Spelled(bs, seps))
    requires forall i :: 0 <= i < |seps| ==> IsSeparator(seps[i])
    ensures Scan(s, at, |bs|) == Some(bs)
    decreases |bs|
  {
    if bs != [] {
      SpelledByte(s, at, bs, seps);
      if |bs| > 1 {
        SpelledTail(s, at, bs, seps);
        ScanSpelled(s, at + 2 + |seps[0]|, bs[1..], seps[1..]);
      }
      ScanByte(s, at, bs);
    }
  }

  /** Any other character between two bytes spoils the address. */
  lemma {:induction false} StrayRejected(s: string, at: nat, n: nat)
    requires n >= 2 && Nibble(CharAt(s, at + 2)) < 0 && !Separates(CharAt(s, at + 2))
    ensures Scan(s, at, n).None?
  {
  }

  function Colons(n: nat): (seps: seq<string>)
    ensures |seps| == n && forall i :: 0 <= i < n ==> IsSeparator(seps[i])
    ensures n > 0 ==> seps[0] == ":" && seps[1..] == Colons(n - 1)
  {
    if n == 0 then [] else [":"] + Colons(n - 1)
  }

  lemma {:induction false} PrintedIsSpelled(bs: seq<Byte>)
    ensures PrintBytes(bs) == Spelled(bs, Colons(|bs|))
    decreases |bs|
  {
    if |bs| > 1 {
      PrintedIsSpelled(bs[1..]);
    }
  }

  /** What was printed is read back, wherever it stands. */
  lemma {:induction false} ScanPrinted(s: string, at: nat, bs: seq<Byte>)
    requires Holds(s, at, PrintBytes(bs))
    ensures Scan(s, at, |bs|) == Some(bs)
  {
    PrintedIsSpelled(bs);
    ScanSpelled(s, at, bs, Colons(|bs|));
  }

  // ---------------------------------------------------------------- the list as text

  function Join(lines: seq<string>): string {
    if lines == [] then "" else Join(lines[..|lines| - 1]) + lines[|lines| - 1]
  }

  /** Lines of equal length stand in their join at multiples of that length. */
  lemma {:induction false} JoinAt(lines: seq<string>, k: nat)
    requires forall i :: 0 <= i < |lines| ==> |lines[i]| == 18
    ensures |Join(lines)| == 18 * |lines|
    ensures k < |lines| ==> Holds(Join(lines), 18 * k, lines[k])
    decreases |lines|
  {
    if lines != [] {
      var init, last := lines[..|lines| - 1], lines[|lines| - 1];
      JoinAt(init, k);
      var a, s := Join(init), Join(lines);
      assert s == a + last;
      if k < |init| {
        assert s[18 * k..18 * k + 18] == a[18 * k..18 * k + 18];
      } else if k == |init| {
        assert s[18 * k..18 * k + 18] == last;
      }
    }
  }

  /** One address as the loop appends it. */
  function Line(a: Addr): (s: string)
    ensures |s| == 18
  {
    PrintBytes(Bytes(a)) + ","
  }

  lemma {:induction false} ScanLine(s: string, at: nat, a: Addr)
    requires Holds(s, at, Line(a))
    ensures Scan(s, at, BD_ADDR_LEN) == Some(Bytes(a))
  {
    var p, t := PrintBytes(Bytes(a)), s[at..at + 18];
    assert t[..17] == p;
    assert s[at..at + 17] == t[..17];
    ScanPrinted(s, at, Bytes(a));
  }

  function Lines(used: seq<Addr>): (ls: seq<string>)
    ensures |ls| == |used| && forall i :: 0 <= i < |used| ==> ls[i] == Line(used[i])
  {
    seq(|used|, i requires 0 <= i < |used| => Line(used[i]))
  }

  /** The addresses in use, in slot order. */
  function InUse(list: seq<Addr>): (r: seq<Addr>)
    ensures forall i :: 0 <= i < |r| ==> r[i] != ZERO && r[i] in list
    ensures |r| <= |list|
  {
    if list == [] then []
    else
      var rest := InUse(list[..|list| - 1]);
      if list[|list| - 1] == ZERO then rest else rest + [list[|list| - 1]]
  }

  /** The property string for a list. */
  function Print(list: seq<Addr>): string { Join(Lines(InUse(list))) }

  lemma {:induction false} PrintAppend(list: seq<Addr>, a: Addr)
    ensures Print(list + [a]) == if a == ZERO then Print(list) else Print(list) + Line(a)
  {
    assert (list + [a])[..|list|] == list;
    if a != ZERO {
      var used := InUse(list);
      assert Lines(used + [a])[..|used|] == Lines(used);
    }
  }

  const BUFFER_SIZE: nat := 128   // char str[128]

  /** The text, with its terminator, fits the stack buffer it is put together in. */
  predicate Fits(list: seq<Addr>) { |Print(list)| + 1 <= BUFFER_SIZE }

  /** Every entry of the text ends with a comma. */
  lemma {:induction false} CommaExact(a: Addr)
    ensures Line(a)[17] == ',' && Line(a)[..17] == PrintBytes(Bytes(a))
  {
  }

  /** What is stored for a list; `None` when putting it together overflows the buffer. */
  function Stored(list: seq<Addr>): Option<string> { if Fits(list) then Some(Print(list)) else None }

  /** The text fits exactly when at most seven addresses are in use. */
  lemma {:induction false} FitsIff(list: seq<Addr>)
    ensures Fits(list) <==> |InUse(list)| <= 7
  {
    JoinAt(Lines(InUse(list)), 0);
  }

  /** A list of at most seven slots - the firmware is built with four - always fits. */
  lemma {:induction false} SmallListFits(list: seq<Addr>)
    requires |list| <= 7
    ensures Fits(list)
  {
    FitsIff(list);
  }

  lemma {:induction false} InUseConcat(a: seq<Addr>, b: seq<Addr>)
    ensures InUse(a + b) == InUse(a) + InUse(b)
    decreases |b|
  {
    if b == [] {
      assert a + b == a;
    } else {
      assert (a + b)[..|a + b| - 1] == a + b[..|b| - 1];
      InUseConcat(a, b[..|b| - 1]);
    }
  }

  // ---------------------------------------------------------------- changes

  ghost predicate Distinct(list: seq<Addr>) {
    forall i, j :: 0 <= i < j < |list| && list[i] == list[j] ==> list[i] == ZERO
  }

  function FindFrom(list: seq<Addr>, a: Addr, k: nat): (i: nat)
    requires k <= |list|
    ensures k <= i <= |list|
    ensures i < |list| ==> list[i] == a
    ensures forall j :: k <= j < i ==> list[j] != a
    decreases |list| - k
  {
    if k == |list| || list[k] == a then k else FindFrom(list, a, k + 1)
  }

  function Find(list: seq<Addr>, a: Addr): nat { FindFrom(list, a, 0) }

  predicate CanAdd(list: seq<Addr>, a: Addr) { a !in list && ZERO in list }

  function Added(list: seq<Addr>, a: Addr): (r: seq<Addr>)
    ensures |r| == |list|
  {
    if CanAdd(list, a) then list[Find(list, ZERO) := a] else list
  }

  function Removed(list: seq<Addr>, a: Addr): (r: seq<Addr>)
    ensures |r| == |list|
  {
    if a in list then list[Find(list, a) := ZERO] else list
  }

  function Empty(n: nat): (r: seq<Addr>)
    ensures |r| == n && forall i :: 0 <= i < n ==> r[i] == ZERO
  {
    seq(n, _ => ZERO)
  }

  lemma {:induction false} EmptyInUse(n: nat)
    ensures InUse(Empty(n)) == []
  {
    if n > 0 {
      assert Empty(n)[..n - 1] == Empty(n - 1);
      EmptyInUse(n - 1);
    }
  }

  /** Adding changes the first free slot only, removing the first slot with the address. */
  lemma {:induction false} SlotsExact(list: seq<Addr>, a: Addr, i: nat)
    requires i < |list|
    ensures Added(list, a)[i] == if CanAdd(list, a) && list[i] == ZERO && ZERO !in list[..i] then a else list[i]
    ensures Removed(list, a)[i] == if list[i] == a && a !in list[..i] then ZERO else list[i]
  {
    FirstExact(list, ZERO, i);
    FirstExact(list, a, i);
  }

  lemma {:induction false} FirstExact(list: seq<Addr>, a: Addr, i: nat)
    requires i < |list|
    ensures Find(list, a) == i <==> list[i] == a && a !in list[..i]
  {
    assert forall j :: 0 <= j < i ==> list[..i][j] == list[j];
  }

  /** Membership after an operation, and no address twice. */
  lemma {:induction false} AddKeeps(list: seq<Addr>, a: Addr)
    requires Distinct(list)
    ensures Distinct(Added(list, a))
    ensures CanAdd(list, a) ==> forall b: Addr :: b != ZERO ==> (b in Added(list, a) <==> b in list || b == a)
  {
    var r, i := Added(list, a), Find(list, ZERO);
    if CanAdd(list, a) {
      forall b: Addr | b != ZERO ensures b in r <==> b in list || b == a {
        if b in list {
          var k :| 0 <= k < |list| && list[k] == b;
          assert r[k] == b;
        }
        assert r[i] == a;
      }
    }
  }

  lemma {:induction false} RemoveKeeps(list: seq<Addr>, a: Addr)
    requires Distinct(list)
    ensures Distinct(Removed(list, a))
    ensures forall b: Addr :: b != ZERO ==> (b in Removed(list, a) <==> b in list && b != a)
  {
    var r, i := Removed(list, a), Find(list, a);
    forall b: Addr | b != ZERO ensures b in r <==> b in list && b != a {
      if b in list && b != a {
        var k :| 0 <= k < |list| && list[k] == b;
        assert r[k] == b;
      }
      if b in r {
        var k :| 0 <= k < |r| && r[k] == b;
        assert list[k] == b;
      }
    }
  }

  // ---------------------------------------------------------------- restoring at boot

  /** The address at a position of the text, if one parses there. */
  function Scanner(s: string): (nat -> Option<Addr>) {
    (at: nat) => ScanAddr(s, at)
  }

  function ScanAddr(s: string, at: nat): Option<Addr> {
    var bs := Scan(s, at, BD_ADDR_LEN);
    if bs.None? then None else Some(FromBytes(bs.value))
  }

  /** The addresses that the loop of `update_allowlist_from_property` reads: every 18
      characters, until the end or the first one that does not parse. */
  function Parse(scan: nat -> Option<Addr>, len: nat, offset: nat): seq<Addr>
    decreases len - offset
  {
    if offset >= len || scan(offset).None? then []
    else [scan(offset).value] + Parse(scan, len, offset + 18)
  }

  /** Adding addresses one after the other. */
  function AddAll(list: seq<Addr>, more: seq<Addr>): (r: seq<Addr>)
    ensures |r| == |list|
    decreases |more|
  {
    if more == [] then list else AddAll(Added(list, more[0]), more[1..])
  }

  function Load(list: seq<Addr>, s: string): seq<Addr> { AddAll(list, Parse(Scanner(s), |s|, 0)) }

  lemma {:induction false} EntryScanned(used: seq<Addr>, k: nat)
    requires k < |used|
    ensures ScanAddr(Join(Lines(used)), 18 * k) == Some(used[k])
  {
    JoinAt(Lines(used), k);
    ScanLine(Join(Lines(used)), 18 * k, used[k]);
  }

  lemma {:induction false} ParseSpaced(scan: nat -> Option<Addr>, used: seq<Addr>, k: nat)
    requires k <= |used| && forall j :: 0 <= j < |used| ==> scan(18 * j) == Some(used[j])
    ensures Parse(scan, 18 * |used|, 18 * k) == used[k..]
    decreases |used| - k
  {
    if k < |used| {
      assert scan(18 * k) == Some(used[k]);
      ParseSpaced(scan, used, k + 1);
      assert used[k..] == [used[k]] + used[k + 1..];
    }
  }

  /** Parsing a printed list gives back the addresses in use. */
  lemma {:induction false} ParsePrinted(list: seq<Addr>)
    ensures Parse(Scanner(Print(list)), |Print(list)|, 0) == InUse(list)
  {
    var used := InUse(list);
    var scan := Scanner(Print(list));
    JoinAt(Lines(used), 0);
    forall j | 0 <= j < |used| ensures scan(18 * j) == Some(used[j]) {
      EntryScanned(used, j);
    }
    ParseSpaced(scan, used, 0);
  }

  lemma {:induction false} AllInUse(used: seq<Addr>)
    requires forall i :: 0 <= i < |used| ==> used[i] != ZERO
    ensures InUse(used) == used
    decreases |used|
  {
    if used != [] {
      AllInUse(used[..|used| - 1]);
    }
  }

  lemma {:induction false} AddAllRestores(list: seq<Addr>, more: seq<Addr>, used: seq<Addr>, n: nat, k: nat)
    requires k <= |used| <= n && Distinct(used) && (forall i :: 0 <= i < |used| ==> used[i] != ZERO)
    requires list == used[..k] + Empty(n - k) && more == used[k..]
    ensures AddAll(list, more) == used + Empty(n - |used|)
    decreases |used| - k
  {
    if k < |used| {
      AddNext(used, n, k);
      AddAllRestores(used[..k + 1] + Empty(n - k - 1), more[1..], used, n, k + 1);
    } else {
      assert used[..k] == used;
    }
  }

  lemma {:induction false} AddNext(used: seq<Addr>, n: nat, k: nat)
    requires k < |used| <= n && Distinct(used) && (forall i :: 0 <= i < |used| ==> used[i] != ZERO)
    ensures Added(used[..k] + Empty(n - k), used[k]) == used[..k + 1] + Empty(n - k - 1)
  {
    var list, next := used[..k] + Empty(n - k), used[..k + 1] + Empty(n - k - 1);
    assert list[k] == ZERO;
    assert forall i :: 0 <= i < k ==> list[i] == used[i] != ZERO;
    assert Find(list, ZERO) == k;
    assert used[k] !in list;
    assert list[k := used[k]] == next;
  }

  lemma {:induction false} AddAllToEmpty(used: seq<Addr>, n: nat)
    requires |used| <= n && Distinct(used) && (forall i :: 0 <= i < |used| ==> used[i] != ZERO)
    ensures AddAll(Empty(n), used) == used + Empty(n - |used|)
  {
    assert Empty(n) == used[..0] + Empty(n);
    AddAllRestores(Empty(n), used, used, n, 0);
  }

  lemma {:induction false} LoadPrinted(list: seq<Addr>)
    requires Distinct(list)
    ensures Load(Empty(|list|), Print(list)) == InUse(list) + Empty(|list| - |InUse(list)|)
  {
    InUseDistinct(list);
    ParsePrinted(list);
    AddAllToEmpty(InUse(list), |list|);
  }

  lemma {:induction false} InUseOfOne(a: Addr)
    ensures InUse([a]) == if a == ZERO then [] else [a]
  {
    assert [a][..0] == [];
  }

  lemma {:induction false} InUseAround(before: seq<Addr>, a: Addr, after: seq<Addr>)
    ensures |InUse((before + [a]) + after)| == |InUse(before)| + (if a == ZERO then 0 else 1) + |InUse(after)|
  {
    InUseConcat(before + [a], after);
    InUseConcat(before, [a]);
    InUseOfOne(a);
  }

  /** Adding never takes an address out of use. */
  lemma {:induction false} AddGrows(list: seq<Addr>, a: Addr)
    ensures |InUse(list)| <= |InUse(Added(list, a))|
  {
    if CanAdd(list, a) {
      var i := Find(list, ZERO);
      var before, after := list[..i], list[i + 1..];
      assert list == (before + [ZERO]) + after;
      assert list[i := a] == (before + [a]) + after;
      InUseAround(before, ZERO, after);
      InUseAround(before, a, after);
    }
  }

  lemma {:induction false} AddFits(list: seq<Addr>, a: Addr)
    ensures Fits(Added(list, a)) ==> Fits(list)
  {
    AddGrows(list, a);
    FitsIff(list);
    FitsIff(Added(list, a));
  }

  /** A list is stored if and only if at most seven addresses are in use; re-initialising an
      empty list from its string then restores the same addresses, moved to the front in
      the same order, and leaves the string as it was. */
  lemma {:induction false} RestoreAtBoot(list: seq<Addr>)
    requires Distinct(list)
    ensures Stored(list).Some? <==> |InUse(list)| <= 7
    ensures Stored(list).Some? ==>
      var restored := Load(Empty(|list|), Stored(list).value);
      && restored == InUse(list) + Empty(|list| - |InUse(list)|)
      && InUse(restored) == InUse(list)
      && Stored(restored) == Stored(list)
  {
    FitsIff(list);
    LoadPrinted(list);
    Compacted(InUse(list), |list| - |InUse(list)|);
    AllInUse(InUse(list));
  }

  lemma {:induction false} Compacted(used: seq<Addr>, free: nat)
    requires forall i :: 0 <= i < |used| ==> used[i] != ZERO
    ensures InUse(used + Empty(free)) == used && Print(used + Empty(free)) == Print(used)
  {
    AllInUse(used);
    EmptyInUse(free);
    InUseConcat(used, Empty(free));
  }

  lemma {:induction false} InUseDistinct(list: seq<Addr>)
    requires Distinct(list)
    ensures Distinct(InUse(list))
    decreases |list|
  {
    if list != [] {
      var init, last := list[..|list| - 1], list[|list| - 1];
      InUseDistinct(init);
      forall i | 0 <= i < |InUse(init)| && last != ZERO ensures InUse(init)[i] != last {
        var j :| 0 <= j < |init| && init[j] == InUse(init)[i];
        assert list[j] == init[j];
      }
    }
  }

  // ---------------------------------------------------------------- the code

  class AddrAllowlist {
    const list: array<Addr>
    var property: Option<string>
    var overflowed: bool      // the stack buffer was written past its end

    /** The stored string prints the list, and no address is listed twice. */
    ghost predicate Valid()
      reads this, list
    {
      && !overflowed
      && Distinct(list[..])
      && (if property.Some? then property == Stored(list[..]) else InUse(list[..]) == [])
    }

    constructor (n: nat)
      ensures Valid() && fresh(list) && list[..] == Empty(n) && property == None
    {
      list := new Addr[n](_ => ZERO);
      property, overflowed := None, false;
      new;
      EmptyInUse(n);
      assert list[..] == Empty(n);
    }

    /** After an overflow the model promises nothing but that it happened. */
    method UpdateToProperty()
      modifies this`property, this`overflowed
      ensures Fits(list[..]) ==> property == Stored(list[..]) && overflowed == old(overflowed)
      ensures !Fits(list[..]) ==> overflowed
    {
      var str := "";
      var i := 0;
      while i < list.Length
        invariant i <= list.Length && overflowed == old(overflowed)
        invariant str == Print(list[..i])
      {
        assert list[..i + 1] == list[..i] + [list[i]];
        PrintAppend(list[..i], list[i]);
        ghost var before := str;
        if list[i] != ZERO {
          str := str + PrintBytes(Bytes(list[i]));
          str := str + ",";
          assert str == before + Line(list[i]);
        }
        i := i + 1;
      }
      assert list[..i] == list[..];
      if |str| + 1 > BUFFER_SIZE {
        overflowed := true;
        return;
      }
      property := Some(str);
    }

    method FindSlot(a: Addr) returns (i: nat)
      ensures i == Find(list[..], a)
    {
      i := 0;
      while i < list.Length
        invariant i <= list.Length
        invariant Find(list[..], a) == FindFrom(list[..], a, i)
      {
        if list[i] == a {
          return;
        }
        i := i + 1;
      }
    }

    method AddAddr(a: Addr) returns (added: bool)
      requires Distinct(list[..])
      modifies this`property, this`overflowed, list
      ensures Distinct(list[..]) && list[..] == Added(old(list[..]), a)
      ensures added == CanAdd(old(list[..]), a)
      ensures overflowed <==> old(overflowed) || (added && !Fits(list[..]))
      ensures added && Fits(list[..]) ==> property == Stored(list[..])
      ensures !added ==> property == old(property)
      ensures old(Valid()) && (|InUse(list[..])| <= 7 || list.Length <= 7) ==> Valid()
    {
      AddKeeps(list[..], a);
      var known := FindSlot(a);
      if known < list.Length {
        return false;
      }
      var i := FindSlot(ZERO);
      if i == list.Length {
        return false;
      }
      assert list[i] == ZERO;
      list[i] := a;
      UpdateToProperty();
      FitsIff(list[..]);
      return true;
    }

    method RemoveAddr(a: Addr) returns (removed: bool)
      requires Distinct(list[..])
      modifies this`property, this`overflowed, list
      ensures Distinct(list[..]) && list[..] == Removed(old(list[..]), a)
      ensures removed == (a in old(list[..]))
      ensures overflowed <==> old(overflowed) || (removed && !Fits(list[..]))
      ensures removed && Fits(list[..]) ==> property == Stored(list[..])
      ensures !removed ==> property == old(property)
      ensures old(Valid()) && (|InUse(list[..])| <= 7 || list.Length <= 7) ==> Valid()
    {
      RemoveKeeps(list[..], a);
      var i := FindSlot(a);
      if i == list.Length {
        return false;
      }
      assert list[i] == a;
      list[i] := ZERO;
      UpdateToProperty();
      FitsIff(list[..]);
      return true;
    }

    method RemoveAll()
      modifies this`property, this`overflowed, list
      ensures list[..] == Empty(list.Length) && property == Some("") && overflowed == old(overflowed)
      ensures !overflowed ==> Valid()
    {
      var i := 0;
      while i < list.Length
        invariant i <= list.Length && overflowed == old(overflowed)
        invariant forall j :: 0 <= j < i ==> list[j] == ZERO
      {
        list[i] := ZERO;
        i := i + 1;
      }
      assert list[..] == Empty(list.Length);
      EmptyInUse(list.Length);
      UpdateToProperty();
    }

    /** The text is read once; each address added rewrites the property meanwhile.  No
        rewriting overflows if the list reached in the end fits. */
    method UpdateFromProperty()
      requires Distinct(list[..])
      modifies this`property, this`overflowed, list
      ensures Distinct(list[..])
      ensures old(property).Some? ==> list[..] == Load(old(list[..]), old(property).value)
      ensures old(property).None? ==> list[..] == old(list[..])
      ensures Fits(list[..]) ==> overflowed == old(overflowed)
      ensures Fits(list[..]) ==> property == old(property) || property == Stored(list[..])
    {
      if property.None? {
        return;
      }
      var str := property.value;
      var offset := 0;
      while offset < |str|
        invariant Distinct(list[..])
        invariant Fits(list[..]) ==> overflowed == old(overflowed)
        invariant Fits(list[..]) ==> property == old(property) || property == Stored(list[..])
        invariant AddAll(list[..], Parse(Scanner(str), |str|, offset)) == Load(old(list[..]), str)
        decreases |str| - offset
      {
        var a := ScanAddr(str, offset);
        if a.None? {
          return;
        }
        AddFits(list[..], a.value);
        var _ := AddAddr(a.value);
        offset := offset + 18;
      }
    }
  }
}
