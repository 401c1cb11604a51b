/**
 The printer part of a device announcement: a header of six little-endian words, then four
 fields of the lengths it gives, of which two are UTF-16LE names.
 */
module Announce {
  import opened Octets

  const NAME_LEN: nat := 256  // PRINTER_MAX_NAME_LEN and PRINTER_MAX_DRIVER_LEN

  // The reference: what a name field means

  /** The UTF-16LE code units of a field; a trailing odd byte is no unit. */
  function Units(field: seq<byte>): seq<int>
  {
    if |field| < 2 then [] else [Unit(field[0], field[1])] + Units(field[2..])
  }

  function Unit(lo: byte, hi: byte): int
  {
    var (l: int, h: int) := (lo, hi);
    l + 256 * h
  }

  function BeforeZero(units: seq<int>): seq<int>
  {
    if units == [] || units[0] == 0 then [] else [units[0]] + BeforeZero(units[1..])
  }

  predicate Printable(u: int)
  {
    0x20 <= u < 0x7f
  }

  function KeepPrintable(units: seq<int>): (r: seq<byte>)
    ensures forall b :: b in r ==> 0x20 <= b < 0x7f
  {
    if units == [] then []
    else (if Printable(units[0]) then [units[0]] else []) + KeepPrintable(units[1..])
  }

  function Take<T>(s: seq<T>, n: nat): seq<T>
  {
    if |s| <= n then s else s[..n]
  }

  /** The name a field stands for: at most 255 characters, printable ASCII only, up to the first zero. */
  function NameOf(field: seq<byte>): seq<byte>
  {
    Take(KeepPrintable(BeforeZero(Units(field))), NAME_LEN - 1)
  }

  /** The C string in a buffer. */
  function CString(b: seq<byte>): seq<byte>
  {
    if b == [] || b[0] == 0 then [] else [b[0]] + CString(b[1..])
  }

  lemma {:induction false} CStringOf(s: seq<byte>, rest: seq<byte>)
    requires forall i :: 0 <= i < |s| ==> s[i] != 0
    ensures CString(s + [0] + rest) == s
  {
    if s == [] {
    } else {
      assert (s + [0] + rest)[0] == s[0] && (s + [0] + rest)[1..] == s[1..] + [0] + rest;
      CStringOf(s[1..], rest);
    }
  }

  /** What the field from `i` on adds to a name with room for `n` more, byte by byte. */
  function Rest(field: seq<byte>, i: nat, n: nat): seq<byte>
    decreases |field| - i
  {
    if i + 1 >= |field| || n == 0 then []
    else
      var lo, hi := field[i], field[i + 1];
      if hi == 0 && 0x20 <= lo < 0x7f then [lo] + Rest(field, i + 2, n - 1)
      else if hi == 0 && lo == 0 then []
      else Rest(field, i + 2, n)
  }

  lemma {:induction false} BeforeZeroCons(u: int, rest: seq<int>)
    ensures BeforeZero([u] + rest) == if u == 0 then [] else [u] + BeforeZero(rest)
  {
    assert ([u] + rest)[1..] == rest;
  }

  lemma {:induction false} KeepCons(u: int, rest: seq<int>)
    ensures KeepPrintable([u] + rest) == if Printable(u) then [u as byte] + KeepPrintable(rest) else KeepPrintable(rest)
  {
    assert ([u] + rest)[1..] == rest;
  }

  lemma {:induction false} TakeCons(b: byte, s: seq<byte>, n: nat)
    requires n > 0
    ensures Take([b] + s, n) == [b] + Take(s, n - 1)
  {
  }

  /** The name of the field from `i` on, with room for `n` characters. */
  function NameFrom(field: seq<byte>, i: nat, n: nat): seq<byte>
    requires i <= |field|
  {
    Take(KeepPrintable(BeforeZero(Units(field[i..]))), n)
  }

  lemma {:induction false} NameFromStep(field: seq<byte>, i: nat, n: nat)
    requires i + 1 < |field| && n > 0
    ensures var lo, hi := field[i], field[i + 1];
      NameFrom(field, i, n) ==
        if hi == 0 && 0x20 <= lo < 0x7f then [lo] + NameFrom(field, i + 2, n - 1)
        else if hi == 0 && lo == 0 then []
        else NameFrom(field, i + 2, n)
  {
    var lo, hi := field[i], field[i + 1];
    var u, more := Unit(lo, hi), Units(field[i + 2..]);
    assert field[i..][2..] == field[i + 2..] && Units(field[i..]) == [u] + more;
    BeforeZeroCons(u, more);
    if u != 0 { KeepCons(u, BeforeZero(more)); }
    if Printable(u) { TakeCons(lo, KeepPrintable(BeforeZero(more)), n); }
  }

  /** Byte by byte is unit by unit. */
  lemma {:induction false} RestIsName(field: seq<byte>, i: nat, n: nat)
    requires i <= |field|
    ensures Rest(field, i, n) == NameFrom(field, i, n)
    decreases |field| - i
  {
    if i + 1 < |field| && n > 0 {
      NameFromStep(field, i, n);
      var lo, hi := field[i], field[i + 1];
      if hi == 0 && 0x20 <= lo < 0x7f {
        RestIsName(field, i + 2, n - 1);
      } else if lo != 0 || hi != 0 {
        RestIsName(field, i + 2, n);
      }
    }
  }

  /** The part of a field that the data holds. */
  function Held(data: seq<byte>, at: nat, len: nat): (r: seq<byte>)
    ensures |r| <= len
  {
    if at >= |data| then [] else data[at..if at + len <= |data| then at + len else |data|]
  }

  lemma HeldAt(data: seq<byte>, at: nat, len: nat, i: nat)
    requires i + 1 < len
    ensures i + 1 < |Held(data, at, len)| <==> at + i + 1 < |data|
    ensures at + i + 1 < |data| ==>
      Held(data, at, len)[i] == data[at + i] && Held(data, at, len)[i + 1] == data[at + i + 1]
  {
  }

  /**
   The name is settled inside the data: all units of the field are there, or a zero unit, or
   more characters than the name can take.
   */
  predicate Settled(data: seq<byte>, at: nat, len: nat)
  {
    var units := Units(Held(data, at, len));
    |Held(data, at, len)| / 2 == len / 2 || 0 in units || |KeepPrintable(BeforeZero(units))| >= NAME_LEN - 1
  }

  /** Byte by byte: from `i` on, with room for `n` more, the loop over `len` bytes reads none behind `field`. */
  predicate Stays(field: seq<byte>, len: nat, i: nat, n: nat)
    decreases |field| - i
  {
    if i + 1 >= len || n == 0 then true
    else if i + 1 >= |field| then false
    else
      var lo, hi := field[i], field[i + 1];
      if hi == 0 && 0x20 <= lo < 0x7f then Stays(field, len, i + 2, n - 1)
      else (hi == 0 && lo == 0) || Stays(field, len, i + 2, n)
  }

  lemma {:induction false} StaysStep(field: seq<byte>, i: nat)
    requires i + 1 < |field|
    ensures var u, more := Unit(field[i], field[i + 1]), Units(field[i + 2..]);
      && Units(field[i..]) == [u] + more
      && (0 in Units(field[i..]) <==> u == 0 || 0 in more)
      && |KeepPrintable(BeforeZero(Units(field[i..])))| ==
           if u == 0 then 0 else (if Printable(u) then 1 else 0) + |KeepPrintable(BeforeZero(more))|
  {
    var u, more := Unit(field[i], field[i + 1]), Units(field[i + 2..]);
    assert field[i..][2..] == field[i + 2..];
    BeforeZeroCons(u, more);
    if u != 0 { KeepCons(u, BeforeZero(more)); }
  }

  /** The loop stays inside exactly if the name is settled there. */
  lemma {:induction false} StaysIff(field: seq<byte>, len: nat, i: nat, n: nat)
    requires i <= |field| <= len
    ensures Stays(field, len, i, n) <==>
      (|field| - i) / 2 == (len - i) / 2 || 0 in Units(field[i..]) || |KeepPrintable(BeforeZero(Units(field[i..])))| >= n
    decreases |field| - i
  {
    if i + 1 < |field| && n > 0 {
      StaysStep(field, i);
      var lo, hi := field[i], field[i + 1];
      assert (|field| - i) / 2 == (|field| - i - 2) / 2 + 1 && (len - i) / 2 == (len - i - 2) / 2 + 1;
      if hi == 0 && 0x20 <= lo < 0x7f {
        StaysIff(field, len, i + 2, n - 1);
      } else if lo != 0 || hi != 0 {
        StaysIff(field, len, i + 2, n);
      }
    }
  }

  /** What the loop has before it at the start. */
  lemma {:induction false} LoopMeans(data: seq<byte>, at: nat, len: nat)
    ensures var field := Held(data, at, len);
      && (Settled(data, at, len) <==> Stays(field, len, 0, NAME_LEN - 1))
      && NameOf(field) == Rest(field, 0, NAME_LEN - 1)
  {
    var field := Held(data, at, len);
    RestIsName(field, 0, NAME_LEN - 1);
    StaysIff(field, len, 0, NAME_LEN - 1);
    assert field[0..] == field;
  }

  /**
   The decoding loop, run once for each name: `buf` is a zeroed array of 256 characters on the
   program's stack. It is `ok` as long as no byte behind the data is read.
   */
  method DecodeName(data: seq<byte>, at: nat, len: nat) returns (ok: bool, buf: array<byte>, ghost written: nat)
    ensures fresh(buf) && buf.Length == 256
    ensures ok <==> Settled(data, at, len)
    ensures ok ==> written < 256 && buf[written] == 0 && buf[..written] == NameOf(Held(data, at, len))
  {
    ghost var field := Held(data, at, len);
    LoopMeans(data, at, len);
    buf := new byte[NAME_LEN](_ => 0);
    var i, j := 0, 0;
    if len >= 2 {
      while i + 1 < len && j < NAME_LEN - 1
        invariant 0 <= i <= |field| && 0 <= j <= NAME_LEN - 1
        invariant Settled(data, at, len) == Stays(field, len, i, NAME_LEN - 1 - j)
        invariant NameOf(field) == buf[..j] + Rest(field, i, NAME_LEN - 1 - j)
        decreases len - i
      {
        HeldAt(data, at, len, i);
        if at + i + 1 >= |data| { return false, buf, 0; }
        var lo, hi := data[at + i], data[at + i + 1];
        if hi == 0 && 0x20 <= lo < 0x7f {
          Assoc(buf[..j], [lo], Rest(field, i + 2, NAME_LEN - 2 - j));
          buf[j] := lo;
          assert buf[..j + 1] == buf[..j] + [lo];
          j := j + 1;
        } else if hi == 0 && lo == 0 {
          break;
        }
        i := i + 2;
      }
      buf[j] := 0;
    }
    ok, written := true, j;
  }

  /** The buffer of `DecodeName` as a C string is the name. */
  lemma {:induction false} BufferIsName(buf: seq<byte>, written: nat, field: seq<byte>)
    requires written < |buf| && buf[written] == 0 && buf[..written] == NameOf(field)
    ensures CString(buf) == NameOf(field)
  {
    assert buf == buf[..written] + [0] + buf[written + 1..];
    forall i | 0 <= i < written ensures buf[..written][i] != 0 {
      assert buf[..written][i] in KeepPrintable(BeforeZero(Units(field)));
    }
    CStringOf(buf[..written], buf[written + 1..]);
  }

  /** The C string the loop leaves in its buffer. */
  method NameAt(data: seq<byte>, at: nat, len: nat) returns (ok: bool, name: seq<byte>)
    ensures ok <==> Settled(data, at, len)
    ensures ok ==> name == NameOf(Held(data, at, len))
  {
    var decoded, buf, n := DecodeName(data, at, len);
    if !decoded { return false, []; }
    ok := true;
    BufferIsName(buf[..], n, Held(data, at, len));
    name := CString(buf[..]);
  }

  // The announcement

  datatype Announcement = Announcement(flags: u32, driver: seq<byte>, printer: seq<byte>)

  /** `Overread` is the case without a defined result: a name loop reads a byte behind the data. */
  datatype Parsed = Accepted(a: Announcement) | Rejected | Overread

  /** The header's length words: PnP name, driver name, printer name, cached fields. */
  function Length(data: seq<byte>, i: nat): u32
    requires |data| >= 24 && i < 4
  {
    ReadLe32(data[8 + 4 * i..12 + 4 * i])
  }

  function Sum(a: nat, b: nat, c: nat, d: nat): nat
  {
    24 + a + b + c + d
  }

  /** Where the data would end if all fields were there. */
  function End(data: seq<byte>): nat
    requires |data| >= 24
  {
    Sum(Length(data, 0), Length(data, 1), Length(data, 2), Length(data, 3))
  }

  /** Where the driver name begins, and where the printer name does. */
  function DriverAt(data: seq<byte>): nat
    requires |data| >= 24
  {
    24 + Length(data, 0)
  }

  function PrinterAt(data: seq<byte>): nat
    requires |data| >= 24
  {
    24 + Length(data, 0) + Length(data, 1)
  }

  /** The reference: the names cut out of the data by their lengths, as far as the data goes. */
  function Meaning(data: seq<byte>): Announcement
    requires |data| >= 24
  {
    Announcement(ReadLe32(data),
                 NameOf(Held(data, DriverAt(data), Length(data, 1))),
                 NameOf(Held(data, PrinterAt(data), Length(data, 2))))
  }

  /** Both names are settled inside the data. */
  predicate Settles(data: seq<byte>)
    requires |data| >= 24
  {
    Settled(data, DriverAt(data), Length(data, 1)) && Settled(data, PrinterAt(data), Length(data, 2))
  }

  /** The parser's verdict by the length check alone. */
  predicate PassesCheck(data: seq<byte>)
  {
    |data| >= 24 && |data| >= End(data) % TWO32
  }

  lemma AddWraps(x: nat, acc: u32, b: u32)
    requires acc == x % TWO32
    ensures Add32(acc, b) == (x + b) % TWO32
  {
    var q := x / TWO32;
    assert x + b == q * TWO32 + (acc + b);
    if acc + b >= TWO32 { assert x + b == (q + 1) * TWO32 + (acc + b - TWO32); }
  }

  lemma SumWraps(a: u32, b: u32, c: u32, d: u32)
    ensures Add32(Add32(Add32(Add32(24, a), b), c), d) == (24 + a + b + c + d) % TWO32
  {
    var s1 := Add32(24, a);
    AddWraps(24, 24, a);
    var s2 := Add32(s1, b);
    AddWraps(24 + a, s1, b);
    var s3 := Add32(s2, c);
    AddWraps(24 + a + b, s2, c);
    AddWraps(24 + a + b + c, s3, d);
  }

  /** The header: flags, the five words after the flags, and the check of the total length. */
  method ParseHeader(data: Buffer) returns (ok: bool, flags: u32, pnpLen: u32, driverLen: u32, printerLen: u32)
    ensures ok <==> PassesCheck(data)
    ensures ok ==> flags == ReadLe32(data) && pnpLen == Length(data, 0)
                   && driverLen == Length(data, 1) && printerLen == Length(data, 2)
  {
    ok, flags, pnpLen, driverLen, printerLen := false, 0, 0, 0, 0;
    if |data| < 24 { return; }
    flags := ReadLe32(data);
    var p := 8;
    pnpLen := ReadLe32(data[p..p + 4]);
    p := p + 4;
    driverLen := ReadLe32(data[p..p + 4]);
    p := p + 4;
    printerLen := ReadLe32(data[p..p + 4]);
    p := p + 4;
    var cachedLen := ReadLe32(data[p..p + 4]);
    var expected := Add32(Add32(Add32(Add32(24, pnpLen), driverLen), printerLen), cachedLen);
    SumWraps(pnpLen, driverLen, printerLen, cachedLen);
    ok := |data| >= expected;
  }

  /** `devredir_printer_device_announce`, up to the announced names. */
  method Parse(data: Buffer) returns (r: Parsed)
    ensures r.Rejected? <==> !PassesCheck(data)
    ensures r.Accepted? <==> PassesCheck(data) && Settles(data)
    ensures r.Accepted? ==> r.a == Meaning(data)
  {
    var passed, flags, pnpLen, driverLen, printerLen := ParseHeader(data);
    if !passed { return Rejected; }
    var (pnp: nat, toPrinter: nat) := (pnpLen, driverLen);
    var p := 24 + pnp;
    assert p == DriverAt(data);
    var ok, driver := NameAt(data, p, driverLen);
    if !ok { return Overread; }
    p := p + toPrinter;
    assert p == PrinterAt(data);
    var printer;
    ok, printer := NameAt(data, p, printerLen);
    if !ok { return Overread; }
    return Accepted(Announcement(flags, driver, printer));
  }

  /** Once past the length check, the announced fields lie inside the data exactly if the sum did not wrap. */
  lemma FieldsFit(data: Buffer)
    requires PassesCheck(data)
    ensures End(data) <= |data| <==> End(data) < TWO32
  {
  }

  /** Names that lie inside the data, as they do if the sum did not wrap, are settled and read off it whole. */
  lemma {:induction false} NamesInside(data: Buffer)
    requires |data| >= 24 && PrinterAt(data) + Length(data, 2) <= |data|
    ensures Settles(data)
    ensures var d, p := DriverAt(data), PrinterAt(data);
      Meaning(data) == Announcement(ReadLe32(data), NameOf(data[d..p]), NameOf(data[p..p + Length(data, 2)]))
  {
    HeldInside(data, DriverAt(data), Length(data, 1));
    HeldInside(data, PrinterAt(data), Length(data, 2));
  }

  lemma HeldInside(data: seq<byte>, at: nat, len: nat)
    requires at + len <= |data|
    ensures Held(data, at, len) == data[at..at + len] && Settled(data, at, len)
  {
    if at == |data| { assert data[at..at + len] == []; }
  }

  /** A header with nothing behind it. */
  lemma {:induction false} BareHeader(pnp: u32, driver: u32, printer: u32, cached: u32)
    ensures var data := Words([0, 0, pnp, driver, printer, cached]);
      && |data| == 24 && ReadLe32(data) == 0 && End(data) == Sum(pnp, driver, printer, cached)
      && Length(data, 0) == pnp && Length(data, 1) == driver && Length(data, 2) == printer
  {
    var w: seq<u32> := [0, 0, pnp, driver, printer, cached];
    HeaderWords(w, []);
    assert Words(w) + [] == Words(w);
  }

  /** Lengths whose sum wraps to 24: the check passes on a bare header, and the driver name is read behind it. */
  lemma {:induction false} WrapOverreads()
    ensures var data := Words([0, 0, 0x8000_0000, 0x8000_0000, 0, 0]);
      |data| == 24 && PassesCheck(data) && End(data) > |data| && !Settles(data)
  {
    BareHeader(0x8000_0000, 0x8000_0000, 0, 0);
  }

  /** Fields shorter than a unit are not read at all, wherever they are said to lie. */
  lemma {:induction false} NoNames(data: seq<byte>)
    requires |data| >= 24 && Length(data, 1) < 2 && Length(data, 2) < 2
    ensures Settles(data) && Meaning(data) == Announcement(ReadLe32(data), [], [])
  {
    assert Units(Held(data, DriverAt(data), Length(data, 1))) == [];
    assert Units(Held(data, PrinterAt(data), Length(data, 2))) == [];
  }

  /** A length of cached fields that wraps the sum to 23: no name is long, and the announcement is accepted. */
  lemma {:induction false} WrapAccepted()
    ensures var data := Words([0, 0, 0, 0, 0, 0xffff_ffff]);
      |data| == 24 && PassesCheck(data) && End(data) > |data| && Settles(data) && Meaning(data) == Announcement(0, [], [])
  {
    BareHeader(0, 0, 0, 0xffff_ffff);
    NoNames(Words([0, 0, 0, 0, 0, 0xffff_ffff]));
  }

  // The encoder of the repository's tests

  /** A name as UTF-16LE with its terminating zero unit. */
  function PutUtf16(s: seq<byte>): (r: seq<byte>)
    ensures |r| == 2 * |s| + 2
  {
    if s == [] then [0, 0] else [s[0], 0] + PutUtf16(s[1..])
  }

  /** Low byte first, and a zero unit at the end. */
  lemma {:induction false} Utf16Bytes(s: seq<byte>, i: nat)
    requires i <= |s|
    ensures PutUtf16(s)[2 * i] == (if i < |s| then s[i] else 0) && PutUtf16(s)[2 * i + 1] == 0
  {
    if i > 0 { Utf16Bytes(s[1..], i - 1); }
  }

  function Words(w: seq<u32>): (b: seq<byte>)
    ensures |b| == 4 * |w|
  {
    if w == [] then [] else Le32(w[0]) + Words(w[1..])
  }

  lemma {:induction false} SixWords(a: u32, b: u32, c: u32, d: u32, e: u32, f: u32)
    ensures Words([a, b, c, d, e, f]) == Le32(a) + Le32(b) + Le32(c) + Le32(d) + Le32(e) + Le32(f)
  {
    WordsCons(e, [f]);
    WordsCons(d, [e, f]);
    WordsCons(c, [d, e, f]);
    WordsCons(b, [c, d, e, f]);
    WordsCons(a, [b, c, d, e, f]);
    var none: seq<u32> := [];
    WordsCons(f, none);
  }

  lemma WordsCons(a: u32, w: seq<u32>)
    ensures Words([a] + w) == Le32(a) + Words(w)
  {
    assert ([a] + w)[1..] == w;
  }

  lemma {:induction false} PrintableSurvives(s: seq<byte>)
    requires forall b :: b in s ==> Printable(b)
    ensures KeepPrintable(BeforeZero(Units(PutUtf16(s)))) == s
  {
    if s == [] {
      assert PutUtf16(s) == [0, 0];
    } else {
      PrintableSurvives(s[1..]);
      var rest := PutUtf16(s[1..]);
      assert ([s[0], 0] + rest)[2..] == rest;
      assert Units(PutUtf16(s)) == [s[0] as int] + Units(rest);
      BeforeZeroCons(s[0], Units(rest));
      KeepCons(s[0], BeforeZero(Units(rest)));
    }
  }

  /** A printable name survives encoding and decoding, cut to 255 characters. */
  lemma {:induction false} NameRoundTrip(s: seq<byte>)
    requires forall b :: b in s ==> 0x20 <= b < 0x7f
    ensures NameOf(PutUtf16(s)) == if |s| <= 255 then s else s[..255]
  {
    assert forall b :: b in s ==> Printable(b);
    PrintableSurvives(s);
  }

  /** The letter A, two units that are no printable ASCII, B, the end, and a C behind it. */
  lemma {:induction false} NameSample()
    ensures NameOf([0x41, 0, 0xe9, 0, 0x3b, 4, 0x42, 0, 0, 0, 0x43, 0]) == [0x41, 0x42]
  {
    var f: seq<byte> := [0x41, 0, 0xe9, 0, 0x3b, 4, 0x42, 0, 0, 0, 0x43, 0];
    RestIsName(f, 0, 255);
    assert f[0..] == f;
    assert Rest(f, 8, 253) == [];
    assert Rest(f, 6, 254) == [0x42];
  }

  lemma {:induction false} WordAt(w: seq<u32>, rest: seq<byte>, i: nat)
    requires i < |w|
    ensures var data := Words(w) + rest;
      data[4 * i..] == Le32(w[i]) + (Words(w[i + 1..]) + rest)
    ensures ReadLe32((Words(w) + rest)[4 * i..]) == w[i]
  {
    var data, tail := Words(w) + rest, Words(w[1..]) + rest;
    assert data == Le32(w[0]) + tail;
    if i == 0 {
      Le32RoundTrip(w[0], tail);
    } else {
      WordAt(w[1..], rest, i - 1);
      assert data[4 * i..] == tail[4 * (i - 1)..];
    }
  }

  lemma {:induction false} HeaderWords(w: seq<u32>, rest: seq<byte>)
    requires |w| == 6
    ensures var data := Words(w) + rest;
      && ReadLe32(data) == w[0]
      && Length(data, 0) == w[2] && Length(data, 1) == w[3] && Length(data, 2) == w[4] && Length(data, 3) == w[5]
  {
    var data := Words(w) + rest;
    WordAt(w, rest, 0);
    assert data[0..] == data;
    forall i | 0 <= i < 4 ensures Length(data, i) == w[2 + i] {
      WordAt(w, rest, 2 + i);
      assert data[8 + 4 * i..][..4] == data[8 + 4 * i..12 + 4 * i];
      assert ReadLe32(data[8 + 4 * i..][..4]) == ReadLe32(data[8 + 4 * i..]);
    }
  }

  lemma Cut(h: seq<byte>, a: seq<byte>, b: seq<byte>, c: seq<byte>, d: seq<byte>)
    ensures var s, i := h + (a + b + c + d), |h| + |a|;
      s[i..i + |b|] == b && s[i + |b|..i + |b| + |c|] == c
  {
  }

  lemma {:induction false} MeaningFrom(data: seq<byte>, flags: u32, lens: seq<u32>, driver: seq<byte>, printer: seq<byte>)
    requires |lens| == 4 && |data| == 24 + lens[0] + lens[1] + lens[2] + lens[3] < TWO32
    requires ReadLe32(data) == flags && forall i :: 0 <= i < 4 ==> Length(data, i) == lens[i]
    requires data[24 + lens[0]..24 + lens[0] + lens[1]] == driver
    requires data[24 + lens[0] + lens[1]..24 + lens[0] + lens[1] + lens[2]] == printer
    ensures PassesCheck(data) && Settles(data)
    ensures Meaning(data) == Announcement(flags, NameOf(driver), NameOf(printer))
  {
    NamesInside(data);
  }

  lemma {:induction false} FieldsRead(w: seq<u32>, pnp: Buffer, driver: seq<byte>, printer: seq<byte>, cached: Buffer)
    requires |w| == 6 && w[2] == |pnp| && w[3] == |driver| && w[4] == |printer| && w[5] == |cached|
    requires 24 + |pnp| + |driver| + |printer| + |cached| < TWO32
    ensures var data := Words(w) + (pnp + driver + printer + cached);
      PassesCheck(data) && Settles(data) && Meaning(data) == Announcement(w[0], NameOf(driver), NameOf(printer))
  {
    HeaderWords(w, pnp + driver + printer + cached);
    Cut(Words(w), pnp, driver, printer, cached);
    MeaningFrom(Words(w) + (pnp + driver + printer + cached), w[0], w[2..], driver, printer);
  }

  /** Announcements come through: flags and both names, whatever the other fields hold. */
  lemma {:induction false} AnnounceRoundTrip(flags: u32, codePage: u32, pnp: Buffer, driver: seq<byte>, printer: seq<byte>, cached: Buffer)
    requires (forall b :: b in driver ==> 0x20 <= b < 0x7f) && (forall b :: b in printer ==> 0x20 <= b < 0x7f)
    requires |driver| < 256 && |printer| < 256
    requires 24 + |pnp| + 2 * |driver| + 2 + 2 * |printer| + 2 + |cached| < TWO32
    ensures var (d, p) := (PutUtf16(driver), PutUtf16(printer));
      var data := Le32(flags) + Le32(codePage) + Le32(|pnp|) + Le32(|d|) + Le32(|p|) + Le32(|cached|) +
        (pnp + d + p + cached);
      PassesCheck(data) && Settles(data) && Meaning(data) == Announcement(flags, driver, printer)
  {
    var (d, p) := (PutUtf16(driver), PutUtf16(printer));
    NamesSurvive(driver, printer);
    HeaderThenFields(flags, codePage, pnp, d, p, cached);
  }

  lemma NamesSurvive(driver: seq<byte>, printer: seq<byte>)
    requires (forall b :: b in driver ==> 0x20 <= b < 0x7f) && (forall b :: b in printer ==> 0x20 <= b < 0x7f)
    requires |driver| < 256 && |printer| < 256
    ensures NameOf(PutUtf16(driver)) == driver && NameOf(PutUtf16(printer)) == printer
  {
    NameRoundTrip(driver);
    NameRoundTrip(printer);
  }

  lemma HeaderThenFields(flags: u32, codePage: u32, pnp: Buffer, driver: Buffer, printer: Buffer, cached: Buffer)
    requires 24 + |pnp| + |driver| + |printer| + |cached| < TWO32
    ensures var data := Le32(flags) + Le32(codePage) + Le32(|pnp|) + Le32(|driver|) + Le32(|printer|) + Le32(|cached|) +
        (pnp + driver + printer + cached);
      PassesCheck(data) && Settles(data) && Meaning(data) == Announcement(flags, NameOf(driver), NameOf(printer))
  {
    SixWords(flags, codePage, |pnp|, |driver|, |printer|, |cached|);
    FieldsRead([flags, codePage, |pnp|, |driver|, |printer|, |cached|], pnp, driver, printer, cached);
  }
}
