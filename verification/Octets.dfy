/** Bytes, 32-bit words and the little-endian words of the two wire formats. */
module Octets {

  const TWO32: int := 0x1_0000_0000

  type byte = b: int | 0 <= b < 256
  type u32 = n: int | 0 <= n < 0x1_0000_0000

  /** A block whose length a `uint32_t` can hold. */
  type Buffer = d: seq<byte> | |d| < 0x1_0000_0000

  /** Unsigned 32-bit addition, which wraps. */
  function Add32(a: u32, b: u32): u32
  {
    if a + b < TWO32 then a + b else a + b - TWO32
  }

  function Le32(n: u32): (b: seq<byte>)
    ensures |b| == 4
  {
    [n % 256, n / 256 % 256, n / 65536 % 256, n / 16777216]
  }

  function ReadLe32(b: seq<byte>): u32
    requires |b| >= 4
  {
    var (b0: int, b1: int, b2: int, b3: int) := (b[0], b[1], b[2], b[3]);
    b0 + 256 * b1 + 65536 * b2 + 16777216 * b3
  }

  lemma Bytes(n: u32)
    ensures n % 256 + 256 * (n / 256 % 256) + 65536 * (n / 65536 % 256) + 16777216 * (n / 16777216) == n
  {
    var a := n / 256;
    var b := a / 256;
    assert n / 65536 == b && n / 16777216 == b / 256;
  }

  lemma Le32RoundTrip(n: u32, rest: seq<byte>)
    ensures ReadLe32(Le32(n) + rest) == n
  {
    Bytes(n);
    var s, w := Le32(n) + rest, Le32(n);
    assert s[0] == w[0] && s[1] == w[1] && s[2] == w[2] && s[3] == w[3];
  }

  function Min(a: int, b: int): int
  {
    if a < b then a else b
  }

  lemma Assoc<T>(a: seq<T>, b: seq<T>, c: seq<T>)
    ensures a + (b + c) == (a + b) + c
  {
  }

  lemma Assoc4<T>(a: seq<T>, b: seq<T>, c: seq<T>, d: seq<T>)
    ensures a + b + c + d == a + (b + c + d)
  {
  }

  lemma Prefixes<T>(s: seq<T>, n: nat)
    requires n < |s|
    ensures s[..n + 1] == s[..n] + [s[n]]
  {
  }

  lemma Whole<T>(s: seq<T>)
    ensures s[..|s|] == s && s[0..] == s
  {
  }

  function Flatten<T>(blocks: seq<seq<T>>): seq<T>
  {
    if blocks == [] then [] else Flatten(blocks[..|blocks| - 1]) + blocks[|blocks| - 1]
  }
}
