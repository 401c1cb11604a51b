/** Printing and reading decimal and hexadecimal numbers as the C library does. */
module Numerals {
  import opened Octets

  type Radix = b: nat | b == 10 || b == 16 witness 10

  function Quot(n: nat, base: Radix): nat
  {
    if base == 10 then n / 10 else n / 16
  }

  function Rem(n: nat, base: Radix): (r: nat)
    ensures r < base
  {
    if base == 10 then n % 10 else n % 16
  }

  /** A number with one more digit. */
  function Shift(n: nat, base: Radix, d: nat): nat
  {
    (if base == 10 then 10 * n else 16 * n) + d
  }

  function DigitChar(d: nat): char
    requires d < 16
  {
    "0123456789abcdef"[d]
  }

  /** The value of a digit, or 16 for any other character. */
  function DigitVal(c: char): nat
  {
    if '0' <= c <= '9' then c as int - '0' as int
    else if 'a' <= c <= 'f' then c as int - 'a' as int + 10
    else if 'A' <= c <= 'F' then c as int - 'A' as int + 10
    else 16
  }

  lemma DigitRoundTrip(d: nat)
    requires d < 16
    ensures DigitVal(DigitChar(d)) == d
    ensures DigitChar(d) in "0123456789abcdef"
  {
  }

  /** `%d` of a non-negative number, or `%x`. */
  function Print(n: nat, base: Radix): (s: string)
    ensures |s| > 0
    decreases n
  {
    if n < base then [DigitChar(n)] else Print(Quot(n, base), base) + [DigitChar(Rem(n, base))]
  }

  /** `%d` */
  function PrintInt(n: int): string
  {
    if n < 0 then "-" + Print(-n, 10) else Print(n, 10)
  }

  /** The number made of `acc` and the digits at the front of `s`. */
  function Digits(s: string, base: Radix, acc: nat): nat
  {
    if s == [] || DigitVal(s[0]) >= base then acc else Digits(s[1..], base, Shift(acc, base, DigitVal(s[0])))
  }

  predicate IsSpace(c: char)
  {
    c in " \t\n\r" || c == 11 as char || c == 12 as char
  }

  function SkipSpace(s: string): string
  {
    if s != [] && IsSpace(s[0]) then SkipSpace(s[1..]) else s
  }

  /** `atoi`, without the overflow of `int`. */
  function Atoi(s: string): int
  {
    var t := SkipSpace(s);
    if t != [] && t[0] == '-' then 0 - Digits(t[1..], 10, 0)
    else if t != [] && t[0] == '+' then Digits(t[1..], 10, 0)
    else Digits(t, 10, 0)
  }

  const ULONG_MAX: nat := 0xffff_ffff_ffff_ffff

  /** The magnitude `strtoul(s, NULL, 16)` reads: an optional 0x, then hexadecimal digits. */
  function HexMagnitude(s: string): nat
  {
    if |s| >= 3 && s[0] == '0' && s[1] in "xX" && DigitVal(s[2]) < 16 then Digits(s[2..], 16, 0)
    else Digits(s, 16, 0)
  }

  /** `(uint32_t)strtoul(s, NULL, 16)`: saturates at 64 bits, a minus sign negates, the cast truncates. */
  function Strtoul16(s: string): u32
  {
    var t := SkipSpace(s);
    var signed := t != [] && t[0] in "+-";
    var m := HexMagnitude(if signed then t[1..] else t);
    if m > ULONG_MAX then ULONG_MAX % TWO32
    else if signed && t[0] == '-' then (TWO32 - m % TWO32) % TWO32
    else m % TWO32
  }

  lemma {:induction false} DigitsCons(d: nat, rest: string, base: Radix, acc: nat)
    requires d < base
    ensures Digits([DigitChar(d)] + rest, base, acc) == Digits(rest, base, Shift(acc, base, d))
  {
    DigitRoundTrip(d);
    assert ([DigitChar(d)] + rest)[1..] == rest;
  }

  /** Reading goes past a printed number with that number in hand. */
  lemma {:induction false} DigitsOfPrint(n: nat, base: Radix, rest: string)
    ensures Digits(Print(n, base) + rest, base, 0) == Digits(rest, base, n)
    decreases n
  {
    if n < base {
      DigitsCons(n, rest, base, 0);
    } else {
      var q, d := Quot(n, base), Rem(n, base);
      assert Shift(q, base, d) == n;
      DigitsOfPrint(q, base, [DigitChar(d)] + rest);
      Assoc(Print(q, base), [DigitChar(d)], rest);
      DigitsCons(d, rest, base, q);
    }
  }

  /** Printed numbers consist of digits. */
  lemma {:induction false} PrintIsDigits(n: nat, base: Radix)
    ensures forall c :: c in Print(n, base) ==> DigitVal(c) < base && c in "0123456789abcdef"
    decreases n
  {
    if n < base {
      DigitRoundTrip(n);
    } else {
      PrintIsDigits(Quot(n, base), base);
      DigitRoundTrip(Rem(n, base));
    }
  }

  lemma {:induction false} FirstIsDigit(n: nat, base: Radix, rest: string)
    ensures var s := Print(n, base) + rest;
      DigitVal(s[0]) < base && s[0] in "0123456789abcdef" && SkipSpace(s) == s
  {
    PrintIsDigits(n, base);
    assert Print(n, base)[0] in Print(n, base);
  }

  lemma {:induction false} AtoiPlain(s: string, n: nat)
    requires s != [] && DigitVal(s[0]) < 10 && Digits(s, 10, 0) == n
    ensures Atoi(s) == n && Atoi("-" + s) == 0 - n
  {
    assert ("-" + s)[1..] == s;
    assert SkipSpace("-" + s) == "-" + s;
    assert SkipSpace(s) == s;
  }

  /** `atoi` undoes `%d` if no digit follows. */
  lemma {:induction false} AtoiOfPrintInt(n: int, rest: string)
    requires rest == [] || DigitVal(rest[0]) >= 10
    ensures Atoi(PrintInt(n) + rest) == n
  {
    var m := if n < 0 then -n else n;
    FirstIsDigit(m, 10, rest);
    DigitsOfPrint(m, 10, rest);
    AtoiPlain(Print(m, 10) + rest, m);
    assert "-" + Print(m, 10) + rest == "-" + (Print(m, 10) + rest);
  }

  /** A text of printed digits has no sign, no space and no 0x in front. */
  lemma {:induction false} PlainHex(s: string)
    requires |s| > 0 && forall c :: c in s ==> c in "0123456789abcdef"
    ensures SkipSpace(s) == s && s[0] !in "+-" && HexMagnitude(s) == Digits(s, 16, 0)
  {
    assert s[0] in s;
    NoMark(s[0]);
    if |s| >= 2 {
      assert s[1] in s;
      NoMark(s[1]);
    }
  }

  lemma NoMark(c: char)
    requires c in "0123456789abcdef"
    ensures c !in "xX" && c !in "+-" && !IsSpace(c)
  {
  }

  lemma {:induction false} StrtoulPlain(s: string, n: u32)
    requires |s| > 0 && (forall c :: c in s ==> c in "0123456789abcdef") && Digits(s, 16, 0) == n
    ensures Strtoul16(s) == n
  {
    PlainHex(s);
  }

  /** `strtoul` undoes `%x` for every 32-bit number. */
  lemma {:induction false} StrtoulOfPrint(n: u32)
    ensures Strtoul16(Print(n, 16)) == n
  {
    assert Print(n, 16) + [] == Print(n, 16);
    DigitsOfPrint(n, 16, []);
    PrintIsDigits(n, 16);
    StrtoulPlain(Print(n, 16), n);
  }
}
