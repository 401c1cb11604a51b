/**
 Template expansion in a fixed buffer: the first placeholder is spliced out in place, again
 and again until none is left or the result would not fit.
 */
module Placeholder {
  import O = Octets

  const NUL: char := '\0'
  const LINE_SIZE: nat := 1024

  predicate At(s: string, p: string, i: nat)
  {
    i + |p| <= |s| && s[i..i + |p|] == p
  }

  /** `strstr` from position `i` on: the first occurrence, or -1. */
  function FindFrom(s: string, p: string, i: nat): (r: int)
    requires i <= |s|
    ensures -1 <= r <= |s|
    ensures r >= 0 ==> i <= r && At(s, p, r) && forall k :: i <= k < r ==> !At(s, p, k)
    ensures r < 0 ==> forall k :: i <= k ==> !At(s, p, k)
    decreases |s| - i
  {
    if At(s, p, i) then i else if i == |s| then -1 else FindFrom(s, p, i + 1)
  }

  function Find(s: string, p: string): (r: int)
    ensures -1 <= r <= |s|
    ensures r >= 0 ==> At(s, p, r) && forall k: nat :: k < r ==> !At(s, p, k)
    ensures r < 0 ==> forall k: nat :: !At(s, p, k)
  {
    FindFrom(s, p, 0)
  }

  /** Whether one replacement in a buffer of `cap` characters is made, and what it leaves. */
  predicate Replaces(s: string, cap: nat, p: string, v: string)
  {
    Find(s, p) >= 0 && |s| - |p| + |v| < cap
  }

  function Splice(s: string, p: string, v: string): (r: string)
    requires Find(s, p) >= 0
    ensures |r| == |s| - |p| + |v|
  {
    var i := Find(s, p);
    s[..i] + v + s[i + |p|..]
  }

  /** The buffer holds the C string `s`. */
  ghost predicate Holds(buf: seq<char>, s: string)
  {
    |s| < |buf| && buf[..|s|] == s && buf[|s|] == NUL && NUL !in s
  }

  /** `strlen`: the string in a buffer that holds one. */
  function CStr(buf: seq<char>): string
  {
    if buf == [] || buf[0] == NUL then [] else [buf[0]] + CStr(buf[1..])
  }

  lemma {:induction false} CStrOf(buf: seq<char>, s: string)
    requires Holds(buf, s)
    ensures CStr(buf) == s
  {
    if s != [] {
      assert buf[..|s|][0] == s[0] && buf[1..][..|s| - 1] == s[1..];
      CStrOf(buf[1..], s[1..]);
    }
  }

  /** Before, after moving the tail, after copying the value. */
  lemma {:induction false} SpliceHolds(b0: seq<char>, b1: seq<char>, b2: seq<char>, s: string, at: nat, gap: nat, v: string)
    requires Holds(b0, s) && NUL !in v && at + gap <= |s| && |s| - gap + |v| < |b0| == |b1| == |b2|
    requires forall k :: 0 <= k < at ==> b1[k] == b0[k]
    requires b1[at + |v|..at + |v| + (|s| - at - gap) + 1] == b0[at + gap..|s| + 1]
    requires forall k :: 0 <= k < at || at + |v| <= k < |b1| ==> b2[k] == b1[k]
    requires forall k :: 0 <= k < |v| ==> b2[at + k] == v[k]
    ensures Holds(b2, s[..at] + v + s[at + gap..])
  {
    var t := s[..at] + v + s[at + gap..];
    assert forall k :: 0 <= k < |s| ==> b0[k] == b0[..|s|][k] == s[k];
    forall k | 0 <= k < |t| ensures b2[k] == t[k] {
      if at + |v| <= k {
        var m := k - at - |v|;
        assert b1[k] == b1[at + |v|..at + |v| + (|s| - at - gap) + 1][m] == b0[at + gap..|s| + 1][m];
      } else if at <= k {
        assert b2[at + (k - at)] == v[k - at];
      }
    }
    var n := |s| - at - gap;
    assert b1[|t|] == b1[at + |v|..at + |v| + n + 1][n] == b0[at + gap..|s| + 1][n];
  }

  /** The two copies of `replace_placeholder`: the tail with its terminator, then the value. */
  method SpliceAt(buf: array<char>, at: nat, gap: nat, v: string, ghost s: string)
    requires Holds(buf[..], s) && NUL !in v
    requires at + gap <= |s| && |s| - gap + |v| < buf.Length
    modifies buf
    ensures Holds(buf[..], s[..at] + v + s[at + gap..])
  {
    CStrOf(buf[..], s);
    var suffix := |CStr(buf[..])| - at - gap;
    ghost var b0 := buf[..];
    forall k | 0 <= k < suffix + 1 {
      buf[at + |v| + k] := buf[at + gap + k];
    }
    ghost var b1 := buf[..];
    assert b1[at + |v|..at + |v| + suffix + 1] == b0[at + gap..|s| + 1];
    forall k | 0 <= k < |v| {
      buf[at + k] := v[k];
    }
    SpliceHolds(b0, b1, buf[..], s, at, gap, v);
  }

  /** `replace_placeholder` */
  method ReplacePlaceholder(buf: array<char>, p: string, v: string, ghost s: string) returns (made: bool)
    requires Holds(buf[..], s) && |p| > 0 && NUL !in v
    modifies buf
    ensures made <==> Replaces(s, buf.Length, p, v)
    ensures Holds(buf[..], if made then Splice(s, p, v) else s)
    ensures !made ==> buf[..] == old(buf[..])
  {
    CStrOf(buf[..], s);
    var text := CStr(buf[..]);
    var at := Find(text, p);
    if at < 0 { return false; }
    var suffix := |text| - at - |p|;
    if at + |v| + suffix >= buf.Length { return false; }
    SpliceAt(buf, at, |p|, v, s);
    return true;
  }

  // Termination. Each successful replacement shortens the string, lengthens it towards the
  // size of the buffer, or, at equal lengths, moves it in one direction of the dictionary order.

  const BASE: nat := 0x11_0000

  /** The characters as digits. */
  function Num(s: string): nat
  {
    if s == [] then 0 else Num(s[..|s| - 1]) * BASE + s[|s| - 1] as int
  }

  function Top(n: nat): nat
  {
    if n == 0 then 0 else Top(n - 1) * BASE + (BASE - 1)
  }

  lemma {:induction false} NumBelowTop(s: string)
    ensures Num(s) <= Top(|s|)
  {
    if s != [] { NumBelowTop(s[..|s| - 1]); }
  }

  lemma {:induction false} NumInjective(x: string, y: string)
    requires |x| == |y| && Num(x) == Num(y)
    ensures x == y
  {
    if x != [] {
      NumInjective(x[..|x| - 1], y[..|y| - 1]);
      assert x == x[..|x| - 1] + [x[|x| - 1]] && y == y[..|y| - 1] + [y[|y| - 1]];
    }
  }

  lemma {:induction false} NumPrefix(a: string, x: string, y: string)
    requires |x| == |y| && Num(x) < Num(y)
    ensures Num(a + x) < Num(a + y)
  {
    var x', y' := x[..|x| - 1], y[..|y| - 1];
    assert (a + x)[..|a + x| - 1] == a + x' && (a + y)[..|a + y| - 1] == a + y';
    if Num(x') < Num(y') {
      NumPrefix(a, x', y');
    } else {
      NumInjective(x', y');
    }
  }

  lemma {:induction false} NumSuffix(x: string, y: string, c: string)
    requires |x| == |y| && Num(x) < Num(y)
    ensures Num(x + c) < Num(y + c)
  {
    if c == [] {
      assert x + c == x && y + c == y;
    } else {
      var c' := c[..|c| - 1];
      NumSuffix(x, y, c');
      assert (x + c)[..|x + c| - 1] == x + c' && (y + c)[..|y + c| - 1] == y + c';
    }
  }

  /** What a replacement lowers. */
  function Measure(s: string, cap: nat, p: string, v: string): nat
  {
    if |v| < |p| then |s|
    else if |v| > |p| then if |s| < cap then cap - |s| else 0
    else if Num(v) < Num(p) then Num(s)
    else if Num(s) <= Top(|s|) then Top(|s|) - Num(s) else 0
  }

  /** Replacing a part by another of equal length moves the whole the same way. */
  lemma {:induction false} NumWithin(a: string, x: string, y: string, c: string)
    requires |x| == |y| && Num(x) < Num(y)
    ensures Num(a + x + c) < Num(a + y + c)
  {
    NumPrefix(a, x, y);
    NumSuffix(a + x, a + y, c);
  }

  lemma {:induction false} SameLengthMoves(s: string, p: string, v: string)
    requires |p| > 0 && |p| == |v| && p != v && Find(s, p) >= 0
    ensures |Splice(s, p, v)| == |s| && Num(s) <= Top(|s|) && Num(Splice(s, p, v)) <= Top(|s|)
    ensures if Num(v) < Num(p) then Num(Splice(s, p, v)) < Num(s) else Num(s) < Num(Splice(s, p, v))
  {
    var i := Find(s, p);
    var a, c := s[..i], s[i + |p|..];
    assert s == a + p + c;
    NumBelowTop(s);
    NumBelowTop(Splice(s, p, v));
    if Num(v) == Num(p) { NumInjective(v, p); }
    if Num(v) < Num(p) { NumWithin(a, v, p, c); } else { NumWithin(a, p, v, c); }
  }

  lemma {:induction false} MeasureFalls(s: string, cap: nat, p: string, v: string)
    requires |p| > 0 && p != v && |s| < cap && Replaces(s, cap, p, v)
    ensures Measure(Splice(s, p, v), cap, p, v) < Measure(s, cap, p, v)
  {
    if |v| == |p| { SameLengthMoves(s, p, v); }
  }

  /** The result of the `while` loop, where it ends. */
  function Expand(s: string, cap: nat, p: string, v: string): (r: string)
    requires |p| > 0 && |s| < cap
    ensures |r| < cap && (p != v ==> !Replaces(r, cap, p, v))
    decreases Measure(s, cap, p, v)
  {
    if p == v || !Replaces(s, cap, p, v) then s
    else
      MeasureFalls(s, cap, p, v);
      Expand(Splice(s, p, v), cap, p, v)
  }

  /** The string after `n` rounds of the loop. */
  function Rounds(s: string, cap: nat, p: string, v: string, n: nat): string
  {
    if n == 0 then s
    else
      var t := Rounds(s, cap, p, v, n - 1);
      if Replaces(t, cap, p, v) then Splice(t, p, v) else t
  }

  ghost predicate Halts(s: string, cap: nat, p: string, v: string)
  {
    exists n: nat :: !Replaces(Rounds(s, cap, p, v, n), cap, p, v)
  }

  lemma {:induction false} RoundsFromNext(s: string, cap: nat, p: string, v: string, n: nat)
    requires Replaces(s, cap, p, v)
    ensures Rounds(Splice(s, p, v), cap, p, v, n) == Rounds(s, cap, p, v, n + 1)
  {
    if n > 0 { RoundsFromNext(s, cap, p, v, n - 1); }
  }

  lemma {:induction false} DifferentHalts(s: string, cap: nat, p: string, v: string)
    requires |p| > 0 && p != v && |s| < cap
    ensures Halts(s, cap, p, v)
    decreases Measure(s, cap, p, v)
  {
    if Replaces(s, cap, p, v) {
      MeasureFalls(s, cap, p, v);
      DifferentHalts(Splice(s, p, v), cap, p, v);
      var n: nat :| !Replaces(Rounds(Splice(s, p, v), cap, p, v, n), cap, p, v);
      RoundsFromNext(s, cap, p, v, n);
    } else {
      assert Rounds(s, cap, p, v, 0) == s;
    }
  }

  lemma {:induction false} SpliceSame(s: string, p: string)
    requires Find(s, p) >= 0
    ensures Splice(s, p, p) == s
  {
    var i := Find(s, p);
    assert s == s[..i] + s[i..i + |p|] + s[i + |p|..];
  }

  lemma {:induction false} SameLoops(s: string, cap: nat, p: string, n: nat)
    requires Find(s, p) >= 0 && |s| < cap
    ensures Rounds(s, cap, p, p, n) == s
  {
    if n > 0 {
      SameLoops(s, cap, p, n - 1);
      SpliceSame(s, p);
    }
  }

  /**
   The loop ends exactly if the value is not the placeholder itself or the line does not
   contain it, whatever else the value contains.
   */
  lemma {:induction false} HaltsIff(s: string, cap: nat, p: string, v: string)
    requires |p| > 0 && |s| < cap
    ensures Halts(s, cap, p, v) <==> p != v || Find(s, p) < 0
  {
    if p != v {
      DifferentHalts(s, cap, p, v);
    } else if Find(s, p) < 0 {
      assert !Replaces(Rounds(s, cap, p, v, 0), cap, p, v);
    } else {
      forall n: nat ensures Replaces(Rounds(s, cap, p, v, n), cap, p, v) { SameLoops(s, cap, p, n); }
    }
  }

  function Count(c: char, s: string): nat
  {
    if s == [] then 0 else Count(c, s[..|s| - 1]) + (if s[|s| - 1] == c then 1 else 0)
  }

  lemma {:induction false} CountAppend(c: char, a: string, b: string)
    ensures Count(c, a + b) == Count(c, a) + Count(c, b)
  {
    if b == [] {
      assert a + b == a;
    } else {
      assert (a + b)[..|a + b| - 1] == a + b[..|b| - 1];
      CountAppend(c, a, b[..|b| - 1]);
    }
  }

  /** Each replacement takes the placeholder's marks away and adds the value's. */
  lemma {:induction false} MarksFall(c: char, s: string, p: string, v: string)
    requires Find(s, p) >= 0
    ensures Count(c, Splice(s, p, v)) == Count(c, s) - Count(c, p) + Count(c, v)
  {
    var i := Find(s, p);
    assert s == s[..i] + p + s[i + |p|..];
    CountAppend(c, s[..i], p);
    CountAppend(c, s[..i] + p, s[i + |p|..]);
    CountAppend(c, s[..i], v);
    CountAppend(c, s[..i] + v, s[i + |p|..]);
  }

  /** `while (replace_placeholder(...)) {}`, wherever it ends. */
  method ExpandAll(buf: array<char>, p: string, v: string, ghost s: string)
    requires Holds(buf[..], s) && |p| > 0 && NUL !in v && Halts(s, buf.Length, p, v)
    modifies buf
    ensures Holds(buf[..], Expand(s, buf.Length, p, v))
  {
    HaltsIff(s, buf.Length, p, v);
    ghost var t := s;
    var made := true;
    while made
      invariant Holds(buf[..], t) && Expand(s, buf.Length, p, v) == Expand(t, buf.Length, p, v)
      invariant p == v ==> t == s
      invariant !made ==> !Replaces(t, buf.Length, p, v)
      decreases Measure(t, buf.Length, p, v), made
    {
      made := ReplacePlaceholder(buf, p, v, t);
      if made {
        MeasureFalls(t, buf.Length, p, v);
        t := Splice(t, p, v);
      }
    }
  }
}
