/**
 What template expansion means: when the loop that splices one placeholder after another is
 leftmost replace-all, and what is left of the four placeholders in a line.
 */
module Expansion {
  import opened Placeholder
  import O = Octets

  /** Leftmost replacement of all occurrences, left to right. */
  function ReplaceAll(s: string, p: string, v: string): string
    requires |p| > 0
    decreases |s|
  {
    var i := Find(s, p);
    if i < 0 then s else s[..i] + v + ReplaceAll(s[i + |p|..], p, v)
  }

  /** Pieces of text with `x` between each and the next. */
  function Join(pieces: seq<string>, x: string): string
    requires pieces != []
  {
    if |pieces| == 1 then pieces[0] else pieces[0] + x + Join(pieces[1..], x)
  }

  lemma FirstChar(s: string, p: string, k: nat)
    requires |p| > 0 && At(s, p, k)
    ensures k < |s| && s[k] == p[0]
  {
    assert s[k..k + |p|][0] == s[k];
  }

  /** The occurrence behind text without the placeholder's first character is the first one. */
  lemma {:induction false} FirstAfter(a: string, p: string, b: string)
    requires |p| > 0 && p[0] !in a
    ensures Find(a, p) < 0 && Find(a + p + b, p) == |a|
  {
    var s := a + p + b;
    assert s[|a|..|a| + |p|] == p;
    assert At(s, p, |a|);
    forall k: nat | At(s, p, k) ensures k < |s| && s[k] == p[0] { FirstChar(s, p, k); }
    forall k: nat | At(a, p, k) ensures k < |a| && a[k] == p[0] { FirstChar(a, p, k); }
  }

  /** A text cut at the placeholders is put together again with the value between the pieces. */
  lemma {:induction false} FilledIn(pieces: seq<string>, p: string, v: string)
    requires pieces != [] && |p| > 0 && forall s :: s in pieces ==> p[0] !in s
    ensures ReplaceAll(Join(pieces, p), p, v) == Join(pieces, v)
  {
    var a := pieces[0];
    assert p[0] !in a;
    if |pieces| == 1 {
      FirstAfter(a, p, []);
    } else {
      var b := Join(pieces[1..], p);
      FirstAfter(a, p, b);
      FilledIn(pieces[1..], p, v);
      assert (a + p + b)[..|a|] == a && (a + p + b)[|a| + |p|..] == b;
    }
  }

  /** A mark, characters that are not the mark, the mark again: the form of all four placeholders. */
  predicate Delimited(p: string)
  {
    |p| >= 3 && p[|p| - 1] == p[0] && p[0] !in p[1..|p| - 1]
  }

  predicate StartsWith(s: string, x: string)
  {
    |x| <= |s| && s[..|x|] == x
  }

  predicate EndsWith(s: string, x: string)
  {
    |x| <= |s| && s[|s| - |x|..] == x
  }

  /**
   With what stands around it the value can make up a new placeholder: it is part of one,
   holds one, ends with the beginning of one, or begins with the end of one. The closing mark
   alone does not count as an end.
   */
  predicate Joins(p: string, v: string)
  {
    || Find(p, v) >= 0
    || Find(v, p) >= 0
    || (exists k :: 1 <= k < |p| && EndsWith(v, p[..k]))
    || (exists k :: 1 <= k < |p| - 1 && StartsWith(v, p[k..]))
  }

  /** A value that can make up no placeholder. */
  predicate Quiet(p: string, v: string)
  {
    Delimited(p) && !Joins(p, v)
  }

  lemma SelfAt(p: string)
    ensures At(p, p, 0)
  {
    assert p[0..|p|] == p;
  }

  lemma PartChars(s: string, i: nat, x: string)
    requires At(s, x, i) && |x| > 0
    ensures x[0] in s && x[|x| - 1] in s
  {
    assert s[i] == s[i..i + |x|][0] && s[i + |x| - 1] == s[i..i + |x|][|x| - 1];
  }

  lemma {:induction false} JoinsHasMark(p: string, v: string)
    requires Delimited(p) && Joins(p, v) && Find(p, v) < 0
    ensures p[0] in v
  {
    if Find(v, p) >= 0 {
      PartChars(v, Find(v, p), p);
    } else if k :| 1 <= k < |p| && EndsWith(v, p[..k]) {
      PartChars(v, |v| - k, p[..k]);
    } else {
      var k :| 1 <= k < |p| - 1 && StartsWith(v, p[k..]);
      PartChars(v, 0, p[k..]);
    }
  }

  /** For a value without the mark only being part of the placeholder counts. */
  lemma {:induction false} PlainValue(p: string, v: string)
    requires Delimited(p) && p[0] !in v
    ensures Joins(p, v) <==> Find(p, v) >= 0
  {
    if Joins(p, v) && Find(p, v) < 0 { JoinsHasMark(p, v); }
  }

  /** A value with one mark, which is not next to what a placeholder has next to its marks. */
  predicate OneMark(p: string, v: string, m: nat)
  {
    && |p| >= 3 && 0 < m < |v| - 1 && v[m] == p[0] && p[0] !in v[..m] && p[0] !in v[m + 1..]
    && v[m + 1] != p[1] && v[m - 1] != p[|p| - 2]
  }

  lemma MarkPlaces(p: string, v: string, m: nat)
    requires Delimited(p) && OneMark(p, v, m)
    ensures forall i :: 0 <= i < |v| && v[i] == p[0] ==> i == m
    ensures forall i :: 0 < i < |p| - 1 ==> p[i] != p[0]
  {
    assert forall i :: 0 <= i < m ==> v[..m][i] == v[i];
    assert forall i :: m < i < |v| ==> v[m + 1..][i - m - 1] == v[i];
    assert forall i :: 0 < i < |p| - 1 ==> p[1..|p| - 1][i - 1] == p[i];
  }

  lemma FrontChars(v: string, p: string, k: nat)
    requires |p| >= 2 && At(v, p, k)
    ensures v[k] == p[0] && v[k + 1] == p[1]
  {
    assert v[k..k + |p|][0] == v[k] && v[k..k + |p|][1] == v[k + 1];
  }

  lemma EndChars(v: string, p: string, n: nat)
    requires 1 <= n < |p| && EndsWith(v, p[..n])
    ensures v[|v| - n] == p[0] && (n >= 2 ==> v[|v| - n + 1] == p[1])
  {
    assert v[|v| - n..][0] == v[|v| - n];
    if n >= 2 { assert v[|v| - n..][1] == v[|v| - n + 1]; }
  }

  lemma BeginChars(v: string, p: string, n: nat)
    requires n < |p| - 1 && StartsWith(v, p[n..])
    ensures v[|p| - n - 1] == p[|p| - 1] && v[|p| - n - 2] == p[|p| - 2]
  {
    var e := |p| - n;
    assert v[..e][e - 1] == v[e - 1] && v[..e][e - 2] == v[e - 2];
  }

  /** Such a value, a user of a domain for one, joins nothing. */
  lemma {:induction false} OneMarkIsQuiet(p: string, v: string, m: nat)
    requires Delimited(p) && OneMark(p, v, m)
    ensures Quiet(p, v)
  {
    MarkPlaces(p, v, m);
    var i, k := Find(p, v), Find(v, p);
    if i >= 0 { Char(p, v, i, m); }
    if k >= 0 { FrontChars(v, p, k); }
    forall n | 1 <= n < |p| ensures !EndsWith(v, p[..n]) {
      if EndsWith(v, p[..n]) { EndChars(v, p, n); }
    }
    forall n | 1 <= n < |p| - 1 ensures !StartsWith(v, p[n..]) {
      if StartsWith(v, p[n..]) { BeginChars(v, p, n); }
    }
  }

  // A quiet value makes the loop replace-all

  lemma {:induction false} Shift(a: string, b: string, p: string, k: nat)
    ensures At(a + b, p, |a| + k) <==> At(b, p, k)
  {
    if k + |p| <= |b| { assert (a + b)[|a| + k..|a| + k + |p|] == b[k..k + |p|]; }
  }

  /** An occurrence that ends inside `b` is one of `b` whatever follows. */
  lemma {:induction false} Within(b: string, c: string, p: string, k: nat)
    requires k + |p| <= |b|
    ensures At(b + c, p, k) <==> At(b, p, k)
  {
    assert (b + c)[k..k + |p|] == b[k..k + |p|];
  }

  lemma Mismatch(s: string, p: string, k: nat, m: nat)
    requires m < |p| && (k + m < |s| ==> s[k + m] != p[m])
    ensures !At(s, p, k)
  {
    if k + |p| <= |s| { assert s[k..k + |p|][m] == s[k + m]; }
  }

  /** The character of an occurrence. */
  lemma {:induction false} Char(s: string, p: string, k: nat, m: nat)
    requires At(s, p, k) && m < |p|
    ensures s[k + m] == p[m]
  {
    assert s[k..k + |p|][m] == s[k + m];
  }

  /** An occurrence that starts in the value lies in it, or the value ends with a beginning. */
  lemma {:induction false} StartsInside(v: string, t: string, p: string, m: nat)
    requires m < |v| && At(v + t, p, m)
    ensures At(v, p, m) || (|v| - m < |p| && EndsWith(v, p[..|v| - m]))
  {
    if m + |p| <= |v| {
      Within(v, t, p, m);
    } else {
      var n := |v| - m;
      assert v[m..] == (v + t)[m..m + |p|][..n];
    }
  }

  lemma SliceAcross(a: string, b: string, k: nat, e: nat)
    requires k <= |a| <= e <= |a| + |b|
    ensures (a + b)[k..e] == a[k..] + b[..e - |a|]
  {
  }

  /** An occurrence across the front of the value holds all of it, or its end is the value's beginning. */
  lemma {:induction false} StartsBefore(head: string, v: string, t: string, p: string, k: nat)
    requires k < |head| < k + |p| && At(head + (v + t), p, k)
    ensures At(p, v, |head| - k) || StartsWith(v, p[|head| - k..])
  {
    var a := |head| - k;
    var rest := (v + t)[..|p| - a];
    SliceAcross(head, v + t, k, k + |p|);
    assert p == head[k..] + rest && p[a..] == rest;
    if |p| - a <= |v| {
      assert rest == v[..|p| - a];
    } else {
      assert rest[..|v|] == v;
      assert p[a..a + |v|] == rest[..|v|];
    }
  }

  lemma AllButLast(s: string, p: string, k: nat)
    requires |p| > 0 && At(s, p, k)
    ensures s[k..k + |p| - 1] == p[..|p| - 1]
  {
    assert s[k..k + |p|][..|p| - 1] == s[k..k + |p| - 1];
  }

  /** An occurrence that ends before position `i`, or with it where a placeholder starts, was there already. */
  lemma {:induction false} EndsEarly(rest: string, i: nat, p: string, t: string, k: nat)
    requires Delimited(p) && At(rest, p, i) && k + |p| - 1 <= i && At(rest[..i] + t, p, k)
    ensures At(rest, p, k)
  {
    var head := rest[..i];
    assert rest == head + rest[i..];
    if k + |p| <= i {
      Within(head, t, p, k);
      Within(head, rest[i..], p, k);
    } else {
      AllButLast(head + t, p, k);
      assert (head + t)[k..i] == head[k..];
      LastMark(rest, p, k);
    }
  }

  /** An occurrence that takes in some of a value put in place of the first occurrence: the value joins. */
  lemma {:induction false} AcrossJoins(rest: string, p: string, v: string, t: string, k: nat)
    requires Delimited(p) && Find(rest, p) >= 0 && k < Find(rest, p) + |v|
    requires At(rest[..Find(rest, p)] + v + t, p, k)
    ensures Joins(p, v)
  {
    var i := Find(rest, p);
    var head := rest[..i];
    assert head + v + t == head + (v + t);
    if k >= i {
      Shift(head, v + t, p, k - i);
      StartsInside(v, t, p, k - i);
    } else if k + |p| - 1 <= i {
      EndsEarly(rest, i, p, v + t, k);
    } else {
      StraddleJoins(head, v, t, p, k);
    }
  }

  lemma {:induction false} StraddleJoins(head: string, v: string, t: string, p: string, k: nat)
    requires k < |head| < k + |p| - 1 && At(head + (v + t), p, k)
    ensures Joins(p, v)
  {
    StartsBefore(head, v, t, p, k);
    if At(p, v, |head| - k) { assert Find(p, v) >= 0; }
  }

  lemma {:induction false} NoneAcross(rest: string, p: string, v: string, t: string, k: nat)
    requires Quiet(p, v) && Find(rest, p) >= 0 && k < Find(rest, p) + |v|
    ensures !At(rest[..Find(rest, p)] + v + t, p, k)
  {
    if At(rest[..Find(rest, p)] + v + t, p, k) { AcrossJoins(rest, p, v, t, k); }
  }

  /** All of a placeholder but its closing mark, and then the mark. */
  lemma {:induction false} SameMark(s: string, q: string, k: nat)
    requires Delimited(q) && k + |q| <= |s| && s[k..k + |q| - 1] == q[..|q| - 1] && s[k + |q| - 1] == q[0]
    ensures At(s, q, k)
  {
    assert s[k..k + |q|] == s[k..k + |q| - 1] + [s[k + |q| - 1]];
    assert q == q[..|q| - 1] + [q[|q| - 1]];
  }

  /** All of a placeholder but its closing mark, and then a placeholder: the first one ends there. */
  lemma {:induction false} LastMark(rest: string, p: string, k: nat)
    requires Delimited(p) && At(rest, p, k + |p| - 1) && rest[k..k + |p| - 1] == p[..|p| - 1]
    ensures At(rest, p, k)
  {
    Char(rest, p, k + |p| - 1, 0);
    SameMark(rest, p, k);
  }

  /** Something that follows `done` can make an occurrence that starts inside it. */
  ghost predicate Open(done: string, p: string)
  {
    exists t: string, k: nat :: k < |done| && At(done + t, p, k)
  }

  lemma {:induction false} StaysClosed(done: string, rest: string, p: string, v: string)
    requires Quiet(p, v) && !Open(done, p) && Find(rest, p) >= 0
    ensures !Open(done + rest[..Find(rest, p)] + v, p)
  {
    var i := Find(rest, p);
    var q := done + rest[..i] + v;
    forall t: string, k: nat | k < |q| ensures !At(q + t, p, k) {
      assert q + t == done + (rest[..i] + v + t);
      if k >= |done| {
        Shift(done, rest[..i] + v + t, p, k - |done|);
        NoneAcross(rest, p, v, t, k - |done|);
      }
    }
  }

  lemma {:induction false} FindBehind(done: string, rest: string, p: string)
    requires |p| > 0 && !Open(done, p)
    ensures Find(done + rest, p) == if Find(rest, p) < 0 then -1 else |done| + Find(rest, p)
  {
    var i, n := Find(rest, p), Find(done + rest, p);
    if n >= 0 {
      assert n >= |done|;
      Shift(done, rest, p, n - |done|);
    }
    if i >= 0 {
      Shift(done, rest, p, i);
      if |done| <= n { Shift(done, rest, p, n - |done|); }
    }
  }

  lemma {:induction false} ReplaceAllLonger(s: string, p: string, v: string)
    requires |p| > 0 && |p| <= |v|
    ensures |s| <= |ReplaceAll(s, p, v)|
    decreases |s|
  {
    var i := Find(s, p);
    if i >= 0 { ReplaceAllLonger(s[i + |p|..], p, v); }
  }

  /** One replacement behind a closed front. */
  lemma {:induction false} SpliceBehind(done: string, rest: string, p: string, v: string)
    requires |p| > 0 && !Open(done, p) && Find(rest, p) >= 0
    ensures Find(done + rest, p) >= 0
    ensures var i := Find(rest, p);
      Splice(done + rest, p, v) == done + rest[..i] + v + rest[i + |p|..]
  {
    FindBehind(done, rest, p);
    var i := Find(rest, p);
    assert (done + rest)[..|done| + i] == done + rest[..i];
    assert (done + rest)[|done| + i + |p|..] == rest[i + |p|..];
  }

  lemma {:induction false} OneRound(s: string, cap: nat, p: string, v: string)
    requires |p| > 0 && p != v && |s| < cap && Replaces(s, cap, p, v)
    ensures Expand(s, cap, p, v) == Expand(Splice(s, p, v), cap, p, v)
  {
  }

  lemma {:induction false} ReplaceFirst(rest: string, p: string, v: string)
    requires |p| > 0 && Find(rest, p) >= 0
    ensures var i := Find(rest, p);
      ReplaceAll(rest, p, v) == rest[..i] + v + ReplaceAll(rest[i + |p|..], p, v)
  {
  }

  /** If replace-all fits behind `done`, so does its first replacement, and then the others. */
  lemma {:induction false} FirstFits(done: string, rest: string, cap: nat, p: string, v: string)
    requires |p| > 0 && Find(rest, p) >= 0 && |done| + |rest| < cap && |done| + |ReplaceAll(rest, p, v)| < cap
    ensures var i := Find(rest, p); var done', rest' := done + rest[..i] + v, rest[i + |p|..];
      && |done'| + |rest'| == |done| + |rest| - |p| + |v| < cap
      && |done'| + |ReplaceAll(rest', p, v)| < cap
  {
    ReplaceFirst(rest, p, v);
    if |p| <= |v| { ReplaceAllLonger(rest[Find(rest, p) + |p|..], p, v); }
  }

  lemma {:induction false} ExpandBehind(done: string, rest: string, cap: nat, p: string, v: string)
    requires Quiet(p, v) && !Open(done, p) && |done| + |rest| < cap
    requires |done| + |ReplaceAll(rest, p, v)| < cap
    ensures Expand(done + rest, cap, p, v) == done + ReplaceAll(rest, p, v)
    decreases |rest|, 1
  {
    var i := Find(rest, p);
    if i < 0 {
      FindBehind(done, rest, p);
    } else {
      FirstFits(done, rest, cap, p, v);
      NextBehind(done, rest, rest[..i], rest[i + |p|..], cap, p, v);
      SpliceBehind(done, rest, p, v);
      Assemble(done, rest, cap, p, v);
    }
  }

  /** The induction step: past the first replacement. */
  lemma {:induction false} NextBehind(done: string, rest: string, skipped: string, rest': string, cap: nat, p: string, v: string)
    requires Quiet(p, v) && !Open(done, p) && Find(rest, p) >= 0
    requires skipped == rest[..Find(rest, p)] && rest' == rest[Find(rest, p) + |p|..]
    requires |done + skipped + v| + |rest'| < cap && |done + skipped + v| + |ReplaceAll(rest', p, v)| < cap
    ensures Expand(done + skipped + v + rest', cap, p, v) == done + skipped + v + ReplaceAll(rest', p, v)
    decreases |rest|, 0
  {
    StaysClosed(done, rest, p, v);
    ExpandBehind(done + skipped + v, rest', cap, p, v);
  }

  lemma {:induction false} Assemble(done: string, rest: string, cap: nat, p: string, v: string)
    requires |p| > 0 && p != v && |done + rest| < cap && Find(rest, p) >= 0
    requires Replaces(done + rest, cap, p, v)
    requires var i := Find(rest, p); var done', rest' := done + rest[..i] + v, rest[i + |p|..];
      && Splice(done + rest, p, v) == done' + rest'
      && Expand(done' + rest', cap, p, v) == done' + ReplaceAll(rest', p, v)
    ensures Expand(done + rest, cap, p, v) == done + ReplaceAll(rest, p, v)
  {
    OneRound(done + rest, cap, p, v);
    ReplaceFirst(rest, p, v);
    var i := Find(rest, p);
    O.Assoc4(done, rest[..i], v, ReplaceAll(rest[i + |p|..], p, v));
  }

  /**
   With a quiet value the loop in the buffer is replace-all exactly if replace-all fits the
   buffer at the end; it never needs more room on the way.
   */
  lemma {:induction false} ExpandIsReplaceAll(s: string, cap: nat, p: string, v: string)
    requires Quiet(p, v) && |s| < cap
    ensures p != v
    ensures Expand(s, cap, p, v) == ReplaceAll(s, p, v) <==> |ReplaceAll(s, p, v)| < cap
  {
    if |ReplaceAll(s, p, v)| < cap {
      assert [] + s == s;
      ExpandBehind([], s, cap, p, v);
    }
  }


  // A value that joins makes some line come out differently

  lemma Inner(p: string, k: nat)
    requires Delimited(p) && 0 < k < |p| - 1
    ensures p[k] != p[0]
  {
    assert p[1..|p| - 1][k - 1] == p[k];
  }

  /** A beginning of a placeholder in front of one: the first placeholder is the whole one. */
  lemma {:induction false} FirstBehind(p: string, i: nat, y: string)
    requires Delimited(p) && i < |p| - 1
    ensures Find(p[..i] + p + y, p) == i
  {
    var s := p[..i] + p + y;
    assert s[i..i + |p|] == p;
    assert At(s, p, i);
    forall k: nat | k < i ensures !At(s, p, k) {
      if k == 0 {
        Inner(p, i);
        Mismatch(s, p, 0, i);
      } else {
        Inner(p, k);
        Mismatch(s, p, k, 0);
      }
    }
  }

  /** In a buffer of `cap` characters, which holds both, the line's replacement is not what the loop makes of it. */
  predicate Refutes(s: string, cap: nat, p: string, v: string)
    requires |p| > 0
  {
    |s| < cap && |ReplaceAll(s, p, v)| < cap && Expand(s, cap, p, v) != ReplaceAll(s, p, v)
  }

  /** The loop does not stop at a line with a placeholder in it while there is room. */
  lemma {:induction false} LeftOver(s: string, r: string, cap: nat, p: string, v: string)
    requires |p| > 0 && p != v && ReplaceAll(s, p, v) == r && Find(r, p) >= 0
    requires |s| < cap && |r| < cap && |r| - |p| + |v| < cap
    ensures Refutes(s, cap, p, v)
  {
  }

  /** The buffer has room for more than placeholder and value twice. */
  predicate Roomy(cap: nat, p: string, v: string)
  {
    2 * (|p| + |v|) < cap
  }

  /** The beginning of a placeholder, the placeholder, and an end that cannot hold another. */
  lemma {:induction false} OneReplaced(p: string, v: string, i: nat, y: string)
    requires Delimited(p) && i < |p| - 1 && |y| < |p|
    ensures ReplaceAll(p[..i] + p + y, p, v) == p[..i] + v + y
  {
    var s := p[..i] + p + y;
    FirstBehind(p, i, y);
    ReplaceFirst(s, p, v);
    assert s[..i] == p[..i] && s[i + |p|..] == y;
  }

  lemma EndsWithIt(x: string, p: string)
    ensures At(x + p, p, |x|)
  {
  }

  // The line for each way of joining

  lemma {:induction false} LastIsFirst(p: string, v: string)
    requires Delimited(p) && v != "" && At(p, v, |p| - 1)
    ensures Find(p, v) == 0
  {
    assert v == p[|p| - 1..|p| - 1 + |v|] == [p[0]];
    assert p[0..1] == [p[0]];
    assert At(p, v, 0);
  }

  /** Where a part of a placeholder lies in it, but not at its closing mark. */
  lemma {:induction false} PartPlace(p: string, v: string) returns (i: nat)
    requires Delimited(p) && p != v && Find(p, v) >= 0
    ensures i < |p| - 1 && At(p, v, i) && |p| - i - |v| < |p|
  {
    i := if v == "" then 1 else Find(p, v);
    if v != "" && i == |p| - 1 { LastIsFirst(p, v); }
  }

  lemma Parted(p: string, v: string, i: nat)
    requires At(p, v, i)
    ensures p[..i] + v + p[i + |v|..] == p
  {
    assert p == p[..i] + p[i..i + |v|] + p[i + |v|..];
  }

  /** A part of a placeholder: what stands around it is a placeholder in front of the one replaced. */
  lemma {:induction false} PartJoins(cap: nat, p: string, v: string) returns (s: string)
    requires Delimited(p) && p != v && Roomy(cap, p, v) && Find(p, v) >= 0
    ensures Refutes(s, cap, p, v)
  {
    var i := PartPlace(p, v);
    Parted(p, v, i);
    s := p[..i] + p + p[i + |v|..];
    OneReplaced(p, v, i, p[i + |v|..]);
    SelfAt(p);
    LeftOver(s, p, cap, p, v);
  }

  lemma {:induction false} HolderJoins(cap: nat, p: string, v: string) returns (s: string)
    requires Delimited(p) && p != v && Roomy(cap, p, v) && Find(v, p) >= 0
    ensures Refutes(s, cap, p, v)
  {
    s := p[..0] + p + "";
    OneReplaced(p, v, 0, "");
    assert p[..0] + v + "" == v;
    LeftOver(s, v, cap, p, v);
  }

  lemma {:induction false} BeginningJoins(cap: nat, p: string, v: string, k: nat) returns (s: string)
    requires Delimited(p) && p != v && Roomy(cap, p, v) && 1 <= k < |p| && EndsWith(v, p[..k])
    ensures Refutes(s, cap, p, v)
  {
    s := p[..0] + p + p[k..];
    OneReplaced(p, v, 0, p[k..]);
    var x := v[..|v| - k];
    Continued(v, x, p, k);
    assert p[..0] + v == v;
    LeftOver(s, v + p[k..], cap, p, v);
  }

  lemma Continued(v: string, x: string, p: string, k: nat)
    requires k <= |p| && k <= |v| && x == v[..|v| - k] && v[|v| - k..] == p[..k]
    ensures At(v + p[k..], p, |x|)
  {
    assert v == x + p[..k] && p == p[..k] + p[k..];
    O.Assoc(x, p[..k], p[k..]);
    EndsWithIt(x, p);
  }

  lemma {:induction false} EndJoins(cap: nat, p: string, v: string, k: nat) returns (s: string)
    requires Delimited(p) && p != v && Roomy(cap, p, v) && 1 <= k < |p| - 1 && StartsWith(v, p[k..])
    ensures Refutes(s, cap, p, v)
  {
    s := p[..k] + p + "";
    OneReplaced(p, v, k, "");
    Completed(v, p, k);
    assert p[..k] + v + "" == p[..k] + v;
    LeftOver(s, p[..k] + v, cap, p, v);
  }

  lemma Completed(v: string, p: string, k: nat)
    requires k <= |p| && StartsWith(v, p[k..])
    ensures At(p[..k] + v, p, 0)
  {
    SliceAcross(p[..k], v, 0, |p|);
    assert p == p[..k] + p[k..] && p[..k][0..] == p[..k];
  }

  lemma {:induction false} JoiningLine(cap: nat, p: string, v: string) returns (s: string)
    requires Delimited(p) && p != v && Roomy(cap, p, v) && Joins(p, v)
    ensures Refutes(s, cap, p, v)
  {
    if Find(p, v) >= 0 {
      s := PartJoins(cap, p, v);
    } else if Find(v, p) >= 0 {
      s := HolderJoins(cap, p, v);
    } else if k :| 1 <= k < |p| && EndsWith(v, p[..k]) {
      s := BeginningJoins(cap, p, v, k);
    } else {
      var k :| 1 <= k < |p| - 1 && StartsWith(v, p[k..]);
      s := EndJoins(cap, p, v, k);
    }
  }

  /**
   For which values the loop is leftmost replace-all on every line that fits the buffer; of 1024
   characters, say, which is roomy for placeholder and value of fewer than 512 together.
   */
  lemma {:induction false} ReplaceAllIff(cap: nat, p: string, v: string)
    requires Delimited(p) && p != v && Roomy(cap, p, v)
    ensures !Joins(p, v) <==> forall s: string :: !Refutes(s, cap, p, v)
  {
    if Joins(p, v) {
      var s := JoiningLine(cap, p, v);
    } else {
      forall s: string ensures !Refutes(s, cap, p, v) {
        if |s| < cap && |ReplaceAll(s, p, v)| < cap { ExpandIsReplaceAll(s, cap, p, v); }
      }
    }
  }

  /** The buffer of the code, for the placeholders of the code. */
  lemma {:induction false} LineReplaceAllIff(i: nat, v: string)
    requires i < 4 && v != MARKS[i] && |MARKS[i]| + |v| < 512
    ensures !Joins(MARKS[i], v) <==> forall s: string :: !Refutes(s, 1024, MARKS[i], v)
  {
    MarksAlike(i);
    ReplaceAllIff(LINE_SIZE, MARKS[i], v);
  }

  lemma {:induction false} UserLine()
    ensures var s, p := "@U@USER@ER@", "@USER@";
      Find(s, p) == 2 && Splice(s, p, "S") == p && ReplaceAll(s, p, "S") == p
  {
    var s, p, v := "@U@USER@ER@", "@USER@", "S";
    assert p[1..|p| - 1] == "USER";
    assert p[..2] == "@U" && s == p[..2] + p + "ER@";
    FirstBehind(p, 2, "ER@");
    OneReplaced(p, v, 2, "ER@");
    assert p[..2] + v + "ER@" == p;
    assert s[..2] == "@U" && s[8..] == "ER@";
  }

  lemma {:induction false} SpliceAlone(p: string, v: string)
    ensures Find(p, p) == 0 && Splice(p, p, v) == v
  {
    SelfAt(p);
    assert Splice(p, p, v) == p[..0] + v + p[0 + |p|..];
  }

  /** A user called S. */
  lemma {:induction false} UserNamedS()
    ensures Expand("@U@USER@ER@", LINE_SIZE, "@USER@", "S") == "S"
    ensures ReplaceAll("@U@USER@ER@", "@USER@", "S") == "@USER@"
  {
    UserLine();
    SpliceAlone("@USER@", "S");
    OneRound("@U@USER@ER@", LINE_SIZE, "@USER@", "S");
    OneRound("@USER@", LINE_SIZE, "@USER@", "S");
    assert Find("S", "@USER@") < 0;
  }

  // A line of the template

  /** An occurrence of `q` after a `p` with the same mark was spliced out: it was there, or the value joins it. */
  lemma {:induction false} AfterSplice(a: string, c: string, p: string, q: string, v: string, k: nat)
    requires Delimited(p) && Delimited(q) && p[0] == q[0] && At(a + v + c, q, k)
    ensures Find(a + p + c, q) >= 0 || Joins(q, v)
  {
    assert a + v + c == a + (v + c) && a + p + c == a + (p + c);
    if k + |q| <= |a| {
      Within(a, v + c, q, k);
      Within(a, p + c, q, k);
    } else if k < |a| {
      StartsBefore(a, v, c, q, k);
      if At(q, v, |a| - k) {
        assert Find(q, v) >= 0;
      } else if |a| - k == |q| - 1 {
        AllButLast(a + v + c, q, k);
        assert (a + v + c)[k..|a|] == a[k..] == (a + p + c)[k..|a|];
        assert (a + p + c)[|a|] == p[0];
        SameMark(a + p + c, q, k);
      }
    } else if k < |a| + |v| {
      Shift(a, v + c, q, k - |a|);
      StartsInside(v, c, q, k - |a|);
    } else {
      Shift(a + v, c, q, k - |a| - |v|);
      Shift(a + p, c, q, k - |a| - |v|);
    }
  }

  /** Splicing in a value makes no placeholder `q` that was not there, if it does not join `q`. */
  lemma {:induction false} SpliceMakesNone(a: string, c: string, p: string, q: string, v: string)
    requires Delimited(p) && Quiet(q, v) && p[0] == q[0] && Find(a + p + c, q) < 0
    ensures Find(a + v + c, q) < 0
  {
    var k := Find(a + v + c, q);
    if k >= 0 { AfterSplice(a, c, p, q, v, k); }
  }

  /** A line without `q` gets none by replacing `p`s with a value that does not join `q`. */
  lemma {:induction false} ExpandMakesNone(s: string, cap: nat, p: string, q: string, v: string)
    requires |s| < cap && Delimited(p) && Quiet(q, v) && p[0] == q[0] && Find(s, q) < 0
    ensures Find(Expand(s, cap, p, v), q) < 0
    decreases Measure(s, cap, p, v)
  {
    if p != v && Replaces(s, cap, p, v) {
      var i := Find(s, p);
      assert s == s[..i] + p + s[i + |p|..];
      SpliceMakesNone(s[..i], s[i + |p|..], p, q, v);
      MeasureFalls(s, cap, p, v);
      ExpandMakesNone(Splice(s, p, v), cap, p, q, v);
    }
  }

  /** A quiet value replaces every placeholder, if the result fits. */
  lemma {:induction false} NoneLeft(s: string, cap: nat, p: string, v: string)
    requires Quiet(p, v) && |s| < cap && |ReplaceAll(s, p, v)| < cap
    ensures Expand(s, cap, p, v) == ReplaceAll(s, p, v) && Find(ReplaceAll(s, p, v), p) < 0
  {
    ExpandIsReplaceAll(s, cap, p, v);
    var room := cap + |v|;
    ExpandIsReplaceAll(s, room, p, v);
  }

  /** What goes into a line: the values for the four placeholders. */
  datatype Values = Values(socketPath: string, stateDir: string, user: string, group: string)

  const MARKS: seq<string> := ["@SOCKET_PATH@", "@STATE_DIR@", "@USER@", "@GROUP@"]

  function Value(w: Values, i: nat): string
    requires i < 4
  {
    if i == 0 then w.socketPath else if i == 1 then w.stateDir else if i == 2 then w.user else w.group
  }

  /** The line after the first `n` loops. */
  function After(line: string, w: Values, n: nat): (r: string)
    requires |line| < LINE_SIZE && n <= 4
    ensures |r| < LINE_SIZE
  {
    if n == 0 then line else Expand(After(line, w, n - 1), LINE_SIZE, MARKS[n - 1], Value(w, n - 1))
  }

  /** The line after replacing all of the first `n` placeholders. */
  function Replaced(line: string, w: Values, n: nat): string
    requires n <= 4
  {
    if n == 0 then line else ReplaceAll(Replaced(line, w, n - 1), MARKS[n - 1], Value(w, n - 1))
  }

  /** None of the values joins any of the placeholders. */
  ghost predicate AllQuiet(w: Values)
  {
    forall i, j :: 0 <= i < 4 && 0 <= j < 4 ==> Quiet(MARKS[j], Value(w, i))
  }

  /** Each of the replacements fits the line's buffer. */
  ghost predicate AllFit(line: string, w: Values)
  {
    forall n :: 0 <= n <= 4 ==> |Replaced(line, w, n)| < LINE_SIZE
  }

  lemma MarksAlike(i: nat)
    requires i < 4
    ensures Delimited(MARKS[i]) && MARKS[i][0] == '@'
  {
    var p := MARKS[i];
    assert forall k :: 1 <= k < |p| - 1 ==> p[k] != '@';
  }

  /** One of the loops brings no other placeholder into the line. */
  lemma {:induction false} KeepsClear(s: string, v: string, i: nat, j: nat)
    requires i < 4 && j < 4 && |s| < LINE_SIZE && Quiet(MARKS[j], v) && Find(s, MARKS[j]) < 0
    ensures Find(Expand(s, LINE_SIZE, MARKS[i], v), MARKS[j]) < 0
  {
    MarksAlike(i);
    MarksAlike(j);
    ExpandMakesNone(s, LINE_SIZE, MARKS[i], MARKS[j], v);
  }

  ghost predicate NoneOf(s: string, n: nat)
    requires n <= 4
  {
    forall j :: 0 <= j < n ==> Find(s, MARKS[j]) < 0
  }

  lemma {:induction false} ClearsNext(s: string, v: string, n: nat)
    requires n < 4 && |s| < LINE_SIZE && NoneOf(s, n) && (forall j :: 0 <= j < 4 ==> Quiet(MARKS[j], v))
    requires |ReplaceAll(s, MARKS[n], v)| < LINE_SIZE
    ensures Expand(s, LINE_SIZE, MARKS[n], v) == ReplaceAll(s, MARKS[n], v)
    ensures NoneOf(Expand(s, LINE_SIZE, MARKS[n], v), n + 1)
  {
    NoneLeft(s, LINE_SIZE, MARKS[n], v);
    forall j | 0 <= j < n ensures Find(Expand(s, LINE_SIZE, MARKS[n], v), MARKS[j]) < 0 { KeepsClear(s, v, n, j); }
  }

  lemma {:induction false} ReplacedSoFar(line: string, w: Values, n: nat)
    requires AllQuiet(w) && AllFit(line, w) && |line| < LINE_SIZE && n <= 4
    ensures After(line, w, n) == Replaced(line, w, n) && NoneOf(After(line, w, n), n)
  {
    if n > 0 {
      ReplacedSoFar(line, w, n - 1);
      assert |Replaced(line, w, n)| < LINE_SIZE;
      ClearsNext(After(line, w, n - 1), Value(w, n - 1), n - 1);
    }
  }

  /** A line with quiet values that fits is the template's with all placeholders replaced, and none is left. */
  lemma LineIsComplete(line: string, w: Values)
    requires AllQuiet(w) && AllFit(line, w) && |line| < LINE_SIZE
    ensures After(line, w, 4) == Replaced(line, w, 4)
    ensures NoneOf(After(line, w, 4), 4)
  {
    ReplacedSoFar(line, w, 4);
  }

  /** Which placeholder stands for what: the four replacements of such a line, in order. */
  lemma {:induction false} LineReplaces(line: string, w: Values)
    requires AllQuiet(w) && AllFit(line, w) && |line| < LINE_SIZE
    ensures var withPath := ReplaceAll(line, "@SOCKET_PATH@", w.socketPath);
      var withDir := ReplaceAll(withPath, "@STATE_DIR@", w.stateDir);
      var withUser := ReplaceAll(withDir, "@USER@", w.user);
      After(line, w, 4) == ReplaceAll(withUser, "@GROUP@", w.group)
  {
    LineIsComplete(line, w);
    assert Replaced(line, w, 1) == ReplaceAll(line, "@SOCKET_PATH@", w.socketPath);
    assert Replaced(line, w, 2) == ReplaceAll(Replaced(line, w, 1), "@STATE_DIR@", w.stateDir);
    assert Replaced(line, w, 3) == ReplaceAll(Replaced(line, w, 2), "@USER@", w.user);
    assert Replaced(line, w, 4) == ReplaceAll(Replaced(line, w, 3), "@GROUP@", w.group);
  }

  /** A user of a domain is no trouble. */
  lemma {:induction false} DomainUser()
    ensures forall j :: 0 <= j < 4 ==> Quiet(MARKS[j], "alice@corp.example")
  {
    forall j | 0 <= j < 4 ensures Quiet(MARKS[j], "alice@corp.example") {
      MarksAlike(j);
      OneMarkIsQuiet(MARKS[j], "alice@corp.example", 5);
    }
  }

  /** Each of the four loops ends. */
  ghost predicate AllHalt(line: string, w: Values)
    requires |line| < LINE_SIZE
  {
    forall n :: 0 <= n < 4 ==> Halts(After(line, w, n), LINE_SIZE, MARKS[n], Value(w, n))
  }

  /** The four loops of `generate_config` over one line of the template. */
  method ExpandLine(line: string, w: Values) returns (out: string)
    requires |line| < LINE_SIZE && NUL !in line
    requires forall i :: 0 <= i < 4 ==> NUL !in Value(w, i)
    requires AllHalt(line, w)
    ensures out == After(line, w, 4)
    ensures var withPath := Expand(line, 1024, "@SOCKET_PATH@", w.socketPath);
      var withDir := Expand(withPath, 1024, "@STATE_DIR@", w.stateDir);
      var withUser := Expand(withDir, 1024, "@USER@", w.user);
      out == Expand(withUser, 1024, "@GROUP@", w.group)
  {
    var expanded := new char[LINE_SIZE](_ => NUL);
    forall k | 0 <= k < |line| {
      expanded[k] := line[k];
    }
    assert Holds(expanded[..], line);
    ExpandAll(expanded, "@SOCKET_PATH@", w.socketPath, After(line, w, 0));
    ExpandAll(expanded, "@STATE_DIR@", w.stateDir, After(line, w, 1));
    ExpandAll(expanded, "@USER@", w.user, After(line, w, 2));
    ExpandAll(expanded, "@GROUP@", w.group, After(line, w, 3));
    CStrOf(expanded[..], After(line, w, 4));
    out := CStr(expanded[..]);
  }
}
