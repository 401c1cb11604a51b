/**
 Names of print queues, and the sweep that recognises a session's own names in the listing
 of all queues.
 */
module QueueNames {
  import opened Numerals
  import opened Wrappers
  import O = Octets
  import P = Placeholder
  import U = DeviceUri

  const NAME_SIZE: nat := 256

  /** The front of every queue name of a session; without a session id for a private cupsd. */
  function Prefix(session: int): string
  {
    if session > 0 then "xrdp_" + PrintInt(session) + "_" else "xrdp_"
  }

  /** `isalnum` in the C locale, and the hyphen. */
  predicate Kept(c: char)
  {
    '0' <= c <= '9' || 'a' <= c <= 'z' || 'A' <= c <= 'Z' || c == '-'
  }

  function Clean(name: string): (r: string)
    ensures |r| == |name| && forall i :: 0 <= i < |r| ==> r[i] == if Kept(name[i]) then name[i] else '_'
  {
    if name == [] then [] else [if Kept(name[0]) then name[0] else '_'] + Clean(name[1..])
  }

  /** The part of a queue name after its prefix. */
  function Base(name: string): string
  {
    if name == [] then "printer" else Clean(name)
  }

  function QueueName(name: string, session: int): string
  {
    Prefix(session) + Base(name)
  }

  /** The loop of `printer_sanitize_name`: the cleaned name, from position `n` of the buffer. */
  method PutClean(buf: array<char>, n: nat, name: string)
    requires n + |name| <= buf.Length
    modifies buf
    ensures forall k :: 0 <= k < n ==> buf[k] == old(buf[k])
    ensures forall k :: 0 <= k < |name| ==> buf[n + k] == if Kept(name[k]) then name[k] else '_'
    ensures forall k :: n + |name| <= k < buf.Length ==> buf[k] == old(buf[k])
  {
    var i := 0;
    while i < |name|
      invariant 0 <= i <= |name|
      invariant forall k :: 0 <= k < n ==> buf[k] == old(buf[k])
      invariant forall k :: 0 <= k < i ==> buf[n + k] == if Kept(name[k]) then name[k] else '_'
      invariant forall k :: n + |name| <= k < buf.Length ==> buf[k] == old(buf[k])
    {
      var c := name[i];
      buf[n + i] := if Kept(c) then c else '_';
      i := i + 1;
    }
  }

  lemma {:induction false} AssembledName(buf: seq<char>, prefix: string, name: string)
    requires |buf| == |prefix| + |name| + 1 && buf[|prefix| + |name|] == '\0'
    requires forall k :: 0 <= k < |prefix| ==> buf[k] == prefix[k]
    requires forall k :: 0 <= k < |name| ==> buf[|prefix| + k] == if Kept(name[k]) then name[k] else '_'
    ensures buf == prefix + Clean(name) + ['\0']
  {
  }

  /** `printer_sanitize_name`; an absent name is treated as an empty one, and without memory there is no result. */
  method SanitizeName(name: string, session: int, memory: bool) returns (result: array?<char>)
    ensures result == null <==> !memory
    ensures memory ==> result[..] == QueueName(name, session) + ['\0']
    ensures memory ==>
              var prefix := if session > 0 then "xrdp_" + PrintInt(session) + "_" else "xrdp_";
              if name == [] then result[..] == prefix + "printer" + ['\0']
              else
                && result.Length == |prefix| + |name| + 1 && result[..|prefix|] == prefix && result[|prefix| + |name|] == '\0'
                && forall k :: 0 <= k < |name| ==>
                     var c := name[k];
                     result[|prefix| + k] == if '0' <= c <= '9' || 'a' <= c <= 'z' || 'A' <= c <= 'Z' || c == '-' then c else '_'
  {
    if !memory { return null; }
    var prefix := Prefix(session);
    if name == [] {
      var text := prefix + "printer" + ['\0'];
      result := new char[|text|](i requires 0 <= i < |text| => text[i]);
      assert result[..] == text;
      return;
    }
    var n := |prefix|;
    var buf := new char[n + |name| + 1](i requires 0 <= i < n + |name| + 1 => if i < n then prefix[i] else '\0');
    PutClean(buf, n, name);
    AssembledName(buf[..], prefix, name);
    return buf;
  }

  lemma {:induction false} PrefixChars(session: int)
    requires session > 0
    ensures forall c :: c in PrintInt(session) ==> '0' <= c <= '9'
  {
    PrintIsDigits(session, 10);
  }

  /** No queue name holds a colon, nor anything else that could end it early. */
  lemma {:induction false} NameChars(name: string, session: int)
    ensures forall c :: c in QueueName(name, session) ==> Kept(c) || c == '_'
  {
    if session > 0 { PrefixChars(session); }
  }

  /** Decimal numbers ended by an underscore: one begins another only if they are the same. */
  lemma {:induction false} NumberPrefix(s: int, t: int, rest: string)
    requires s > 0 && t > 0
    ensures PrintInt(s) + "_" <= PrintInt(t) + "_" + rest <==> s == t
  {
    var a, b, u := PrintInt(s), PrintInt(t), "_";
    O.Assoc(b, u, rest);
    AtoiOfPrintInt(t, u + rest);
    if a + u <= b + u + rest {
      var tail := (b + u + rest)[|a + u|..];
      assert b + u + rest == a + u + tail;
      O.Assoc(a, u, tail);
      AtoiOfPrintInt(s, u + tail);
    }
  }

  /** The sweep of session `s` claims a name given for `t`. */
  predicate Claims(s: int, t: int, name: string)
  {
    s <= 0 || if t > 0 then s == t else PrintInt(s) + "_" <= Base(name)
  }

  /**
   Which names carry a session's prefix: all of them if the prefix holds no number, those given
   for the same number, and those without a number that begin with one of their own accord.
   */
  lemma {:induction false} PrefixClaims(name: string, s: int, t: int)
    ensures Prefix(s) <= QueueName(name, t) <==> Claims(s, t, name)
  {
    var h, u, rest := "xrdp_", "_", Base(name);
    if s > 0 {
      var a := PrintInt(s);
      O.Assoc(h, a, u);
      if t > 0 {
        var b := PrintInt(t);
        NumberPrefix(s, t, rest);
        O.Assoc4(h, b, u, rest);
        assert Prefix(s) == h + (a + u) && QueueName(name, t) == h + b + u + rest;
        PrefixCancels(h, a + u, b + u + rest);
      } else {
        PrefixCancels(h, a + u, rest);
      }
    } else if t > 0 {
      O.Assoc4(h, PrintInt(t), u, rest);
    }
  }

  lemma PrefixCancels(h: string, x: string, y: string)
    ensures h + x <= h + y <==> x <= y
  {
    assert (h + x)[|h|..] == x && (h + y)[|h|..] == y;
    if h + x <= h + y { assert (h + y)[..|h + x|][|h|..] == x; }
  }

  // The sweep

  const MARK: string := "device for "

  /** The queue name of one line of the listing: between "device for " and the next colon. */
  function NameIn(line: string): Option<string>
  {
    var start := P.Find(line, MARK);
    if start < 0 then None
    else
      var rest := line[start + |MARK|..];
      var end := U.IndexOf(rest, ':');
      if end < 0 || end >= NAME_SIZE then None else Some(rest[..end])
  }

  /** The names the sweep of `session` removes, in the order of the listing. */
  function Swept(session: int, lines: seq<string>): seq<string>
  {
    if lines == [] then []
    else
      var name := NameIn(lines[|lines| - 1]);
      Swept(session, lines[..|lines| - 1]) +
      (if name.Some? && Prefix(session) <= name.value then [name.value] else [])
  }

  /** `printer_cups_cleanup_stale_queues`; `removed` are the calls of the removal. */
  method CleanupStaleQueues(session: int, lines: seq<string>) returns (removed: seq<string>)
    ensures removed == Swept(session, lines)
  {
    var prefix := Prefix(session);
    removed := [];
    var i := 0;
    while i < |lines|
      invariant 0 <= i <= |lines|
      invariant removed == Swept(session, lines[..i])
    {
      var line := lines[i];
      assert lines[..i + 1][..i] == lines[..i];
      i := i + 1;
      var start := P.Find(line, MARK);
      if start < 0 { continue; }
      var rest := line[start + |MARK|..];
      var nameLen := U.IndexOf(rest, ':');
      if nameLen < 0 { continue; }
      if nameLen >= NAME_SIZE { continue; }
      var queueName := rest[..nameLen];
      if prefix <= queueName {
        removed := removed + [queueName];
      }
    }
    assert lines[..i] == lines;
  }

  /** One line of the listing, as far as `fgets` hands it over. */
  function Line(name: string, uri: string): string
  {
    MARK + name + ": " + uri
  }

  /** A name without colon is read back exactly if it is short enough, and else not at all. */
  lemma {:induction false} NameRecovered(front: string, name: string, rest: string)
    requires ':' !in name && P.Find(front + "device for ", "device for ") == |front|
    ensures NameIn(front + "device for " + name + ":" + rest) == if |name| < 256 then Some(name) else None
  {
    var line := front + "device for " + name + ":" + rest;
    var tail := name + [':'] + rest;
    assert line == front + MARK + tail;
    MarkAt(front, tail);
    assert line[|front| + |MARK|..] == tail;
    U.FirstIndex(name, ':', rest);
    assert tail[..|name|] == name;
  }

  lemma {:induction false} MarkAt(front: string, tail: string)
    requires P.Find(front + MARK, MARK) == |front|
    ensures P.Find(front + MARK + tail, MARK) == |front|
  {
    var s, line := front + MARK, front + MARK + tail;
    forall k: nat | k <= |front| ensures P.At(line, MARK, k) <==> P.At(s, MARK, k) {
      assert line[k..k + |MARK|] == s[k..k + |MARK|];
    }
    assert P.At(line, MARK, |front|);
  }

  /** What is taken for a name stands in the line between "device for " and a colon, and is short enough. */
  lemma {:induction false} NameIsThere(line: string)
    requires NameIn(line).Some?
    ensures var name := NameIn(line).value;
      |name| < 256 && ':' !in name && exists i: nat :: P.At(line, "device for " + name + ":", i)
  {
    var i, name := P.Find(line, MARK), NameIn(line).value;
    var k := i + |MARK|;
    var rest := line[k..];
    var end := U.IndexOf(rest, ':');
    assert name == rest[..end] && rest[end] == ':';
    assert line[i..k + |name| + 1] == line[i..k] + line[k..][..|name|] + [line[k + |name|]];
    assert P.At(line, MARK + name + ":", i);
  }

  datatype Queue = Queue(name: string, session: int, uri: string)

  function Listing(queues: seq<Queue>): seq<string>
  {
    if queues == [] then []
    else
      var q := queues[|queues| - 1];
      Listing(queues[..|queues| - 1]) + [Line(QueueName(q.name, q.session), q.uri)]
  }

  /** A queue the sweep of `session` removes: claimed by its name, which fits the buffer. */
  predicate Taken(session: int, q: Queue)
  {
    Claims(session, q.session, q.name) && |QueueName(q.name, q.session)| < NAME_SIZE
  }

  /** The names of the queues the sweep removes, in the order of the listing. */
  function TakenNames(session: int, queues: seq<Queue>): seq<string>
  {
    if queues == [] then []
    else
      var q := queues[|queues| - 1];
      TakenNames(session, queues[..|queues| - 1]) + (if Taken(session, q) then [QueueName(q.name, q.session)] else [])
  }

  /** The names of the session's own queues that fit. */
  function OwnNames(session: int, queues: seq<Queue>): seq<string>
  {
    if queues == [] then []
    else
      var q := queues[|queues| - 1];
      OwnNames(session, queues[..|queues| - 1]) +
      (if q.session == session && Taken(session, q) then [QueueName(q.name, q.session)] else [])
  }

  lemma {:induction false} LineRead(name: string, uri: string)
    requires ':' !in name
    ensures NameIn(Line(name, uri)) == if |name| < 256 then Some(name) else None
  {
    assert P.At(MARK, MARK, 0);
    assert "" + MARK == MARK && P.Find(MARK, MARK) == 0;
    NameRecovered("", name, " " + uri);
    assert Line(name, uri) == "" + "device for " + name + ":" + (" " + uri);
  }

  /** What the sweep makes of one queue's line. */
  lemma {:induction false} LineTaken(session: int, q: Queue)
    ensures var name, found := QueueName(q.name, q.session), NameIn(Line(QueueName(q.name, q.session), q.uri));
      (found.Some? && Prefix(session) <= found.value <==> Taken(session, q)) && (found.Some? ==> found.value == name)
  {
    var name := QueueName(q.name, q.session);
    NameChars(q.name, q.session);
    assert ':' !in name;
    LineRead(name, q.uri);
    PrefixClaims(q.name, session, q.session);
  }

  /** Whatever sessions and modes the queues come from, the sweep removes exactly those it claims. */
  lemma {:induction false} SweepTakes(session: int, queues: seq<Queue>)
    ensures Swept(session, Listing(queues)) == TakenNames(session, queues)
  {
    if queues != [] {
      var q, before := queues[|queues| - 1], queues[..|queues| - 1];
      SweepTakes(session, before);
      LineTaken(session, q);
      var lines := Listing(queues);
      assert lines[..|lines| - 1] == Listing(before) && lines[|lines| - 1] == Line(QueueName(q.name, q.session), q.uri);
    }
  }

  predicate Spares(session: int, q: Queue)
  {
    Taken(session, q) ==> q.session == session
  }

  ghost predicate SparesAll(session: int, queues: seq<Queue>)
  {
    forall i :: 0 <= i < |queues| ==> Spares(session, queues[i])
  }

  lemma {:induction false} SparesSnoc(session: int, before: seq<Queue>, q: Queue)
    ensures SparesAll(session, before + [q]) <==> SparesAll(session, before) && Spares(session, q)
  {
    var queues := before + [q];
    if SparesAll(session, queues) {
      assert Spares(session, queues[|before|]);
      forall i | 0 <= i < |before| ensures Spares(session, before[i]) { assert Spares(session, queues[i]); }
    }
  }

  lemma {:induction false} OwnAreSome(session: int, queues: seq<Queue>)
    ensures |OwnNames(session, queues)| <= |TakenNames(session, queues)|
    ensures SparesAll(session, queues) <==> |OwnNames(session, queues)| == |TakenNames(session, queues)|
    ensures SparesAll(session, queues) ==> OwnNames(session, queues) == TakenNames(session, queues)
  {
    if queues != [] {
      var q, before := queues[|queues| - 1], queues[..|queues| - 1];
      assert queues == before + [q];
      OwnAreSome(session, before);
      SparesSnoc(session, before, q);
    }
  }

  /** The sweep removes its own session's queues and nothing else exactly if it claims no other's. */
  lemma {:induction false} SweepIsExact(session: int, queues: seq<Queue>)
    ensures Swept(session, Listing(queues)) == OwnNames(session, queues) <==> SparesAll(session, queues)
  {
    SweepTakes(session, queues);
    OwnAreSome(session, queues);
  }

  /** Among queues of numbered sessions only, the sweep of a number is exact. */
  lemma {:induction false} NumberedSweep(session: int, queues: seq<Queue>)
    requires session > 0
    requires forall q :: q in queues ==> q.session > 0
    ensures Swept(session, Listing(queues)) == OwnNames(session, queues)
  {
    SweepIsExact(session, queues);
  }

  /** The sweep without a number is exact only if every numbered session's queue has a name too long for it. */
  lemma {:induction false} NumberlessSweep(queues: seq<Queue>)
    ensures Swept(0, Listing(queues)) == OwnNames(0, queues) <==>
      forall q :: q in queues && q.session != 0 ==> |QueueName(q.name, q.session)| >= 256
  {
    SweepIsExact(0, queues);
    forall q ensures Spares(0, q) <==> (q.session != 0 ==> |QueueName(q.name, q.session)| >= NAME_SIZE) {}
    if SparesAll(0, queues) {
      forall q | q in queues ensures Spares(0, q) {
        var i :| 0 <= i < |queues| && queues[i] == q;
        assert Spares(0, queues[i]);
      }
    }
  }

  /** Session 10's queue is lost when a session with a private cupsd sweeps the system's. */
  lemma FallbackTakesNumbered(uri: string)
    ensures Swept(0, Listing([Queue("HP", 10, uri)])) == ["xrdp_10_HP"]
    ensures OwnNames(0, [Queue("HP", 10, uri)]) == []
  {
    var queues := [Queue("HP", 10, uri)];
    SweepTakes(0, queues);
    assert queues[..0] == [] && Clean("HP") == "HP" && PrintInt(10) == "10";
    assert QueueName("HP", 10) == "xrdp_10_HP";
  }
}
