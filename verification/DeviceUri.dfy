/** The device URI of a queue: written by the queue's creator, read by the backend. */
module DeviceUri {
  import opened Octets
  import opened Numerals
  import opened Wrappers

  const SCHEME: string := "xrdp-printer://"

  /** The text put after `-v` when the queue is created. */
  function Format(session: int, device: u32): string
  {
    SCHEME + PrintInt(session) + "/" + Print(device, 16)
  }

  /** `strchr`, as an index or -1. */
  function IndexOf(s: string, c: char): (r: int)
    ensures -1 <= r < |s|
    ensures r >= 0 ==> s[r] == c && c !in s[..r]
    ensures r < 0 ==> c !in s
  {
    if s == [] then -1
    else if s[0] == c then 0
    else var r := IndexOf(s[1..], c); if r < 0 then -1 else r + 1
  }

  lemma {:induction false} FirstIndex(a: string, c: char, b: string)
    requires c !in a
    ensures IndexOf(a + [c] + b, c) == |a|
  {
    if a != [] {
      assert (a + [c] + b)[1..] == a[1..] + [c] + b;
      FirstIndex(a[1..], c, b);
    }
  }

  /** What a device URI says; the form without a device id is the legacy one, which is refused. */
  datatype Target = NotOurs | NoDevice(session: int) | Target(session: int, device: u32)

  function Read(env: Option<string>): Target
  {
    if env.None? || !(SCHEME <= env.value) then NotOurs
    else
      var p := env.value[|SCHEME|..];
      if '/' !in p then NoDevice(Atoi(p))
      else Target(Atoi(p), Strtoul16(p[IndexOf(p, '/') + 1..]))
  }

  /** `parse_device_uri`, with the out-parameters as they were before and as they are left. */
  method ParseDeviceUri(env: Option<string>, session0: int, device0: u32) returns (rc: int, session: int, device: u32)
    ensures rc == if Read(env).Target? then 0 else -1
    ensures match Read(env)
      case NotOurs => session == session0 && device == device0
      case NoDevice(s) => session == s && device == 0
      case Target(s, d) => session == s && device == d
    ensures env.None? || !("xrdp-printer://" <= env.value) ==> rc == -1 && session == session0 && device == device0
    ensures env.Some? && "xrdp-printer://" <= env.value ==>
              var p := env.value[15..];
              && session == Atoi(p)
              && (if '/' in p then rc == 0 && device == Strtoul16(p[IndexOf(p, '/') + 1..]) else rc == -1 && device == 0)
  {
    rc, session, device := -1, session0, device0;
    if env.None? { return; }
    var uri := env.value;
    if !(SCHEME <= uri) { return; }
    var p := uri[|SCHEME|..];
    var slash := IndexOf(p, '/');
    if slash < 0 {
      session, device := Atoi(p), 0;
      return;
    }
    session := Atoi(p);
    device := Strtoul16(p[slash + 1..]);
    rc := 0;
  }

  lemma {:induction false} NoSlash(n: int)
    ensures '/' !in PrintInt(n)
  {
    PrintIsDigits(if n < 0 then -n else n, 10);
  }

  /** Session 10, device 0xff. */
  lemma {:induction false} UriSample()
    ensures Format(10, 255) == "xrdp-printer://10/ff"
  {
    assert Print(10, 10) == "10" && Print(255, 16) == "ff";
  }

  /** The parts of a URI that has both. */
  lemma {:induction false} ReadParts(s: string, d: string)
    requires '/' !in s
    ensures Read(Some(SCHEME + (s + ['/'] + d))) == Target(Atoi(s + ['/'] + d), Strtoul16(d))
  {
    var p := s + ['/'] + d;
    assert (SCHEME + p)[|SCHEME|..] == p;
    FirstIndex(s, '/', d);
    assert p[|s|] == '/' && p[|s| + 1..] == d;
  }

  /** For every session and every device id the backend reads back what was written. */
  lemma {:induction false} UriRoundTrip(session: int, device: u32)
    ensures Read(Some(Format(session, device))) == Target(session, device)
  {
    var s, d := PrintInt(session), Print(device, 16);
    NoSlash(session);
    ReadParts(s, d);
    Assoc4(SCHEME, s, ['/'], d);
    Assoc(s, ['/'], d);
    AtoiOfPrintInt(session, ['/'] + d);
    StrtoulOfPrint(device);
  }
}
