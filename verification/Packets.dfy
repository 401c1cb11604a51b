/**
 The request packets the engine puts on the channel, and how a client reads them:
 MS-RDPEFS sections 2.2.1.4.1 (CREATE), 2.2.1.4.2 (CLOSE) and 2.2.1.4.4 (WRITE).
 */
module Packets {
  import opened Octets
  import opened Wrappers
  import opened SendSpec

  const GENERIC_WRITE: u32 := 0x4000_0000  // DA_GENERIC_WRITE
  const FILE_OPEN: u32 := 1                // CD_FILE_OPEN

  /** What the DeviceIoRequest header says (its bytes are written by xrdp), and the body behind it. */
  datatype Packet = Packet(kind: Kind, device: u32, file: u32, completion: nat, body: seq<byte>)

  function Word(b: seq<byte>, i: nat): u32
    requires 4 * i + 4 <= |b|
  {
    ReadLe32(b[4 * i..4 * i + 4])
  }

  /**
   Generic write access, an existing file, and nothing else: no allocation, attributes, sharing or
   options, and an empty path.
   */
  predicate PlainCreate(b: seq<byte>)
    requires |b| == 32
  {
    && Word(b, 0) == GENERIC_WRITE && Word(b, 5) == FILE_OPEN
    && Word(b, 1) == 0 && Word(b, 2) == 0 && Word(b, 3) == 0 && Word(b, 4) == 0 && Word(b, 6) == 0 && Word(b, 7) == 0
  }

  /** The client's reading; a packet it cannot make sense of is `None`. Padding may hold anything. */
  function ReadPacket(p: Packet): Option<Request>
  {
    if |p.body| < 32 then None
    else
      match p.kind
      case CreateKind =>
        if |p.body| == 32 && p.file == 0 && PlainCreate(p.body)
        then Some(CreateReq(p.device)) else None
      case WriteKind =>
        if Word(p.body, 2) == 0 && |p.body| == 32 + Word(p.body, 0)
        then Some(WriteReq(p.device, p.file, Word(p.body, 1), p.body[32..])) else None
      case CloseKind => if |p.body| == 32 then Some(CloseReq(p.device, p.file)) else None
  }

  /** A word is read back from where it was written. */
  lemma {:induction false} WordAt(before: seq<byte>, n: u32, after: seq<byte>, i: nat)
    requires |before| == 4 * i
    ensures |before + Le32(n) + after| >= 4 * i + 4 && Word(before + Le32(n) + after, i) == n
  {
    assert (before + Le32(n) + after)[4 * i..4 * i + 4] == Le32(n) + [];
    Le32RoundTrip(n, []);
  }

  /** The bytes of a stream that were skipped and not written. */
  method Skipped(n: nat) returns (pad: seq<byte>)
    ensures |pad| == n
  {
    pad := seq(n, _ => 0);
  }

  /** The places of eight words in a row. */
  lemma {:induction false} EightPlaces(w: seq<seq<byte>>)
    requires |w| == 8 && forall x :: x in w ==> |x| == 4
    ensures var s := w[0] + w[1] + w[2] + w[3] + w[4] + w[5] + w[6] + w[7];
      && |s| == 32 && s[0..4] == w[0] && s[4..8] == w[1] && s[8..12] == w[2] && s[12..16] == w[3]
      && s[16..20] == w[4] && s[20..24] == w[5] && s[24..28] == w[6] && s[28..32] == w[7]
  {
  }

  lemma WordRead(n: u32)
    ensures ReadLe32(Le32(n)) == n
  {
    Le32RoundTrip(n, []);
    assert Le32(n) + [] == Le32(n);
  }

  /** The eight words of a CREATE. */
  method CreateBody() returns (s: seq<byte>)
    ensures forall device: u32, id: nat :: ReadPacket(Packet(CreateKind, device, 0, id, s)) == Some(CreateReq(device))
    ensures |s| == 32 && Word(s, 0) == 0x4000_0000 && Word(s, 5) == 1
    ensures Word(s, 1) == 0 && Word(s, 2) == 0 && Word(s, 3) == 0 && Word(s, 4) == 0 && Word(s, 6) == 0 && Word(s, 7) == 0
  {
    s := Le32(GENERIC_WRITE);
    s := s + Le32(0) + Le32(0) + Le32(0) + Le32(0);
    s := s + Le32(FILE_OPEN);
    s := s + Le32(0);
    s := s + Le32(0);
    EightPlaces([Le32(GENERIC_WRITE), Le32(0), Le32(0), Le32(0), Le32(0), Le32(FILE_OPEN), Le32(0), Le32(0)]);
    WordRead(GENERIC_WRITE);
    WordRead(FILE_OPEN);
    WordRead(0);
  }

  /** Length, 64-bit offset, padding and data of a WRITE. */
  method WriteBody(data: Buffer, offset: u32, chunk: u32) returns (s: seq<byte>)
    requires offset + chunk <= |data|
    ensures forall device: u32, file: u32, id: nat ::
      ReadPacket(Packet(WriteKind, device, file, id, s)) == Some(WriteReq(device, file, offset, data[offset..offset + chunk]))
    ensures |s| == 32 + chunk && Word(s, 0) == chunk && Word(s, 1) == offset && Word(s, 2) == 0
    ensures s[32..] == data[offset..offset + chunk]
  {
    s := Le32(chunk);
    s := s + Le32(offset) + Le32(0);
    ghost var front := s;
    var pad := Skipped(20);
    s := s + pad;
    s := s + data[offset..offset + chunk];
    var rest := pad + data[offset..offset + chunk];
    assert s == [] + Le32(chunk) + (Le32(offset) + Le32(0) + rest);
    WordAt([], chunk, Le32(offset) + Le32(0) + rest, 0);
    assert s == Le32(chunk) + Le32(offset) + (Le32(0) + rest);
    WordAt(Le32(chunk), offset, Le32(0) + rest, 1);
    assert s == (Le32(chunk) + Le32(offset)) + Le32(0) + rest;
    WordAt(Le32(chunk) + Le32(offset), 0, rest, 2);
    assert s[32..] == data[offset..offset + chunk];
  }

  /** The padding of a CLOSE. */
  method CloseBody() returns (s: seq<byte>)
    ensures forall device: u32, file: u32, id: nat :: ReadPacket(Packet(CloseKind, device, file, id, s)) == Some(CloseReq(device, file))
    ensures |s| == 32
  {
    s := Skipped(32);
  }

  /** Read by a client, the packets are the requests of the history, in order and under their ids. */
  ghost predicate Carries(channel: seq<Packet>, log: seq<Effect>)
    decreases |log|
  {
    if log == [] then channel == []
    else
      var e, before := log[|log| - 1], log[..|log| - 1];
      if !e.Sent? then Carries(channel, before)
      else
        && channel != []
        && (var p := channel[|channel| - 1]; p.completion == e.id && ReadPacket(p) == Some(e.req))
        && Carries(channel[..|channel| - 1], before)
  }

  lemma {:induction false} CarriesQuiet(channel: seq<Packet>, log: seq<Effect>, e: Effect)
    requires Carries(channel, log) && !e.Sent?
    ensures Carries(channel, log + [e])
  {
    assert (log + [e])[..|log|] == log;
  }

  lemma {:induction false} CarriesSent(channel: seq<Packet>, log: seq<Effect>, p: Packet, job: nat, req: Request)
    requires Carries(channel, log) && ReadPacket(p) == Some(req)
    ensures Carries(channel + [p], log + [Sent(job, p.completion, req)])
  {
    var e := Sent(job, p.completion, req);
    assert (log + [e])[..|log|] == log && (channel + [p])[..|channel|] == channel;
  }
}
