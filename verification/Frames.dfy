/**
 The frames of the backend socket: a 16-byte header and, after a DATA header, its payload.
 `Decode` is the reference reading of a byte stream, independent of how it was cut up.
 */
module Frames {
  import opened Octets

  const JOB_START: u32 := 1
  const JOB_DATA: u32 := 2
  const JOB_END: u32 := 3
  const JOB_ACK: u32 := 4

  /** `struct msg_header` */
  datatype Header = Header(kind: u32, device: u32, len: u32, job: u32)

  /** A message as the receiver reads it: only a DATA header is followed by a payload. */
  datatype Msg =
    | Start(device: u32, job: u32)
    | Data(payload: Buffer)
    | End

  function EncodeHeader(h: Header): (b: seq<byte>)
    ensures |b| == 16
  {
    Le32(h.kind) + Le32(h.device) + Le32(h.len) + Le32(h.job)
  }

  function DecodeHeader(b: seq<byte>): Header
    requires |b| >= 16
  {
    Header(ReadLe32(b[0..4]), ReadLe32(b[4..8]), ReadLe32(b[8..12]), ReadLe32(b[12..16]))
  }

  /** The bytes of the four kinds of frame. */
  lemma {:induction false} WireFormat(device: u32, job: u32, payload: Buffer)
    ensures Encode(device, job, Start(device, job)) == [1, 0, 0, 0] + Le32(device) + [0, 0, 0, 0] + Le32(job)
    ensures Encode(device, job, Data(payload)) == [2, 0, 0, 0] + Le32(device) + Le32(|payload|) + Le32(job) + payload
    ensures Encode(device, job, End) == [3, 0, 0, 0] + Le32(device) + [0, 0, 0, 0] + Le32(job)
    ensures EncodeHeader(Header(JOB_ACK, device, 0, job)) == [4, 0, 0, 0] + Le32(device) + [0, 0, 0, 0] + Le32(job)
    ensures Le32(0x0a0b_0c0d) == [0x0d, 0x0c, 0x0b, 0x0a]
  {
    assert Le32(0) == [0, 0, 0, 0] && Le32(1) == [1, 0, 0, 0] && Le32(2) == [2, 0, 0, 0];
    assert Le32(3) == [3, 0, 0, 0] && Le32(4) == [4, 0, 0, 0];
  }

  lemma HeaderRoundTrip(h: Header, rest: seq<byte>)
    ensures DecodeHeader(EncodeHeader(h) + rest) == h
  {
    var b := EncodeHeader(h) + rest;
    assert b[0..4] == Le32(h.kind) && b[4..8] == Le32(h.device);
    assert b[8..12] == Le32(h.len) && b[12..16] == Le32(h.job);
    Le32RoundTrip(h.kind, []);
    Le32RoundTrip(h.device, []);
    Le32RoundTrip(h.len, []);
    Le32RoundTrip(h.job, []);
    assert forall n: u32 :: Le32(n) + [] == Le32(n);
  }

  /** A whole frame at the front of the stream, and what follows it. */
  datatype Front = Front(msg: Msg, rest: seq<byte>) | NoFront

  function First(stream: seq<byte>): (r: Front)
    ensures r.Front? ==> |r.rest| < |stream|
  {
    if |stream| < 16 then NoFront
    else
      var h, rest := DecodeHeader(stream), stream[16..];
      if h.kind == JOB_START then Front(Start(h.device, h.job), rest)
      else if h.kind == JOB_DATA then
        if h.len <= |rest| then Front(Data(rest[..h.len]), rest[h.len..]) else NoFront
      else if h.kind == JOB_END then Front(End, rest)
      else NoFront
  }

  /** Which bytes are a whole frame, and of which kind: type 1 and 3 are a header, type 2 needs its payload as well. */
  lemma {:induction false} FrontIff(kind: u32, device: u32, len: u32, job: u32, rest: seq<byte>)
    ensures var stream := Le32(kind) + Le32(device) + Le32(len) + Le32(job) + rest;
      First(stream) ==
        if kind == 1 then Front(Start(device, job), rest)
        else if kind == 2 && len <= |rest| then Front(Data(rest[..len]), rest[len..])
        else if kind == 3 then Front(End, rest)
        else NoFront
  {
    var h := Header(kind, device, len, job);
    HeaderRoundTrip(h, rest);
    assert (EncodeHeader(h) + rest)[16..] == rest;
  }

  /** The frames of a stream, up to the first that is incomplete or unknown. */
  function Decode(stream: seq<byte>): seq<Msg>
    decreases |stream|
  {
    var f := First(stream);
    if f.NoFront? then [] else [f.msg] + Decode(f.rest)
  }

  /** One frame as the backend sends it, `device` and `job` in every header. */
  function Encode(device: u32, job: u32, m: Msg): seq<byte>
  {
    match m
    case Start(d, j) => EncodeHeader(Header(JOB_START, d, 0, j))
    case Data(payload) => EncodeHeader(Header(JOB_DATA, device, |payload|, job)) + payload
    case End => EncodeHeader(Header(JOB_END, device, 0, job))
  }

  function EncodeAll(device: u32, job: u32, msgs: seq<Msg>): seq<byte>
  {
    if msgs == [] then [] else Encode(device, job, msgs[0]) + EncodeAll(device, job, msgs[1..])
  }

  lemma {:induction false} FirstOfEncoded(device: u32, job: u32, m: Msg, rest: seq<byte>)
    ensures First(Encode(device, job, m) + rest) == Front(m, rest)
  {
    var h := match m
      case Start(d, j) => Header(JOB_START, d, 0, j)
      case Data(payload) => Header(JOB_DATA, device, |payload|, job)
      case End => Header(JOB_END, device, 0, job);
    var tail := if m.Data? then m.payload + rest else rest;
    assert Encode(device, job, m) + rest == EncodeHeader(h) + tail;
    HeaderRoundTrip(h, tail);
    assert (EncodeHeader(h) + tail)[16..] == tail;
    if m.Data? {
      assert tail[..|m.payload|] == m.payload && tail[|m.payload|..] == rest;
    }
  }

  /** Decoding undoes encoding. */
  lemma {:induction false} DecodeEncoded(device: u32, job: u32, msgs: seq<Msg>)
    ensures Decode(EncodeAll(device, job, msgs)) == msgs
  {
    if msgs != [] {
      FirstOfEncoded(device, job, msgs[0], EncodeAll(device, job, msgs[1..]));
      DecodeEncoded(device, job, msgs[1..]);
    }
  }

  /** The bytes of a frame. */
  function Size(m: Msg): nat
  {
    16 + if m.Data? then |m.payload| else 0
  }

  function Sizes(msgs: seq<Msg>): nat
  {
    if msgs == [] then 0 else Size(msgs[0]) + Sizes(msgs[1..])
  }

  lemma {:induction false} HeaderAlone(stream: seq<byte>, cut: nat)
    requires 16 <= cut <= |stream|
    ensures DecodeHeader(stream[..cut]) == DecodeHeader(stream)
  {
    assert forall i, k :: 0 <= i <= k <= 16 ==> stream[..cut][i..k] == stream[i..k];
  }

  /** The front of a cut stream: the same frame if it arrived whole, else none. */
  lemma {:induction false} FirstOfCut(stream: seq<byte>, cut: nat)
    requires cut <= |stream|
    ensures var f, g := First(stream), First(stream[..cut]);
      g.Front? ==> f.Front? && g.msg == f.msg && Size(f.msg) <= cut && g.rest == f.rest[..cut - Size(f.msg)]
  {
    if cut >= 16 {
      HeaderAlone(stream, cut);
      var h := DecodeHeader(stream);
      assert stream[..cut][16..] == stream[16..][..cut - 16];
      if h.kind == JOB_DATA && h.len <= cut - 16 {
        assert stream[16..][..cut - 16][..h.len] == stream[16..][..h.len];
        assert stream[16..][..cut - 16][h.len..] == stream[16..][h.len..][..cut - 16 - h.len];
      }
    }
  }

  /** Cut anywhere, a stream decodes to the first of its messages. */
  lemma {:induction false} DecodeCut(stream: seq<byte>, cut: nat)
    requires cut <= |stream|
    ensures Decode(stream[..cut]) <= Decode(stream)
    decreases |stream|
  {
    FirstOfCut(stream, cut);
    var f := First(stream);
    if First(stream[..cut]).Front? {
      DecodeCut(f.rest, cut - Size(f.msg));
    }
  }

  lemma {:induction false} FirstSize(stream: seq<byte>)
    requires First(stream).Front?
    ensures Size(First(stream).msg) + |First(stream).rest| == |stream|
  {
  }

  /** The messages of a stream need no more bytes than it has. */
  lemma {:induction false} DecodeSizes(stream: seq<byte>)
    ensures Sizes(Decode(stream)) <= |stream|
    decreases |stream|
  {
    var f := First(stream);
    if f.Front? {
      FirstSize(stream);
      DecodeSizes(f.rest);
      assert ([f.msg] + Decode(f.rest))[1..] == Decode(f.rest);
    }
  }

  lemma {:induction false} EncodeSizes(device: u32, job: u32, msgs: seq<Msg>)
    ensures |EncodeAll(device, job, msgs)| == Sizes(msgs)
  {
    if msgs != [] { EncodeSizes(device, job, msgs[1..]); }
  }
}
