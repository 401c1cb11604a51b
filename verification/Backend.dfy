/**
 The CUPS backend's side of the socket: `send_msg` and `process_job`, under every
 schedule of short, interrupted and failing writes.
 */
module Backend {
  import opened Octets
  import opened Frames

  /** What one `write` does: take some bytes (`stale`: an earlier call left EINTR behind), be interrupted, or fail. */
  datatype WriteOutcome = Takes(n: nat, stale: bool) | Interrupted | Broken

  /** What `read` on the socket gives for the acknowledgement. */
  datatype AckRead = WholeAck(h: Header) | NoAck

  /** Every write takes something or is interrupted. */
  ghost predicate Patient(script: seq<WriteOutcome>)
  {
    forall o :: o in script ==> o.Interrupted? || (o.Takes? && (o.n > 0 || o.stale))
  }

  /** A stream socket; `script` is what the coming writes will meet, after it they take everything. */
  class Outlet {
    ghost var wire: seq<byte>
    var script: seq<WriteOutcome>

    constructor (script: seq<WriteOutcome>)
      ensures wire == [] && this.script == script
    {
      wire, this.script := [], script;
    }

    /** `write`: `n` bytes are taken, or none if `n <= 0`; `eintr` says that `errno` is EINTR. */
    method Write(bytes: seq<byte>) returns (n: int, eintr: bool)
      modifies this
      ensures -1 <= n <= |bytes|
      ensures wire == old(wire) + (if n > 0 then bytes[..n] else [])
      ensures |script| <= |old(script)| && (eintr ==> |script| < |old(script)|)
      ensures old(script) == [] ==> n == |bytes|
      ensures Patient(old(script)) && bytes != [] ==> Patient(script) && (n > 0 || eintr)
    {
      if script == [] {
        wire := wire + bytes;
        n, eintr := |bytes|, false;
        assert bytes[..n] == bytes;
        if n == 0 { assert wire == old(wire) + []; }
        return;
      }
      var next := script[0];
      script := script[1..];
      match next
      case Takes(k, stale) =>
        n, eintr := Min(k, |bytes|), stale;
        wire := wire + bytes[..n];
        if n == 0 { assert bytes[..0] == []; }
      case Interrupted => n, eintr := -1, true; wire := wire + [];
      case Broken => n, eintr := -1, false; wire := wire + [];
    }
  }

  /** Header, then payload if there is any. */
  function FrameOf(kind: u32, device: u32, job: u32, data: Buffer): seq<byte>
  {
    EncodeHeader(Header(kind, device, |data|, job)) + data
  }

  /** The payload loop of `send_msg`; an interrupted write is tried again. */
  method SendPayload(sock: Outlet, data: Buffer) returns (ok: bool, ghost sent: nat)
    modifies sock
    ensures sent <= |data| && sock.wire == old(sock.wire) + data[..sent]
    ensures ok <==> sent == |data|
    ensures Patient(old(sock.script)) ==> ok
    ensures old(sock.script) == [] ==> ok && sock.script == []
  {
    var p, remaining := 0, |data|;
    assert sock.wire + data[..0] == sock.wire;
    while remaining > 0
      invariant 0 <= p <= |data| && remaining == |data| - p
      invariant sock.wire == old(sock.wire) + data[..p]
      invariant old(sock.script) == [] ==> sock.script == []
      invariant Patient(old(sock.script)) ==> Patient(sock.script)
      decreases remaining, |sock.script|
    {
      var n, eintr := sock.Write(data[p..]);
      if n <= 0 {
        assert sock.wire == old(sock.wire) + data[..p];
        if eintr { continue; }
        return false, p;
      }
      assert data[..p] + data[p..][..n] == data[..p + n];
      p, remaining := p + n, remaining - n;
    }
    return true, p;
  }

  /** `send_msg`: all of the frame, or a proper prefix of it. */
  method SendMsg(sock: Outlet, kind: u32, device: u32, job: u32, data: Buffer) returns (ok: bool, ghost sent: nat)
    modifies sock
    ensures sent <= |FrameOf(kind, device, job, data)|
    ensures sock.wire == old(sock.wire) + FrameOf(kind, device, job, data)[..sent]
    ensures ok <==> sent == |FrameOf(kind, device, job, data)|
    ensures old(sock.script) == [] ==> ok && sock.script == []
  {
    var hdr := EncodeHeader(Header(kind, device, |data|, job));
    ghost var frame := FrameOf(kind, device, job, data);
    var n, eintr := sock.Write(hdr);
    if n != 16 {
      sent := if n > 0 then n else 0;
      assert frame[..sent] == if n > 0 then hdr[..n] else [];
      return false, sent;
    }
    assert hdr[..16] == hdr == frame[..16];
    ghost var rest;
    ok, rest := SendPayload(sock, data);
    sent := 16 + rest;
    assert hdr + data[..rest] == frame[..sent];
  }

  /** The messages of one job whose input came in these reads. */
  function JobMsgs(device: u32, job: u32, blocks: seq<Buffer>): seq<Msg>
  {
    [Start(device, job)] + DataMsgs(blocks) + [End]
  }

  function DataMsgs(blocks: seq<Buffer>): (r: seq<Msg>)
    ensures |r| == |blocks| && forall i :: 0 <= i < |blocks| ==> r[i] == Data(blocks[i])
  {
    if blocks == [] then [] else DataMsgs(blocks[..|blocks| - 1]) + [Data(blocks[|blocks| - 1])]
  }

  /** The stream the backend means to send. */
  function JobStream(device: u32, job: u32, blocks: seq<Buffer>): seq<byte>
  {
    EncodeAll(device, job, JobMsgs(device, job, blocks))
  }

  lemma {:induction false} EncodeAllAppend(device: u32, job: u32, a: seq<Msg>, b: seq<Msg>)
    ensures EncodeAll(device, job, a + b) == EncodeAll(device, job, a) + EncodeAll(device, job, b)
  {
    if a == [] {
      assert a + b == b;
    } else {
      var m, tail := a[0], a[1..];
      assert a == [m] + tail && a + b == [m] + (tail + b);
      EncodeAllAppend(device, job, tail, b);
      EncodeAllCons(device, job, m, tail + b);
      EncodeAllCons(device, job, m, tail);
      Assoc(Encode(device, job, m), EncodeAll(device, job, tail), EncodeAll(device, job, b));
    }
  }

  lemma {:induction false} EncodeAllCons(device: u32, job: u32, m: Msg, rest: seq<Msg>)
    ensures EncodeAll(device, job, [m] + rest) == Encode(device, job, m) + EncodeAll(device, job, rest)
  {
    assert ([m] + rest)[1..] == rest;
  }

  lemma {:induction false} EncodeAllSnoc(device: u32, job: u32, a: seq<Msg>, m: Msg)
    ensures EncodeAll(device, job, a + [m]) == EncodeAll(device, job, a) + Encode(device, job, m)
  {
    EncodeAllAppend(device, job, a, [m]);
    assert EncodeAll(device, job, [m]) == Encode(device, job, m) + EncodeAll(device, job, []);
  }

  /** What `send_msg` writes for the `n`-th message. */
  lemma {:induction false} FrameIsEncoded(device: u32, job: u32, blocks: seq<Buffer>, n: nat)
    requires n < |JobMsgs(device, job, blocks)|
    ensures var m := JobMsgs(device, job, blocks)[n];
      Encode(device, job, m) ==
        if n == 0 then FrameOf(JOB_START, device, job, [])
        else if n <= |blocks| then FrameOf(JOB_DATA, device, job, blocks[n - 1])
        else FrameOf(JOB_END, device, job, [])
  {
    if 1 <= n <= |blocks| {
      assert JobMsgs(device, job, blocks)[n] == DataMsgs(blocks)[n - 1];
    }
  }

  /** The wire carries the first `n` messages of the job whole, after `before`. */
  ghost predicate SentWhole(wire: seq<byte>, before: seq<byte>, device: u32, job: u32, blocks: seq<Buffer>, n: nat)
  {
    n <= |blocks| + 2 && wire == before + EncodeAll(device, job, JobMsgs(device, job, blocks)[..n])
  }

  /** The wire carries a part of the job's stream, none of it beyond message `n`. */
  ghost predicate SentPart(wire: seq<byte>, before: seq<byte>, device: u32, job: u32, blocks: seq<Buffer>, n: nat)
  {
    n <= |blocks| + 2 && before <= wire
    && wire[|before|..] <= EncodeAll(device, job, JobMsgs(device, job, blocks)[..n])
  }

  lemma {:induction false} UpTo(device: u32, job: u32, msgs: seq<Msg>, n: nat)
    requires n < |msgs|
    ensures EncodeAll(device, job, msgs[..n + 1]) == EncodeAll(device, job, msgs[..n]) + Encode(device, job, msgs[n])
  {
    assert msgs[..n + 1] == msgs[..n] + [msgs[n]];
    EncodeAllSnoc(device, job, msgs[..n], msgs[n]);
  }

  lemma Prolong(before: seq<byte>, a: seq<byte>, b: seq<byte>, cut: nat)
    requires cut <= |b|
    ensures var w := before + a + b[..cut];
      before <= w && w[|before|..] <= a + b && (cut == |b| ==> w == before + (a + b))
  {
    assert (before + a + b[..cut])[|before|..] == a + b[..cut];
  }

  lemma {:induction false} OneMore(wire: seq<byte>, wire': seq<byte>, before: seq<byte>,
                                   device: u32, job: u32, blocks: seq<Buffer>, n: nat, cut: nat)
    requires SentWhole(wire, before, device, job, blocks, n) && n < |blocks| + 2
    requires var frame := Encode(device, job, JobMsgs(device, job, blocks)[n]);
      cut <= |frame| && wire' == wire + frame[..cut]
    ensures SentPart(wire', before, device, job, blocks, n + 1)
    ensures cut == |Encode(device, job, JobMsgs(device, job, blocks)[n])| ==>
              SentWhole(wire', before, device, job, blocks, n + 1)
  {
    var msgs := JobMsgs(device, job, blocks);
    UpTo(device, job, msgs, n);
    Prolong(before, EncodeAll(device, job, msgs[..n]), Encode(device, job, msgs[n]), cut);
  }

  lemma {:induction false} WidenPart(wire: seq<byte>, before: seq<byte>, device: u32, job: u32, blocks: seq<Buffer>,
                                     n: nat, m: nat)
    requires SentPart(wire, before, device, job, blocks, n) && n <= m <= |blocks| + 2
    ensures SentPart(wire, before, device, job, blocks, m)
  {
    var msgs := JobMsgs(device, job, blocks);
    assert msgs[..m] == msgs[..n] + msgs[n..m];
    EncodeAllAppend(device, job, msgs[..n], msgs[n..m]);
  }

  /** The `n`-th message of the job. */
  method SendNth(sock: Outlet, device: u32, job: u32, ghost blocks: seq<Buffer>, ghost n: nat,
                 kind: u32, data: Buffer, ghost before: seq<byte>) returns (ok: bool)
    requires SentWhole(sock.wire, before, device, job, blocks, n) && n < |blocks| + 2
    requires FrameOf(kind, device, job, data) == Encode(device, job, JobMsgs(device, job, blocks)[n])
    modifies sock
    ensures forall m :: n < m <= |blocks| + 2 ==> SentPart(sock.wire, before, device, job, blocks, m)
    ensures ok ==> SentWhole(sock.wire, before, device, job, blocks, n + 1)
    ensures old(sock.script) == [] ==> ok && sock.script == []
  {
    ghost var was := sock.wire;
    ghost var cut;
    ok, cut := SendMsg(sock, kind, device, job, data);
    OneMore(was, sock.wire, before, device, job, blocks, n, cut);
    forall m | n < m <= |blocks| + 2 ensures SentPart(sock.wire, before, device, job, blocks, m) {
      WidenPart(sock.wire, before, device, job, blocks, n + 1, m);
    }
  }

  /** The reading loop: every block read becomes one DATA message. */
  method ForwardBlocks(sock: Outlet, device: u32, job: u32, blocks: seq<Buffer>, ghost before: seq<byte>)
      returns (ok: bool)
    requires SentWhole(sock.wire, before, device, job, blocks, 1)
    modifies sock
    ensures SentPart(sock.wire, before, device, job, blocks, |blocks| + 1)
    ensures ok ==> SentWhole(sock.wire, before, device, job, blocks, |blocks| + 1)
    ensures old(sock.script) == [] ==> ok && sock.script == []
  {
    var i := 0;
    while i < |blocks|
      invariant 0 <= i <= |blocks|
      invariant SentWhole(sock.wire, before, device, job, blocks, i + 1)
      invariant old(sock.script) == [] ==> sock.script == []
    {
      FrameIsEncoded(device, job, blocks, i + 1);
      ok := SendNth(sock, device, job, blocks, i + 1, JOB_DATA, blocks[i], before);
      if !ok { return; }
      i := i + 1;
    }
    ok := true;
  }

  /**
   `process_job`. `blocks` are the successful reads of the input, `inputOk` whether they
   ended with end of file, `ack` what the last read from the socket brings.
   */
  method ProcessJob(sock: Outlet, device: u32, job: u32, blocks: seq<Buffer>, inputOk: bool, ack: AckRead)
      returns (rc: int)
    modifies sock
    ensures SentPart(sock.wire, old(sock.wire), device, job, blocks, if inputOk then |blocks| + 2 else |blocks| + 1)
    ensures rc == 0 ==> sock.wire == old(sock.wire) + JobStream(device, job, blocks)
    ensures rc == 0 ==> inputOk && ack.WholeAck? && ack.h.kind == 4
    ensures rc == 0 || rc == -1
    ensures old(sock.script) == [] && inputOk && ack.WholeAck? && ack.h.kind == 4 ==> rc == 0
  {
    ghost var before := sock.wire;
    FrameIsEncoded(device, job, blocks, 0);
    assert JobMsgs(device, job, blocks)[..0] == [] && before + [] == before;
    var ok := SendNth(sock, device, job, blocks, 0, JOB_START, [], before);
    if !ok { return -1; }
    ok := ForwardBlocks(sock, device, job, blocks, before);
    if !ok || !inputOk {
      WidenPart(sock.wire, before, device, job, blocks, |blocks| + 1, |blocks| + 2);
      return -1;
    }
    FrameIsEncoded(device, job, blocks, |blocks| + 1);
    ok := SendNth(sock, device, job, blocks, |blocks| + 1, JOB_END, [], before);
    if !ok || ack.NoAck? || ack.h.kind != JOB_ACK { return -1; }
    assert JobMsgs(device, job, blocks)[..|blocks| + 2] == JobMsgs(device, job, blocks);
    return 0;
  }
}
