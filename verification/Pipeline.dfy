/** From the backend's input to the client's file: the pieces put together. */
module Pipeline {
  import opened Octets
  import opened Frames
  import opened Backend
  import Growth
  import R = Receiver

  /** The job so far, after its START and some DATA. */
  function Begun(device: u32, job: u32, blocks: seq<Buffer>): seq<Msg>
  {
    [Start(device, job)] + DataMsgs(blocks)
  }

  lemma {:induction false} BegunFacts(device: u32, job: u32, blocks: seq<Buffer>)
    ensures var msgs := Begun(device, job, blocks);
      && R.Owner(msgs) == (device, job) && R.Collected(msgs) == Flatten(blocks) && R.Expected(msgs) == []
  {
    var msgs := Begun(device, job, blocks);
    if blocks == [] {
      assert msgs == [] + [Start(device, job)];
      R.SnocFacts([], Start(device, job));
    } else {
      var before := blocks[..|blocks| - 1];
      BegunFacts(device, job, before);
      assert msgs == Begun(device, job, before) + [Data(blocks[|blocks| - 1])];
      R.SnocFacts(Begun(device, job, before), Data(blocks[|blocks| - 1]));
    }
  }

  /** The effects of a job's first `k` messages: none before its END. */
  lemma {:induction false} JobEffects(device: u32, job: u32, blocks: seq<Buffer>, k: nat)
    requires k <= |blocks| + 2
    ensures R.Expected(JobMsgs(device, job, blocks)[..k]) ==
      if k == |blocks| + 2 then R.EndEffects(device, job, Flatten(blocks)) else []
  {
    var msgs := JobMsgs(device, job, blocks);
    if k == 0 {
    } else if k <= |blocks| + 1 {
      assert msgs[..k] == Begun(device, job, blocks[..k - 1]) by {
        assert forall i :: 0 <= i < k - 1 ==> DataMsgs(blocks)[i] == DataMsgs(blocks[..k - 1])[i];
      }
      BegunFacts(device, job, blocks[..k - 1]);
    } else {
      assert msgs[..k] == Begun(device, job, blocks) + [End];
      BegunFacts(device, job, blocks);
      R.SnocFacts(Begun(device, job, blocks), End);
    }
  }

  /** What a receiver handles of a part of the backend's stream is the front of the job's messages. */
  lemma {:induction false} HandledPart(device: u32, job: u32, msgs: seq<Msg>, cut: nat, rounds: seq<R.Round>)
    requires cut <= |EncodeAll(device, job, msgs)|
    ensures var r := R.Receive(EncodeAll(device, job, msgs)[..cut], rounds);
      && r.handled <= msgs && r.effects == R.Expected(r.handled)
      && (|r.handled| == |msgs| ==> cut == |EncodeAll(device, job, msgs)|)
  {
    DecodeEncoded(device, job, msgs);
    DecodeCut(EncodeAll(device, job, msgs), cut);
    R.AllOrNothing(EncodeAll(device, job, msgs)[..cut], rounds);
    if |R.Receive(EncodeAll(device, job, msgs)[..cut], rounds).handled| == |msgs| { AllArrived(device, job, msgs, cut); }
  }

  /**
   Whatever part of the backend's stream arrives, and however the receiver's calls end, the
   job is dispatched whole, once, to the right device, or not at all; and only if all of the
   stream arrived.
   */
  lemma {:induction false} Relayed(device: u32, job: u32, blocks: seq<Buffer>, cut: nat, rounds: seq<R.Round>)
    requires cut <= |JobStream(device, job, blocks)|
    ensures var e := R.Receive(JobStream(device, job, blocks)[..cut], rounds).effects;
      || e == []
      || (cut == |JobStream(device, job, blocks)|
          && e == (if Flatten(blocks) == [] then [] else [R.Dispatch(device, Flatten(blocks))]) + [R.Ack(device, job)])
  {
    var msgs := JobMsgs(device, job, blocks);
    HandledPart(device, job, msgs, cut, rounds);
    var handled := R.Receive(JobStream(device, job, blocks)[..cut], rounds).handled;
    assert handled == msgs[..|handled|];
    JobEffects(device, job, blocks, |handled|);
  }

  /** A part of the stream from which all messages can be read is the stream. */
  lemma {:induction false} AllArrived(device: u32, job: u32, msgs: seq<Msg>, cut: nat)
    requires cut <= |EncodeAll(device, job, msgs)| && Decode(EncodeAll(device, job, msgs)[..cut]) == msgs
    ensures cut == |EncodeAll(device, job, msgs)|
  {
    DecodeSizes(EncodeAll(device, job, msgs)[..cut]);
    EncodeSizes(device, job, msgs);
  }

  lemma {:induction false} FlattenLength(blocks: seq<Buffer>, n: nat)
    requires n <= |blocks|
    ensures |Flatten(blocks[..n])| <= |Flatten(blocks)|
    decreases |blocks|
  {
    if n < |blocks| {
      FlattenLength(blocks[..|blocks| - 1], n);
      assert blocks[..|blocks| - 1][..n] == blocks[..n];
    } else {
      assert blocks[..n] == blocks;
    }
  }

  ghost predicate Calm(rounds: seq<R.Round>)
  {
    forall r :: r in rounds ==> r.memory && !r.ioFails
  }

  /** The session has handled the first `n` messages, and the rest is still to be read. */
  ghost predicate Reached(r: R.Session, device: u32, job: u32, blocks: seq<Buffer>, n: nat)
  {
    var msgs := JobMsgs(device, job, blocks);
    n <= |msgs| && r.alive && r.handled == msgs[..n] && r.rest == EncodeAll(device, job, msgs[n..])
  }

  lemma {:induction false} NextFront(device: u32, job: u32, msgs: seq<Msg>, n: nat)
    requires n < |msgs|
    ensures First(EncodeAll(device, job, msgs[n..])) == Front(msgs[n], EncodeAll(device, job, msgs[n + 1..]))
  {
    assert msgs[n..] == [msgs[n]] + msgs[n + 1..];
    EncodeAllCons(device, job, msgs[n], msgs[n + 1..]);
    FirstOfEncoded(device, job, msgs[n], EncodeAll(device, job, msgs[n + 1..]));
  }

  lemma {:induction false} CalmRound(r: R.Session, device: u32, job: u32, blocks: seq<Buffer>, n: nat)
    requires Reached(r, device, job, blocks, n) && n < |blocks| + 2 && |Flatten(blocks)| <= Growth.LIMIT
    requires r.conn.data == R.Collected(r.handled)
    ensures Reached(R.Advance(r, R.Round(true, false)), device, job, blocks, n + 1)
  {
    var msgs := JobMsgs(device, job, blocks);
    NextFront(device, job, msgs, n);
    if msgs[n].Data? { RoomForBlock(device, job, blocks, n); }
    CalmCall(r.conn, r.rest, msgs[n], EncodeAll(device, job, msgs[n + 1..]));
    Prefixes(msgs, n);
  }

  /** After `n` undisturbed calls the first `n` messages are handled. */
  lemma {:induction false} CalmProgress(device: u32, job: u32, blocks: seq<Buffer>, rounds: seq<R.Round>)
    requires Calm(rounds) && |rounds| <= |blocks| + 2 && |Flatten(blocks)| <= Growth.LIMIT
    ensures Reached(R.Receive(JobStream(device, job, blocks), rounds), device, job, blocks, |rounds|)
  {
    var n := |rounds|;
    if n == 0 {
      Whole(JobMsgs(device, job, blocks));
    } else {
      CalmProgress(device, job, blocks, rounds[..n - 1]);
      assert rounds[n - 1] in rounds;
      CalmNext(device, job, blocks, rounds[..n - 1], rounds[n - 1]);
    }
  }

  lemma {:induction false} CalmNext(device: u32, job: u32, blocks: seq<Buffer>, before: seq<R.Round>, round: R.Round)
    requires round == R.Round(true, false) && |before| < |blocks| + 2 && |Flatten(blocks)| <= Growth.LIMIT
    requires Reached(R.Receive(JobStream(device, job, blocks), before), device, job, blocks, |before|)
    ensures Reached(R.Advance(R.Receive(JobStream(device, job, blocks), before), round), device, job, blocks, |before| + 1)
  {
    var stream := JobStream(device, job, blocks);
    R.ReceiveIsFaithful(stream, before);
    CalmRound(R.Receive(stream, before), device, job, blocks, |before|);
  }

  /** The bytes collected before message `n`, a DATA, and those it brings, stay within the limit. */
  lemma {:induction false} RoomForBlock(device: u32, job: u32, blocks: seq<Buffer>, n: nat)
    requires n < |blocks| + 2 && JobMsgs(device, job, blocks)[n].Data? && |Flatten(blocks)| <= Growth.LIMIT
    ensures |R.Collected(JobMsgs(device, job, blocks)[..n])| + |JobMsgs(device, job, blocks)[n].payload| <= Growth.LIMIT
  {
    var msgs := JobMsgs(device, job, blocks);
    assert 1 <= n <= |blocks|;
    assert msgs[..n] == Begun(device, job, blocks[..n - 1]) by {
      assert forall i :: 0 <= i < n - 1 ==> DataMsgs(blocks)[i] == DataMsgs(blocks[..n - 1])[i];
    }
    BegunFacts(device, job, blocks[..n - 1]);
    assert msgs[n] == DataMsgs(blocks)[n - 1];
    FlattenLength(blocks, n);
    assert blocks[..n][..n - 1] == blocks[..n - 1];
  }

  /** A call with memory and a whole message in front succeeds, if the message is within the limit. */
  lemma {:induction false} CalmCall(c: R.Conn, stream: seq<byte>, m: Msg, rest: seq<byte>)
    requires First(stream) == Front(m, rest) && (m.Data? ==> |c.data| + |m.payload| <= Growth.LIMIT)
    ensures var o := R.Serve(c, stream, true); o.Served? && o.rest == rest
  {
  }

  /** Nothing is lost: an undisturbed job of at most 256 MB is dispatched and acknowledged. */
  lemma {:induction false} NothingLost(device: u32, job: u32, blocks: seq<Buffer>, rounds: seq<R.Round>)
    requires Calm(rounds) && |rounds| == |blocks| + 2 && |Flatten(blocks)| <= 0x1000_0000
    ensures R.Receive(JobStream(device, job, blocks), rounds).effects ==
      (if Flatten(blocks) == [] then [] else [R.Dispatch(device, Flatten(blocks))]) + [R.Ack(device, job)]
  {
    CalmProgress(device, job, blocks, rounds);
    R.AllOrNothing(JobStream(device, job, blocks), rounds);
    JobEffects(device, job, blocks, |blocks| + 2);
  }

  /** A part of a frame of at most 65536 bytes and of what follows it. */
  lemma {:induction false} SmallFront(device: u32, job: u32, m: Msg, rest: seq<byte>, cut: nat)
    requires m.Data? ==> |m.payload| <= 65536
    requires cut <= |Encode(device, job, m) + rest|
    ensures var stream := Encode(device, job, m) + rest;
      && (cut >= 16 ==> DecodeHeader(stream[..cut]).kind == JOB_DATA ==> DecodeHeader(stream[..cut]).len <= 65536)
      && (First(stream[..cut]).Front? ==> Size(m) <= cut && First(stream[..cut]).rest == rest[..cut - Size(m)])
  {
    var stream := Encode(device, job, m) + rest;
    FirstOfEncoded(device, job, m, rest);
    FirstOfCut(stream, cut);
    if cut >= 16 {
      HeaderAlone(stream, cut);
      FrontLength(device, job, m, rest);
    }
  }

  lemma {:induction false} FrontLength(device: u32, job: u32, m: Msg, rest: seq<byte>)
    ensures var h := DecodeHeader(Encode(device, job, m) + rest);
      h.kind == JOB_DATA ==> m.Data? && h.len == |m.payload|
  {
    match m
    case Start(d, j) => HeaderRoundTrip(Header(JOB_START, d, 0, j), rest);
    case Data(payload) =>
      var h := EncodeHeader(Header(JOB_DATA, device, |payload|, job));
      assert Encode(device, job, m) + rest == h + (payload + rest);
      HeaderRoundTrip(Header(JOB_DATA, device, |payload|, job), payload + rest);
    case End => HeaderRoundTrip(Header(JOB_END, device, 0, job), rest);
  }

  lemma {:induction false} SmallParts(device: u32, job: u32, msgs: seq<Msg>, cut: nat)
    requires forall m :: m in msgs && m.Data? ==> |m.payload| <= 65536
    requires cut <= |EncodeAll(device, job, msgs)|
    ensures R.SmallBlocks(EncodeAll(device, job, msgs)[..cut])
  {
    if msgs != [] {
      SmallFront(device, job, msgs[0], EncodeAll(device, job, msgs[1..]), cut);
      if First(EncodeAll(device, job, msgs)[..cut]).Front? {
        SmallParts(device, job, msgs[1..], cut - Size(msgs[0]));
      }
    }
  }

  /** No part of a stream of the backend, which reads at most 64 KB at a time, makes the receiver write behind its buffer. */
  lemma {:induction false} BackendNeverOverruns(device: u32, job: u32, blocks: seq<Buffer>, cut: nat, rounds: seq<R.Round>, memory: bool)
    requires (forall b :: b in blocks ==> |b| <= 65536) && cut <= |JobStream(device, job, blocks)|
    ensures var r := R.Receive(JobStream(device, job, blocks)[..cut], rounds);
      !R.Serve(r.conn, r.rest, memory).Overrun?
  {
    var msgs := JobMsgs(device, job, blocks);
    forall m | m in msgs && m.Data? ensures |m.payload| <= 65536 {
      var i :| 0 <= i < |msgs| && msgs[i] == m;
      assert m == DataMsgs(blocks)[i - 1] && blocks[i - 1] in blocks;
    }
    SmallParts(device, job, msgs, cut);
    R.SmallNeverOverruns(JobStream(device, job, blocks)[..cut], rounds, memory);
  }

  /** What the receiver writes back: one header for each acknowledgement (`send_ack`). */
  function AckBytes(effects: seq<R.Effect>): seq<byte>
  {
    if effects == [] then []
    else
      var e := effects[|effects| - 1];
      AckBytes(effects[..|effects| - 1]) +
      (if e.Ack? then EncodeHeader(Header(JOB_ACK, e.device, 0, e.job)) else [])
  }

  /** What the backend's `read` makes of it. */
  function ReadAck(bytes: seq<byte>): AckRead
  {
    if |bytes| >= 16 then WholeAck(DecodeHeader(bytes)) else NoAck
  }

  lemma {:induction false} EndAckBytes(device: u32, job: u32, data: seq<byte>)
    ensures AckBytes(R.EndEffects(device, job, data)) == EncodeHeader(Header(JOB_ACK, device, 0, job))
  {
    var effects := R.EndEffects(device, job, data);
    var n := |effects| - 1;
    assert effects[n] == R.Ack(device, job);
    if n == 1 { assert effects[..1] == [R.Dispatch(device, data)] && effects[..1][..0] == []; } else { assert effects[..0] == []; }
    assert AckBytes(effects[..n]) == [];
  }

  /**
   The acknowledgement the backend waits for comes if and only if all of its stream arrived and
   the whole input was dispatched; so that is what a return code 0 of `ProcessJob` stands for.
   */
  lemma {:induction false} AckIffDispatched(device: u32, job: u32, blocks: seq<Buffer>, cut: nat, rounds: seq<R.Round>)
    requires cut <= |JobStream(device, job, blocks)|
    ensures var e := R.Receive(JobStream(device, job, blocks)[..cut], rounds).effects;
      var ack := ReadAck(AckBytes(e));
      && (ack.WholeAck? <==> cut == |JobStream(device, job, blocks)| && e == R.EndEffects(device, job, Flatten(blocks)))
      && (ack.WholeAck? ==> ack.h == Header(JOB_ACK, device, 0, job))
  {
    Relayed(device, job, blocks, cut, rounds);
    EndAckBytes(device, job, Flatten(blocks));
    var h := Header(JOB_ACK, device, 0, job);
    HeaderRoundTrip(h, []);
    assert EncodeHeader(h) + [] == EncodeHeader(h);
  }
}
