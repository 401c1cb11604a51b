/**
 The receiving end of the backend socket on values: what one call of
 `printer_socket_handle_data` does to a connection and its stream, and what every run of
 calls dispatches. The class `Connection` refines `Serve`.
 */
module Receiver {
  import opened Octets
  import opened Frames
  import opened Growth

  /** A connection: the job being collected and the account of its buffer. */
  datatype Conn = Conn(device: u32, job: u32, data: seq<byte>, account: Account)

  datatype Effect =
    | Dispatch(device: u32, data: seq<byte>)  // devredir_printer_send_job
    | Ack(device: u32, job: u32)

  /**
   `Closed` is the return value -1. `Overrun` is the one case without a defined result: room
   was granted, but bytes arrive behind the end of the buffer (`OverrunIff`).
   */
  datatype Outcome =
    | Served(conn: Conn, rest: seq<byte>, effects: seq<Effect>)
    | Closed
    | Overrun

  const FRESH := Conn(0, 0, [], UNUSED)

  /** The effects of JOB_END. */
  function EndEffects(device: u32, job: u32, data: seq<byte>): seq<Effect>
  {
    (if data == [] then [] else [Dispatch(device, data)]) + [Ack(device, job)]
  }

  /** The size `ensure_capacity` makes room for: a 32-bit sum. */
  function Needed(c: Conn, len: u32): nat
  {
    (|c.data| + len) % TWO32
  }

  /** One call after its header, when reads fail only for want of bytes. */
  function ServeBody(c: Conn, h: Header, rest: seq<byte>, memory: bool): Outcome
  {
    if h.kind == JOB_START then Served(c.(device := h.device, job := h.job, data := []), rest, [])
    else if h.kind == JOB_DATA then
      if h.len == 0 then Served(c, rest, [])
      else
        var needed := Needed(c, h.len);
        if !Granted(c.account, needed, memory) then Closed
        else
          var account := Charge(c.account, needed);
          if |c.data| + h.len > account.cap && |c.data| + |rest| > account.cap then Overrun
          else if |rest| < h.len then Closed
          else Served(c.(data := c.data + rest[..h.len], account := account), rest[h.len..], [])
    else if h.kind == JOB_END then Served(c.(data := []), rest, EndEffects(c.device, c.job, c.data))
    else Closed
  }

  function Serve(c: Conn, stream: seq<byte>, memory: bool): Outcome
  {
    if |stream| < 16 then Closed else ServeBody(c, DecodeHeader(stream), stream[16..], memory)
  }

  ghost predicate ConnOk(c: Conn)
  {
    Thrifty(c.account) && |c.data| <= c.account.cap
  }

  lemma {:induction false} ServeKeepsOk(c: Conn, stream: seq<byte>, memory: bool)
    requires ConnOk(c)
    ensures var o := Serve(c, stream, memory); o.Served? ==> ConnOk(o.conn)
  {
    if |stream| >= 16 {
      var h := DecodeHeader(stream);
      if h.kind == JOB_DATA && h.len > 0 && Granted(c.account, Needed(c, h.len), memory) {
        ChargeKeepsThrifty(c.account, Needed(c, h.len), memory);
      }
    }
  }

  /**
   A request is granted with too little room exactly if the 32-bit sum wraps; then no memory
   is needed to grant it.
   */
  lemma {:induction false} ShortGrantIff(c: Conn, len: u32, memory: bool)
    requires ConnOk(c)
    ensures (Granted(c.account, Needed(c, len), memory) && |c.data| + len > Charge(c.account, Needed(c, len)).cap) <==>
            |c.data| + len >= TWO32
  {
    FewReallocations(c.account);
    var n: int := |c.data| + len;
    assert Needed(c, len) == if n < TWO32 then n else n - TWO32;
    if |c.data| + len < TWO32 && Granted(c.account, |c.data| + len, memory) {
      ChargeKeepsThrifty(c.account, |c.data| + len, memory);
    }
  }

  /**
   Bytes arrive behind the buffer exactly for a DATA header whose length wraps the sum, if
   more of the payload arrives than there is room.
   */
  lemma {:induction false} OverrunIff(c: Conn, stream: seq<byte>, memory: bool)
    requires ConnOk(c)
    ensures Serve(c, stream, memory).Overrun? <==>
      && |stream| >= 16 && DecodeHeader(stream).kind == JOB_DATA
      && |c.data| + DecodeHeader(stream).len >= TWO32 && |c.data| + (|stream| - 16) > c.account.cap
  {
    if |stream| >= 16 { BodyOverrunIff(c, DecodeHeader(stream), stream[16..], memory); }
  }

  lemma {:induction false} BodyOverrunIff(c: Conn, h: Header, rest: seq<byte>, memory: bool)
    requires ConnOk(c)
    ensures ServeBody(c, h, rest, memory).Overrun? <==>
      h.kind == JOB_DATA && |c.data| + h.len >= TWO32 && |c.data| + |rest| > c.account.cap
  {
    FewReallocations(c.account);
    ShortGrantIff(c, h.len, memory);
  }

  /**
   A call succeeds exactly if a whole frame of a known kind is there and, for a payload, the bytes
   collected and those it brings fit the buffer or can be made to fit within 256 MB.
   */
  lemma {:induction false} ServedIff(c: Conn, stream: seq<byte>, memory: bool)
    requires ConnOk(c)
    ensures Serve(c, stream, memory).Served? <==>
      && First(stream).Front?
      && (First(stream).msg.Data? && First(stream).msg.payload != [] ==>
            var needed := |c.data| + |First(stream).msg.payload|;
            needed <= c.account.cap || (memory && needed <= 0x1000_0000))
  {
    if |stream| >= 16 {
      var h, rest := DecodeHeader(stream), stream[16..];
      if h.kind == JOB_DATA && 0 < h.len <= |rest| { PayloadServedIff(c, h, rest, memory); }
    }
  }

  lemma {:induction false} PayloadServedIff(c: Conn, h: Header, rest: seq<byte>, memory: bool)
    requires ConnOk(c) && h.kind == JOB_DATA && 0 < h.len <= |rest|
    ensures ServeBody(c, h, rest, memory).Served? <==>
      |c.data| + h.len <= c.account.cap || (memory && |c.data| + h.len <= 0x1000_0000)
  {
    BodyOverrunIff(c, h, rest, memory);
    FewReallocations(c.account);
    if |c.data| + h.len < TWO32 && Granted(c.account, |c.data| + h.len, memory) {
      ChargeKeepsThrifty(c.account, |c.data| + h.len, memory);
    }
  }

  /** One byte of data on a fresh connection. */
  lemma {:induction false} OneByte(rest: seq<byte>)
    ensures var o := Serve(FRESH, Encode(7, 1, Data([65])) + rest, true);
      o.Served? && o.conn.data == [65] && o.conn.account.cap == 65536 && o.rest == rest && ConnOk(o.conn)
  {
    var stream := Encode(7, 1, Data([65])) + rest;
    FirstOfEncoded(7, 1, Data([65]), rest);
    FirstHeader(rest);
    assert LeastCap(1) == 65536;
    ServeHandlesFirst(FRESH, stream, true);
    ServeKeepsOk(FRESH, stream, true);
  }

  /** After one byte of data, a second DATA message that announces 2^32 - 1 bytes and brings 65536. */
  lemma {:induction false} WrapOverruns(payload: seq<byte>)
    requires |payload| == 65536
    ensures var first, second := Encode(7, 1, Data([65])), EncodeHeader(Header(JOB_DATA, 7, 0xffff_ffff, 1));
      var c := Receive(first + (second + payload), [Round(true, false)]);
      c.conn.data == [65] && c.conn.account.cap == 65536 && Serve(c.conn, c.rest, false).Overrun?
  {
    var first, second := Encode(7, 1, Data([65])), EncodeHeader(Header(JOB_DATA, 7, 0xffff_ffff, 1));
    var rest := second + payload;
    OneByte(rest);
    ReceiveMore(first + rest, [], Round(true, false));
    assert [] + [Round(true, false)] == [Round(true, false)];
    HeaderRoundTrip(Header(JOB_DATA, 7, 0xffff_ffff, 1), payload);
    OverrunIff(Serve(FRESH, first + rest, true).conn, rest, false);
  }

  lemma FirstHeader(rest: seq<byte>)
    ensures DecodeHeader(Encode(7, 1, Data([65])) + rest) == Header(JOB_DATA, 7, 1, 1)
  {
    var h := Header(JOB_DATA, 7, 1, 1);
    assert Encode(7, 1, Data([65])) + rest == EncodeHeader(h) + ([65] + rest);
    HeaderRoundTrip(h, [65] + rest);
  }

  // Runs

  /** A call in a run: is there memory, and does reading fail although bytes would come? */
  datatype Round = Round(memory: bool, ioFails: bool)

  datatype Session = Session(conn: Conn, rest: seq<byte>, handled: seq<Msg>, effects: seq<Effect>, alive: bool)

  /** One round; a connection whose call fails is closed. */
  function Advance(r: Session, round: Round): (s: Session)
    ensures r.effects <= s.effects
  {
    if !r.alive || round.ioFails then r.(alive := false)
    else
      match Serve(r.conn, r.rest, round.memory)
      case Served(conn, rest, effects) =>
        Session(conn, rest, r.handled + (if First(r.rest).Front? then [First(r.rest).msg] else []),
                r.effects + effects, true)
      case _ => r.(alive := false)
  }

  /** A connection from its acceptance, one call per round until a call fails and it is closed. */
  function Receive(stream: seq<byte>, rounds: seq<Round>): Session
  {
    if rounds == [] then Session(FRESH, stream, [], [], true)
    else Advance(Receive(stream, rounds[..|rounds| - 1]), rounds[|rounds| - 1])
  }

  lemma {:induction false} ReceiveMore(stream: seq<byte>, rounds: seq<Round>, round: Round)
    ensures var s := Receive(stream, rounds); var next := Advance(s, round);
      && Receive(stream, rounds + [round]) == next
      && s.effects + next.effects[|s.effects|..] == next.effects
      && (!next.alive ==> next.effects == s.effects)
  {
    assert (rounds + [round])[..|rounds|] == rounds;
  }

  // The reference: what messages mean, read off the whole history

  /** The position after the last START or END. */
  function Boundary(msgs: seq<Msg>): (k: nat)
    ensures k <= |msgs|
  {
    if msgs == [] then 0
    else if msgs[|msgs| - 1].Data? then Boundary(msgs[..|msgs| - 1])
    else |msgs|
  }

  function Payloads(msgs: seq<Msg>): seq<byte>
  {
    if msgs == [] then []
    else Payloads(msgs[..|msgs| - 1]) + (var m := msgs[|msgs| - 1]; if m.Data? then m.payload else [])
  }

  /** The bytes collected since the last START or END. */
  function Collected(msgs: seq<Msg>): seq<byte>
  {
    Payloads(msgs[Boundary(msgs)..])
  }

  /** Device and job of the last START. */
  function Owner(msgs: seq<Msg>): (u32, u32)
  {
    if msgs == [] then (0, 0)
    else if msgs[|msgs| - 1].Start? then (msgs[|msgs| - 1].device, msgs[|msgs| - 1].job)
    else Owner(msgs[..|msgs| - 1])
  }

  /** Each END hands over what was collected, if anything, and is acknowledged after that. */
  function Expected(msgs: seq<Msg>): seq<Effect>
  {
    if msgs == [] then []
    else
      var before := msgs[..|msgs| - 1];
      Expected(before) +
      (if msgs[|msgs| - 1].End? then EndEffects(Owner(before).0, Owner(before).1, Collected(before)) else [])
  }

  lemma {:induction false} SnocFacts(msgs: seq<Msg>, m: Msg)
    ensures Boundary(msgs + [m]) == if m.Data? then Boundary(msgs) else |msgs| + 1
    ensures Owner(msgs + [m]) == if m.Start? then (m.device, m.job) else Owner(msgs)
    ensures Collected(msgs + [m]) == if m.Data? then Collected(msgs) + m.payload else []
    ensures Expected(msgs + [m]) == if m.End? then Expected(msgs) + EndEffects(Owner(msgs).0, Owner(msgs).1, Collected(msgs))
                                    else Expected(msgs)
  {
    assert (msgs + [m])[..|msgs|] == msgs;
    var k := Boundary(msgs);
    if m.Data? {
      assert (msgs + [m])[k..] == msgs[k..] + [m];
      assert (msgs[k..] + [m])[..|msgs| - k] == msgs[k..];
    }
  }

  lemma {:induction false} DecodeSnoc(stream: seq<byte>, handled: seq<Msg>, rest: seq<byte>)
    requires Decode(stream) == handled + Decode(rest) && First(rest).Front?
    ensures Decode(stream) == handled + [First(rest).msg] + Decode(First(rest).rest)
  {
  }

  /** The connection and its effects are what the handled messages say; they are the front of the stream. */
  ghost predicate Faithful(r: Session, stream: seq<byte>)
  {
    && ConnOk(r.conn)
    && r.conn.data == Collected(r.handled)
    && (r.conn.device, r.conn.job) == Owner(r.handled)
    && r.effects == Expected(r.handled)
    && Decode(stream) == r.handled + Decode(r.rest)
  }

  /** A call that succeeds has handled the first whole message of the stream. */
  lemma {:induction false} ServeHandlesFirst(c: Conn, stream: seq<byte>, memory: bool)
    requires Serve(c, stream, memory).Served?
    ensures var o := Serve(c, stream, memory);
      && First(stream).Front? && o.rest == First(stream).rest
      && var m := First(stream).msg;
      && o.conn.data == (if m.Data? then c.data + m.payload else [])
      && (o.conn.device, o.conn.job) == (if m.Start? then (m.device, m.job) else (c.device, c.job))
      && o.effects == if m.End? then EndEffects(c.device, c.job, c.data) else []
  {
  }

  lemma {:induction false} FaithfulSnoc(r: Session, stream: seq<byte>, m: Msg, c: Conn, rest: seq<byte>, effects: seq<Effect>)
    requires Faithful(r, stream) && First(r.rest) == Front(m, rest) && ConnOk(c)
    requires c.data == if m.Data? then r.conn.data + m.payload else []
    requires (c.device, c.job) == if m.Start? then (m.device, m.job) else (r.conn.device, r.conn.job)
    requires effects == if m.End? then EndEffects(r.conn.device, r.conn.job, r.conn.data) else []
    ensures Faithful(Session(c, rest, r.handled + [m], r.effects + effects, true), stream)
  {
    SnocFacts(r.handled, m);
    DecodeSnoc(stream, r.handled, r.rest);
    if !m.End? { assert r.effects + effects == r.effects; }
  }

  lemma {:induction false} ServeIsFaithful(r: Session, stream: seq<byte>, memory: bool)
    requires Faithful(r, stream) && Serve(r.conn, r.rest, memory).Served?
    ensures First(r.rest).Front?
    ensures var o := Serve(r.conn, r.rest, memory);
      Faithful(Session(o.conn, o.rest, r.handled + [First(r.rest).msg], r.effects + o.effects, true), stream)
  {
    ServeHandlesFirst(r.conn, r.rest, memory);
    ServeKeepsOk(r.conn, r.rest, memory);
    var o := Serve(r.conn, r.rest, memory);
    FaithfulSnoc(r, stream, First(r.rest).msg, o.conn, o.rest, o.effects);
  }

  lemma {:induction false} ReceiveIsFaithful(stream: seq<byte>, rounds: seq<Round>)
    ensures Faithful(Receive(stream, rounds), stream)
  {
    if rounds == [] {
      assert Decode(stream) == [] + Decode(stream);
    } else {
      var before := rounds[..|rounds| - 1];
      ReceiveIsFaithful(stream, before);
      var r, round := Receive(stream, before), rounds[|rounds| - 1];
      if r.alive && !round.ioFails && Serve(r.conn, r.rest, round.memory).Served? {
        ServeIsFaithful(r, stream, round.memory);
      } else {
        assert Faithful(r.(alive := false), stream);
      }
    }
  }

  /**
   After any calls, bytes of the next arrive behind the buffer exactly if its header announces
   DATA that, with what the handled messages since the last START or END brought, makes 2^32
   bytes or more, and more arrive than the capacity holds.
   */
  lemma {:induction false} OverrunAfter(stream: seq<byte>, rounds: seq<Round>, memory: bool)
    ensures var r := Receive(stream, rounds);
      Serve(r.conn, r.rest, memory).Overrun? <==>
        && |r.rest| >= 16 && DecodeHeader(r.rest).kind == JOB_DATA
        && |Collected(r.handled)| + DecodeHeader(r.rest).len >= TWO32
        && |Collected(r.handled)| + (|r.rest| - 16) > r.conn.account.cap
  {
    ReceiveIsFaithful(stream, rounds);
    var r := Receive(stream, rounds);
    OverrunIff(r.conn, r.rest, memory);
  }

  /** No DATA header on the way announces more than 65536 bytes. */
  predicate SmallBlocks(stream: seq<byte>)
    decreases |stream|
  {
    && (|stream| >= 16 && DecodeHeader(stream).kind == JOB_DATA ==> DecodeHeader(stream).len <= 65536)
    && (First(stream).Front? ==> SmallBlocks(First(stream).rest))
  }

  lemma {:induction false} RestIsSmall(stream: seq<byte>, rounds: seq<Round>)
    requires SmallBlocks(stream)
    ensures SmallBlocks(Receive(stream, rounds).rest)
  {
    if rounds != [] {
      var before := rounds[..|rounds| - 1];
      RestIsSmall(stream, before);
      var r, round := Receive(stream, before), rounds[|rounds| - 1];
      if r.alive && !round.ioFails && Serve(r.conn, r.rest, round.memory).Served? {
        ServeHandlesFirst(r.conn, r.rest, round.memory);
      }
    }
  }

  /** From blocks of at most 65536 bytes, as the backend reads them, no bytes ever arrive behind the buffer. */
  lemma {:induction false} SmallNeverOverruns(stream: seq<byte>, rounds: seq<Round>, memory: bool)
    requires SmallBlocks(stream)
    ensures !Serve(Receive(stream, rounds).conn, Receive(stream, rounds).rest, memory).Overrun?
  {
    ReceiveIsFaithful(stream, rounds);
    RestIsSmall(stream, rounds);
    var r := Receive(stream, rounds);
    OverrunIff(r.conn, r.rest, memory);
    FewReallocations(r.conn.account);
  }

  /**
   All or nothing: whatever fails and when, the dispatches and acknowledgements are those of
   the whole messages handled, which are a prefix of the messages on the stream.
   */
  lemma AllOrNothing(stream: seq<byte>, rounds: seq<Round>)
    ensures var r := Receive(stream, rounds);
      r.handled <= Decode(stream) && r.effects == Expected(r.handled)
  {
    ReceiveIsFaithful(stream, rounds);
  }

  /** DATA that no END has followed yet causes nothing. */
  lemma {:induction false} UnfinishedIsSilent(msgs: seq<Msg>)
    ensures Expected(msgs) == Expected(msgs[..Boundary(msgs)])
  {
    if msgs != [] && msgs[|msgs| - 1].Data? {
      var before := msgs[..|msgs| - 1];
      assert msgs == before + [msgs[|msgs| - 1]];
      SnocFacts(before, msgs[|msgs| - 1]);
      UnfinishedIsSilent(before);
      assert before[..Boundary(before)] == msgs[..Boundary(msgs)];
    } else {
      assert msgs[..Boundary(msgs)] == msgs;
    }
  }

  function Ends(msgs: seq<Msg>): nat
  {
    if msgs == [] then 0 else Ends(msgs[..|msgs| - 1]) + (if msgs[|msgs| - 1].End? then 1 else 0)
  }

  function Acks(effects: seq<Effect>): nat
  {
    if effects == [] then 0 else Acks(effects[..|effects| - 1]) + (if effects[|effects| - 1].Ack? then 1 else 0)
  }

  /** Every dispatch is followed at once by its acknowledgement. */
  ghost predicate AckAfterDispatch(effects: seq<Effect>)
  {
    forall i :: 0 <= i < |effects| && effects[i].Dispatch? ==> i + 1 < |effects| && effects[i + 1].Ack?
  }

  lemma {:induction false} OneMoreAck(e: seq<Effect>, device: u32, job: u32, data: seq<byte>)
    requires AckAfterDispatch(e)
    ensures var more := e + EndEffects(device, job, data);
      Acks(more) == Acks(e) + 1 && AckAfterDispatch(more)
  {
    var ack, dispatch := Ack(device, job), Dispatch(device, data);
    if data == [] {
      assert e + EndEffects(device, job, data) == e + [ack];
      AcksSnoc(e, ack);
    } else {
      assert e + EndEffects(device, job, data) == e + [dispatch] + [ack];
      AcksSnoc(e, dispatch);
      AcksSnoc(e + [dispatch], ack);
    }
  }

  lemma AcksSnoc(e: seq<Effect>, x: Effect)
    ensures Acks(e + [x]) == Acks(e) + (if x.Ack? then 1 else 0)
  {
    assert (e + [x])[..|e|] == e;
  }

  lemma {:induction false} OneAckPerEnd(msgs: seq<Msg>)
    ensures Acks(Expected(msgs)) == Ends(msgs) && AckAfterDispatch(Expected(msgs))
  {
    if msgs != [] {
      var before := msgs[..|msgs| - 1];
      OneAckPerEnd(before);
      if msgs[|msgs| - 1].End? {
        OneMoreAck(Expected(before), Owner(before).0, Owner(before).1, Collected(before));
      } else {
        assert Expected(before) + [] == Expected(before);
      }
    }
  }

  /** The buffer over any run: at most 13 reallocations, which copy less than it finally holds. */
  lemma {:induction false} GrowthIsBounded(stream: seq<byte>, rounds: seq<Round>)
    ensures var a := Receive(stream, rounds).conn.account;
      a.reallocs <= 13 && a.cap <= 0x1000_0000 && (a.cap > 0 ==> a.copied < a.cap)
  {
    ReceiveIsFaithful(stream, rounds);
    FewReallocations(Receive(stream, rounds).conn.account);
  }
}
