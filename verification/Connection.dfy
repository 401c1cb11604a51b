/**
 `struct backend_conn` and the functions on it as the program has them: a buffer that is
 grown and filled in place, read from a non-blocking socket in pieces of any size.
 */
module Connection {
  import opened Octets
  import opened Frames
  import opened Growth
  import R = Receiver

  /** What one `read` meets: some bytes, an empty socket (and what `poll` says), or a failure. */
  datatype ReadOutcome = Short(n: nat) | Blocked(ready: bool) | Broken

  datatype ReadResult = Got(chunk: seq<byte>) | Again(ready: bool) | Gone

  /** Nothing but short reads, and waits that end with data. */
  ghost predicate Benign(script: seq<ReadOutcome>)
  {
    forall o :: o in script ==> !o.Broken? && (o.Blocked? ==> o.ready) && (o.Short? ==> o.n > 0)
  }

  /** The receiving socket: bytes still to come, and what the coming reads will meet. */
  class Source {
    var pending: seq<byte>
    var script: seq<ReadOutcome>

    constructor (pending: seq<byte>, script: seq<ReadOutcome>)
      ensures this.pending == pending && this.script == script
    {
      this.pending, this.script := pending, script;
    }

    /** `read`; after the script everything asked for arrives, or end of file. */
    method Read(max: nat) returns (r: ReadResult)
      requires max > 0
      modifies this
      ensures r.Got? ==> 0 < |r.chunk| <= max && old(pending) == r.chunk + pending
      ensures !r.Got? ==> pending == old(pending)
      ensures |script| <= |old(script)| && (r.Again? ==> |script| < |old(script)|)
      ensures Benign(old(script)) ==> Benign(script) && (r.Gone? ==> old(pending) == []) && (r.Again? ==> r.ready)
    {
      var want := max;
      if script != [] {
        var next := script[0];
        script := script[1..];
        match next
        case Short(n) => want := Min(n, max);
        case Blocked(ready) => return Again(ready);
        case Broken => return Gone;
      }
      var n := Min(want, |pending|);
      if n == 0 { return Gone; }
      r := Got(pending[..n]);
      pending := pending[n..];
    }

    /**
     `read_exact` into `buf` from `at`: exactly `len` bytes, or a failure after fewer; `beyond` if
     bytes arrive that `buf` does not hold, which it knows nothing of.
     */
    method ReadExact(buf: array<byte>, at: nat, len: nat) returns (ok: bool, beyond: bool)
      requires at <= buf.Length
      modifies this, buf
      ensures buf[..at] == old(buf[..at])
      ensures ok ==> at + len <= buf.Length && len <= |old(pending)| && buf[at..at + len] == old(pending)[..len]
                     && pending == old(pending)[len..]
      ensures !ok && !beyond ==> exists k :: 0 <= k < len && k <= |old(pending)| && pending == old(pending)[k..]
      ensures beyond ==> !ok && at + len > buf.Length && |old(pending)| > buf.Length - at
      ensures Benign(old(script)) ==> Benign(script)
      ensures Benign(old(script)) ==>
                if at + len <= buf.Length then ok <==> len <= |old(pending)| else beyond <==> |old(pending)| > buf.Length - at
    {
      var p, remaining := at, len;
      while remaining > 0
        invariant at <= p <= buf.Length && remaining == at + len - p >= 0
        invariant p - at <= |old(pending)| && pending == old(pending)[p - at..]
        invariant buf[..at] == old(buf[..at]) && buf[at..p] == old(pending)[..p - at]
        invariant Benign(old(script)) ==> Benign(script)
        decreases remaining, |script|
      {
        var r := Read(remaining);
        match r
        case Got(chunk) =>
          if p + |chunk| > buf.Length { return false, true; }
          ghost var before := buf[..];
          forall i | 0 <= i < |chunk| {
            buf[p + i] := chunk[i];
          }
          assert buf[..at] == before[..at];
          assert buf[at..p + |chunk|] == before[at..p] + chunk;
          assert old(pending)[p - at..][..|chunk|] == chunk;
          assert old(pending)[..p - at] + chunk == old(pending)[..p - at + |chunk|];
          p, remaining := p + |chunk|, remaining - |chunk|;
        case Again(ready) =>
          if !ready { return false, false; }
        case Gone =>
          return false, false;
      }
      return true, false;
    }
  }

  datatype Status = Fine | Failed | Overran

  /** The doubling loop of `ensure_capacity`: the least capacity that will do, unless it is over the limit. */
  method GrownCapacity(cap: nat, needed: nat) returns (newCap: nat, ok: bool)
    requires (cap == 0 || IsCap(cap)) && cap < needed
    ensures ok <==> needed <= 0x1000_0000
    ensures ok ==> newCap == LeastCap(needed)
  {
    newCap := if cap == 0 then FIRST_CAP else cap;
    ghost var k: nat :| k <= 12 && newCap == Cap(k) && (k == 0 || cap == Cap(k));
    CapLimit(k);
    while newCap < needed
      invariant newCap == Cap(k) <= LIMIT && k <= 12
      invariant k == 0 || Cap(k - 1) < needed
      decreases 12 - k
    {
      k := k + 1;
      CapLimit(k);
      newCap := newCap * 2;
      if newCap > LIMIT {
        return newCap, false;
      }
    }
    LeastCapFrom(needed, k);
    return newCap, true;
  }

  /** `struct backend_conn`, with the effects of its calls in `effects`. */
  class BackendConn {
    var fd: int
    var active: bool
    var deviceId: u32
    var jobId: u32
    var data: array?<byte>
    var dataLen: u32
    var dataCapacity: u32
    var effects: seq<R.Effect>
    ghost var account: Account

    ghost predicate Valid()
      reads this, data
    {
      && dataCapacity == account.cap && (dataCapacity == 0 || IsCap(dataCapacity))
      && dataLen <= dataCapacity
      && (data == null <==> dataCapacity == 0)
      && (data != null ==> data.Length == dataCapacity)
    }

    /** The bytes collected for the current job. */
    ghost function Contents(): seq<byte>
      requires Valid()
      reads this, data
    {
      if data == null then [] else data[..dataLen]
    }

    ghost function View(): R.Conn
      requires Valid()
      reads this, data
    {
      R.Conn(deviceId, jobId, Contents(), account)
    }

    /** A slot before its first use: everything zero. */
    constructor ()
      ensures Valid() && View() == R.FRESH && effects == [] && data == null && !active
    {
      fd, active := 0, false;
      deviceId, jobId, data, dataLen, dataCapacity := 0, 0, null, 0, 0;
      effects, account := [], UNUSED;
    }

    /** `memset` to zero, in `printer_socket_accept` and in `close_conn`. */
    method Reset()
      modifies this
      ensures Valid() && View() == R.FRESH && effects == [] && data == null && !active
    {
      fd, active := 0, false;
      deviceId, jobId, data, dataLen, dataCapacity := 0, 0, null, 0, 0;
      effects, account := [], UNUSED;
    }

    /** A slot for a connection just accepted. */
    method Open(fd: int)
      modifies this
      ensures Valid() && View() == R.FRESH && effects == [] && data == null && active && this.fd == fd
    {
      Reset();
      this.fd, active := fd, true;
    }

    /** `realloc`: a new buffer with the old one's bytes in front. */
    method Realloc(newCap: nat, ghost needed: nat)
      requires Valid() && dataCapacity < needed <= LIMIT && newCap == LeastCap(needed)
      modifies this`data, this`dataCapacity, this`account
      ensures Valid() && Contents() == old(Contents()) && fresh(data)
      ensures account == Charge(old(account), needed) && needed <= dataCapacity
    {
      LeastCapIsCap(needed);
      var newBuf := new byte[newCap](_ => 0);
      if data != null {
        forall i | 0 <= i < dataLen {
          newBuf[i] := data[i];
        }
        assert newBuf[..dataLen] == data[..dataLen];
      }
      data, dataCapacity := newBuf, newCap;
      account := Charge(account, needed);
    }

    /** A request that fits needs no new buffer; only the account takes note of it. */
    ghost method Keep(needed: nat)
      requires Valid() && needed <= dataCapacity
      modifies this`account
      ensures Valid() && Contents() == old(Contents()) && account == Charge(old(account), needed)
    {
      account := Charge(account, needed);
    }

    /** The part of `ensure_capacity` for a request that does not fit yet. */
    method Grow(needed: u32, memory: bool) returns (ok: bool)
      requires Valid() && dataCapacity < needed
      modifies this`data, this`dataCapacity, this`account
      ensures Valid() && Contents() == old(Contents()) && (data == old(data) || fresh(data))
      ensures ok <==> memory && needed <= LIMIT
      ensures account == if ok then Charge(old(account), needed) else old(account)
      ensures ok ==> needed <= dataCapacity
    {
      var newCap, room := GrownCapacity(dataCapacity, needed);
      if !room || !memory { return false; }
      Realloc(newCap, needed);
      return true;
    }

    /**
     `ensure_capacity`: grants a 32-bit sum that fits or, given memory, one within the limit, and
     keeps the data across the reallocation.
     */
    method EnsureCapacity(additional: u32, memory: bool) returns (ok: bool)
      requires Valid()
      modifies this`data, this`dataCapacity, this`account
      ensures Valid() && Contents() == old(Contents())
      ensures ok <==> Granted(old(account), Add32(dataLen, additional), memory)
      ensures var needed := (dataLen + additional) % 0x1_0000_0000;
        ok <==> needed <= old(dataCapacity) || (memory && needed <= 0x1000_0000)
      ensures account == if ok then Charge(old(account), Add32(dataLen, additional)) else old(account)
      ensures ok ==> Add32(dataLen, additional) <= dataCapacity
      ensures data == old(data) || fresh(data)
    {
      var needed := Add32(dataLen, additional);
      if needed <= dataCapacity {
        Keep(needed);
        return true;
      }
      ok := Grow(needed, memory);
    }

    /** A payload of `len` bytes went from the stream behind the bytes `before`. */
    ghost predicate Took(before: seq<byte>, stream: seq<byte>, src: Source, len: u32)
      requires Valid()
      reads this, data, src
    {
      len <= |stream| && src.pending == stream[len..] && Contents() == before + stream[..len]
    }

    /**
     Reads a payload behind the bytes collected so far; a failure leaves those alone. `Overran` if
     bytes arrive that the buffer does not hold.
     */
    method Fill(src: Source, len: u32) returns (status: Status)
      requires Valid() && len > 0 && Add32(dataLen, len) <= dataCapacity
      modifies this`dataLen, data, src
      ensures Valid()
      ensures status.Fine? ==> old(dataLen) + len <= dataCapacity && Took(old(Contents()), old(src.pending), src, len)
      ensures status.Overran? ==> old(dataLen) + len > dataCapacity && old(dataLen) + |old(src.pending)| > dataCapacity
      ensures Benign(old(src.script)) ==> Benign(src.script)
      ensures Benign(old(src.script)) && status.Failed? ==>
                len > |old(src.pending)| && (old(dataLen) + len > dataCapacity ==> old(dataLen) + |old(src.pending)| <= dataCapacity)
    {
      var ok, beyond := src.ReadExact(data, dataLen, len);
      if ok {
        assert data[..dataLen + len] == data[..dataLen] + data[dataLen..dataLen + len];
        dataLen := dataLen + len;
      }
      status := if ok then Fine else if beyond then Overran else Failed;
    }

    /** `case MSG_TYPE_JOB_DATA` with a payload announced. */
    method ReadData(src: Source, len: u32, memory: bool) returns (status: Status)
      requires Valid() && len > 0
      modifies this`data, this`dataLen, this`dataCapacity, this`account, data, src
      ensures Valid() && (data == old(data) || fresh(data))
      ensures var n := Add32(old(dataLen), len);
        var cap := Charge(old(account), n).cap;
        && (status.Overran? ==>
              Granted(old(account), n, memory) && old(dataLen) + len > cap && old(dataLen) + |old(src.pending)| > cap)
        && (status.Fine? ==> Granted(old(account), n, memory) && account == Charge(old(account), n) && old(dataLen) + len <= cap)
        && (Benign(old(src.script)) && status.Failed? ==>
              !Granted(old(account), n, memory)
              || (len > |old(src.pending)| && (old(dataLen) + len > cap ==> old(dataLen) + |old(src.pending)| <= cap)))
      ensures status.Fine? ==> Took(old(Contents()), old(src.pending), src, len)
      ensures Benign(old(src.script)) ==> Benign(src.script)
    {
      var ok := EnsureCapacity(len, memory);
      ghost var charged := account;
      status := Failed;
      if ok {
        status := Fill(src, len);
        assert account == charged;
      }
    }

    /** `case MSG_TYPE_JOB_END`: dispatch what was collected, acknowledge, start afresh. */
    method EndJob()
      requires Valid()
      modifies this`effects, this`dataLen
      ensures Valid() && View() == old(View()).(data := [])
      ensures effects == old(effects) + R.EndEffects(deviceId, jobId, old(Contents()))
      ensures old(Contents()) == [] ==> effects == old(effects) + [R.Ack(deviceId, jobId)]
      ensures old(Contents()) != [] ==> effects == old(effects) + [R.Dispatch(deviceId, old(Contents())), R.Ack(deviceId, jobId)]
    {
      ghost var was := effects;
      if dataLen > 0 && data != null {
        effects := effects + [R.Dispatch(deviceId, data[..dataLen])];
      }
      effects := effects + [R.Ack(deviceId, jobId)];
      var none: seq<R.Effect> := [];
      assert none + [R.Ack(deviceId, jobId)] == [R.Ack(deviceId, jobId)];
      assert effects == was + R.EndEffects(deviceId, jobId, Contents());
      dataLen := 0;
    }

    /** `case MSG_TYPE_JOB_DATA` */
    method DataMessage(src: Source, h: Header, memory: bool) returns (status: Status)
      requires Valid() && h.kind == JOB_DATA
      modifies this`data, this`dataLen, this`dataCapacity, this`account, data, src
      ensures Valid() && (data == old(data) || fresh(data))
      ensures status.Fine? ==> Follows(R.ServeBody(old(View()), h, old(src.pending), memory), src, effects)
      ensures status.Overran? ==> R.ServeBody(old(View()), h, old(src.pending), memory).Overrun?
      ensures Benign(old(src.script)) ==> Benign(src.script)
      ensures Benign(old(src.script)) && status.Failed? ==> R.ServeBody(old(View()), h, old(src.pending), memory).Closed?
    {
      assert effects + [] == effects;
      ghost var c, stream := View(), src.pending;
      if h.len == 0 { return Fine; }
      assert R.Needed(c, h.len) == Add32(dataLen, h.len);
      status := ReadData(src, h.len, memory);
      DataOutcome(c, h, stream, memory);
    }

    /** The switch on the message type. */
    method HandleBody(src: Source, h: Header, memory: bool) returns (status: Status)
      requires Valid()
      modifies this`deviceId, this`jobId, this`data, this`dataLen, this`dataCapacity, this`account, this`effects, data, src
      ensures Valid() && (data == old(data) || fresh(data))
      ensures status.Fine? ==> Follows(R.ServeBody(old(View()), h, old(src.pending), memory), src, old(effects))
      ensures !status.Fine? ==> effects == old(effects)
      ensures status.Overran? ==> R.ServeBody(old(View()), h, old(src.pending), memory).Overrun?
      ensures Benign(old(src.script)) ==> Benign(src.script)
      ensures Benign(old(src.script)) && status.Failed? ==> R.ServeBody(old(View()), h, old(src.pending), memory).Closed?
    {
      if h.kind == JOB_START {
        assert effects + [] == effects;
        deviceId, jobId, dataLen := h.device, h.job, 0;
        return Fine;
      } else if h.kind == JOB_DATA {
        status := DataMessage(src, h, memory);
      } else if h.kind == JOB_END {
        EndJob();
        return Fine;
      } else {
        return Failed;
      }
    }

    /** The connection, its stream and its effects are as the outcome says. */
    ghost predicate Follows(o: R.Outcome, src: Source, before: seq<R.Effect>)
      requires Valid()
      reads this, data, src
    {
      o.Served? && View() == o.conn && src.pending == o.rest && effects == before + o.effects
    }

    /** `printer_socket_handle_data`, refining `Serve`: `Fine` is 0 and `Failed` is -1. */
    method HandleData(src: Source, memory: bool) returns (status: Status)
      requires Valid()
      modifies this`deviceId, this`jobId, this`data, this`dataLen, this`dataCapacity, this`account, this`effects, data, src
      ensures Valid() && (data == old(data) || fresh(data))
      ensures status.Fine? ==> Follows(R.Serve(old(View()), old(src.pending), memory), src, old(effects))
      ensures !status.Fine? ==> effects == old(effects)
      ensures status.Overran? ==> R.Serve(old(View()), old(src.pending), memory).Overrun?
      ensures active && Benign(old(src.script)) && status.Failed? ==> R.Serve(old(View()), old(src.pending), memory).Closed?
      ensures Benign(old(src.script)) ==> Benign(src.script)
    {
      if !active { return Failed; }
      var ok, h := ReadHeader(src);
      if !ok { return Failed; }
      status := HandleBody(src, h, memory);
    }
  }

  /** What a DATA message with a payload comes to. */
  lemma DataOutcome(c: R.Conn, h: Header, stream: seq<byte>, memory: bool)
    requires h.kind == JOB_DATA && h.len > 0
    ensures var o, n := R.ServeBody(c, h, stream, memory), R.Needed(c, h.len);
      var granted := Granted(c.account, n, memory);
      var cap := Charge(c.account, n).cap;
      var beyond := |c.data| + h.len > cap && |c.data| + |stream| > cap;
      && (o.Overrun? <==> granted && beyond)
      && (o.Closed? <==> !granted || (!beyond && h.len > |stream|))
      && (o.Served? ==> o == R.Served(R.Conn(c.device, c.job, c.data + stream[..h.len], Charge(c.account, n)), stream[h.len..], []))
  {
  }

  /** The 16 bytes of a header, read into a local struct. */
  method ReadHeader(src: Source) returns (ok: bool, h: Header)
    modifies src
    ensures ok ==> |old(src.pending)| >= 16 && h == DecodeHeader(old(src.pending)) && src.pending == old(src.pending)[16..]
    ensures Benign(old(src.script)) ==> Benign(src.script) && (ok <==> |old(src.pending)| >= 16)
  {
    var hdr := new byte[16](_ => 0);
    var beyond;
    ok, beyond := src.ReadExact(hdr, 0, 16);
    h := DecodeHeader(hdr[..]);
    if ok {
      assert hdr[0..16] == hdr[..];
      assert old(src.pending) == hdr[..] + src.pending;
      HeaderOfFront(hdr[..], src.pending);
    }
  }

  lemma HeaderOfFront(front: seq<byte>, rest: seq<byte>)
    requires |front| == 16
    ensures DecodeHeader(front + rest) == DecodeHeader(front)
  {
    assert forall i, k :: 0 <= i <= k <= 16 ==> (front + rest)[i..k] == front[i..k];
  }
}
