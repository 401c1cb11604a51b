/**
 The eight slots for backend connections. Connections come, are served and go in any order;
 each is served as if it were alone.
 */
module Slots {
  import opened Octets
  import R = Receiver
  import opened Connection

  const MAX_CONNS: nat := 8

  /** `peer` numbers the accepted connections; `rounds` are the calls its session has seen. */
  datatype Slot = Free | Active(fd: int, peer: nat, rounds: seq<R.Round>, session: R.Session)

  datatype Tagged = Tagged(peer: nat, effect: R.Effect)

  /** What `poll` says about one connection; if readable, whether there is memory for its message. */
  datatype Poll = Quiet | Readable(memory: bool) | HungUp

  /** What `accept` brings. */
  datatype Incoming = Peer(fd: int, sock: Source) | NoneWaiting | Failing

  function Actives(slots: seq<Slot>): nat
  {
    if slots == [] then 0 else Actives(slots[..|slots| - 1]) + (if slots[|slots| - 1].Active? then 1 else 0)
  }

  lemma {:induction false} ActivesUpdate(slots: seq<Slot>, i: nat, s: Slot)
    requires i < |slots|
    ensures Actives(slots[i := s]) + (if slots[i].Active? then 1 else 0) == Actives(slots) + (if s.Active? then 1 else 0)
  {
    var n := |slots| - 1;
    if i == n {
      assert slots[i := s][..n] == slots[..n];
    } else {
      ActivesUpdate(slots[..n], i, s);
      assert slots[i := s][..n] == slots[..n][i := s];
    }
  }

  lemma {:induction false} ActivesBound(slots: seq<Slot>)
    ensures Actives(slots) <= |slots|
    ensures Actives(slots) == |slots| <==> forall i :: 0 <= i < |slots| ==> slots[i].Active?
  {
    if slots != [] {
      ActivesBound(slots[..|slots| - 1]);
      assert forall i :: 0 <= i < |slots| - 1 ==> slots[i] == slots[..|slots| - 1][i];
    }
  }

  function Tag(peer: nat, effects: seq<R.Effect>): (r: seq<Tagged>)
    ensures |r| == |effects| && forall i :: 0 <= i < |r| ==> r[i] == Tagged(peer, effects[i])
  {
    if effects == [] then [] else Tag(peer, effects[..|effects| - 1]) + [Tagged(peer, effects[|effects| - 1])]
  }

  /** The effects of one connection in the history of all. */
  function Own(log: seq<Tagged>, peer: nat): seq<R.Effect>
  {
    if log == [] then []
    else Own(log[..|log| - 1], peer) + (var t := log[|log| - 1]; if t.peer == peer then [t.effect] else [])
  }

  lemma {:induction false} OwnConcat(a: seq<Tagged>, b: seq<Tagged>, peer: nat)
    ensures Own(a + b, peer) == Own(a, peer) + Own(b, peer)
  {
    if b == [] {
      assert a + b == a;
    } else {
      assert (a + b)[..|a + b| - 1] == a + b[..|b| - 1];
      OwnConcat(a, b[..|b| - 1], peer);
    }
  }

  lemma {:induction false} OwnOfTag(p: nat, effects: seq<R.Effect>, peer: nat)
    ensures Own(Tag(p, effects), peer) == if p == peer then effects else []
  {
    if effects != [] {
      var before := effects[..|effects| - 1];
      OwnOfTag(p, before, peer);
      assert Tag(p, effects)[..|effects| - 1] == Tag(p, before);
      assert effects == before + [effects[|effects| - 1]];
    }
  }

  lemma {:induction false} OwnAppend(log: seq<Tagged>, p: nat, effects: seq<R.Effect>, peer: nat)
    ensures Own(log + Tag(p, effects), peer) == if p == peer then Own(log, peer) + effects else Own(log, peer)
  {
    OwnConcat(log, Tag(p, effects), peer);
    OwnOfTag(p, effects, peer);
  }

  lemma {:induction false} OwnNone(log: seq<Tagged>, peer: nat)
    requires forall t :: t in log ==> t.peer != peer
    ensures Own(log, peer) == []
  {
    if log != [] { OwnNone(log[..|log| - 1], peer); }
  }

  ghost predicate HeldIn(slots: seq<Slot>, p: nat)
  {
    exists i :: 0 <= i < |slots| && slots[i].Active? && slots[i].peer == p
  }

  /** The slots by `fd`, in order, at most `max` of them. */
  function Fds(slots: seq<Slot>, max: nat): seq<int>
  {
    if slots == [] then []
    else
      var before := Fds(slots[..|slots| - 1], max);
      if slots[|slots| - 1].Active? && |before| < max then before + [slots[|slots| - 1].fd] else before
  }

  lemma {:induction false} FdsLength(s: seq<Slot>, max: nat)
    ensures |Fds(s, max)| == if Actives(s) < max then Actives(s) else max
  {
    if s != [] { FdsLength(s[..|s| - 1], max); }
  }

  lemma {:induction false} FdsFull(s: seq<Slot>, i: nat, max: nat)
    requires i <= |s| && (|Fds(s[..i], max)| >= max || i == |s|)
    ensures Fds(s, max) == Fds(s[..i], max)
  {
    if i < |s| {
      assert s[..|s| - 1][..i] == s[..i];
      FdsFull(s[..|s| - 1], i, max);
    } else {
      assert s[..i] == s;
    }
  }

  /** The descriptor of an active slot comes after those of the active slots before it, if there is room. */
  lemma {:induction false} FdsAt(s: seq<Slot>, max: nat, i: nat)
    requires i < |s| && s[i].Active? && Actives(s[..i]) < max
    ensures Actives(s[..i]) < |Fds(s, max)| && Fds(s, max)[Actives(s[..i])] == s[i].fd
  {
    var before := s[..|s| - 1];
    if i < |before| {
      assert before[..i] == s[..i];
      FdsAt(before, max, i);
    } else {
      FdsLength(before, max);
    }
  }

  lemma {:induction false} FdsNext(s: seq<Slot>, i: nat, max: nat)
    requires i < |s| && |Fds(s[..i], max)| < max
    ensures Fds(s[..i + 1], max) == Fds(s[..i], max) + if s[i].Active? then [s[i].fd] else []
  {
    assert s[..i + 1][..i] == s[..i];
  }

  /** Every accepted connection is in exactly one slot, or over; `n` have been accepted. */
  ghost predicate Shape(slots: seq<Slot>, count: nat, n: nat, past: set<nat>)
  {
    && |slots| == MAX_CONNS && count == Actives(slots)
    && (forall i :: 0 <= i < |slots| && slots[i].Active? ==> slots[i].peer < n && slots[i].peer !in past)
    && (forall i, k :: 0 <= i < k < |slots| && slots[i].Active? && slots[k].Active? ==> slots[i].peer != slots[k].peer)
    && (forall p: nat :: p < n ==> p in past || HeldIn(slots, p))
    && (forall p :: p in past ==> p < n)
  }

  /** A slot's connection has been served as if alone. */
  ghost predicate SlotOk(s: Slot, log: seq<Tagged>, streams: seq<seq<byte>>)
  {
    s.Active? ==>
      && s.peer < |streams| && s.session.alive
      && s.session == R.Receive(streams[s.peer], s.rounds)
      && Own(log, s.peer) == s.session.effects
  }

  ghost predicate PastOk(p: nat, rounds: seq<R.Round>, log: seq<Tagged>, streams: seq<seq<byte>>)
  {
    p < |streams| && Own(log, p) == R.Receive(streams[p], rounds).effects
  }

  ghost predicate Histories(slots: seq<Slot>, log: seq<Tagged>, streams: seq<seq<byte>>, past: map<nat, seq<R.Round>>)
  {
    && (forall i :: 0 <= i < |slots| ==> SlotOk(slots[i], log, streams))
    && (forall p :: p in past ==> PastOk(p, past[p], log, streams))
    && (forall t :: t in log ==> t.peer < |streams|)
  }

  lemma {:induction false} ShapeReplaced(slots: seq<Slot>, count: nat, n: nat, past: set<nat>, i: nat, s: Slot)
    requires Shape(slots, count, n, past) && i < MAX_CONNS
    requires slots[i].Active? && s.Active? && s.peer == slots[i].peer
    ensures Shape(slots[i := s], count, n, past)
  {
    ActivesUpdate(slots, i, s);
    forall p: nat | p < n && p !in past ensures HeldIn(slots[i := s], p) {
      var k :| 0 <= k < |slots| && slots[k].Active? && slots[k].peer == p;
      assert slots[i := s][k].peer == p;
    }
  }

  lemma {:induction false} ShapeFreed(slots: seq<Slot>, count: nat, n: nat, past: set<nat>, i: nat)
    requires Shape(slots, count, n, past) && i < MAX_CONNS && slots[i].Active?
    ensures count > 0 && Shape(slots[i := Free], count - 1, n, past + {slots[i].peer})
  {
    ActivesUpdate(slots, i, Free);
    forall p: nat | p < n && p !in past && p != slots[i].peer ensures HeldIn(slots[i := Free], p) {
      var k :| 0 <= k < |slots| && slots[k].Active? && slots[k].peer == p;
      assert slots[i := Free][k].peer == p;
    }
  }

  lemma {:induction false} ShapeAdded(slots: seq<Slot>, count: nat, n: nat, past: set<nat>, i: nat, s: Slot)
    requires Shape(slots, count, n, past) && i < MAX_CONNS && slots[i].Free? && s.Active? && s.peer == n
    ensures Shape(slots[i := s], count + 1, n + 1, past)
  {
    ActivesUpdate(slots, i, s);
    forall p: nat | p < n + 1 && p !in past ensures HeldIn(slots[i := s], p) {
      if p == n { assert slots[i := s][i].peer == p; }
      else {
        var k :| 0 <= k < |slots| && slots[k].Active? && slots[k].peer == p;
        assert slots[i := s][k].peer == p;
      }
    }
  }

  lemma {:induction false} SlotFrame(x: Slot, log: seq<Tagged>, streams: seq<seq<byte>>, p: nat, effects: seq<R.Effect>)
    requires SlotOk(x, log, streams) && (x.Active? ==> x.peer != p)
    ensures SlotOk(x, log + Tag(p, effects), streams)
  {
    if x.Active? { OwnAppend(log, p, effects, x.peer); }
  }

  lemma {:induction false} SlotServed(s: Slot, log: seq<Tagged>, streams: seq<seq<byte>>, round: R.Round)
    requires s.Active? && SlotOk(s, log, streams) && R.Advance(s.session, round).alive
    ensures var next := R.Advance(s.session, round);
      SlotOk(Active(s.fd, s.peer, s.rounds + [round], next), log + Tag(s.peer, next.effects[|s.session.effects|..]), streams)
  {
    var next := R.Advance(s.session, round);
    OwnAppend(log, s.peer, next.effects[|s.session.effects|..], s.peer);
    R.ReceiveMore(streams[s.peer], s.rounds, round);
  }

  /** Serving one connection leaves the histories of the others as they are. */
  lemma {:induction false} HistoriesServed(slots: seq<Slot>, count: nat, log: seq<Tagged>, streams: seq<seq<byte>>,
                                           past: map<nat, seq<R.Round>>, i: nat, round: R.Round)
    requires Shape(slots, count, |streams|, past.Keys) && Histories(slots, log, streams, past)
    requires i < |slots| && slots[i].Active? && R.Advance(slots[i].session, round).alive
    ensures var s := slots[i]; var next := R.Advance(s.session, round);
      Histories(slots[i := Active(s.fd, s.peer, s.rounds + [round], next)],
                log + Tag(s.peer, next.effects[|s.session.effects|..]), streams, past)
  {
    var s := slots[i];
    var next := R.Advance(s.session, round);
    var delta := next.effects[|s.session.effects|..];
    SlotServed(s, log, streams, round);
    forall k | 0 <= k < |slots| && k != i ensures SlotOk(slots[k], log + Tag(s.peer, delta), streams) {
      SlotFrame(slots[k], log, streams, s.peer, delta);
    }
    forall p | p in past ensures PastOk(p, past[p], log + Tag(s.peer, delta), streams) {
      assert PastOk(p, past[p], log, streams);
      OwnAppend(log, s.peer, delta, p);
    }
  }

  /** A connection just accepted has its own stream and no effects yet. */
  lemma {:induction false} HistoriesAdded(slots: seq<Slot>, log: seq<Tagged>, streams: seq<seq<byte>>,
                                          past: map<nat, seq<R.Round>>, i: nat, s: Slot, stream: seq<byte>)
    requires Histories(slots, log, streams, past) && i < |slots|
    requires s.Active? && s.peer == |streams| && s.rounds == [] && s.session == R.Receive(stream, [])
    ensures Histories(slots[i := s], log, streams + [stream], past)
  {
    OwnNone(log, |streams|);
    forall k | 0 <= k < |slots| && k != i ensures SlotOk(slots[k], log, streams + [stream]) {
      assert SlotOk(slots[k], log, streams);
    }
    forall p | p in past ensures PastOk(p, past[p], log, streams + [stream]) { assert PastOk(p, past[p], log, streams); }
  }

  /** A connection that is over leaves its history. */
  lemma {:induction false} HistoriesFreed(slots: seq<Slot>, log: seq<Tagged>, streams: seq<seq<byte>>,
                                          past: map<nat, seq<R.Round>>, i: nat)
    requires Histories(slots, log, streams, past) && i < |slots| && slots[i].Active?
    ensures var past' := past[slots[i].peer := slots[i].rounds];
      past'.Keys == past.Keys + {slots[i].peer} && Histories(slots[i := Free], log, streams, past')
  {
    assert SlotOk(slots[i], log, streams);
    forall k | 0 <= k < |slots| && k != i ensures SlotOk(slots[k], log, streams) {}
  }

  lemma {:induction false} NoActives(s: seq<Slot>)
    requires forall i :: 0 <= i < |s| ==> s[i] == Free
    ensures Actives(s) == 0
  {
    if s != [] { NoActives(s[..|s| - 1]); }
  }

  // The abstract table

  /**
   The slots, the dispatches and acknowledgements as they happened, what each accepted peer
   sends, and the calls of the connections that are over.
   */
  datatype Book = Book(slots: seq<Slot>, log: seq<Tagged>, streams: seq<seq<byte>>, past: map<nat, seq<R.Round>>)

  ghost predicate BookOk(b: Book)
  {
    Shape(b.slots, Actives(b.slots), |b.streams|, b.past.Keys) && Histories(b.slots, b.log, b.streams, b.past)
  }

  /** A connection accepted into slot `i`. */
  function Opened(b: Book, i: nat, fd: int, stream: seq<byte>): Book
    requires i < |b.slots|
  {
    b.(slots := b.slots[i := Active(fd, |b.streams|, [], R.Receive(stream, []))], streams := b.streams + [stream])
  }

  predicate InUse(b: Book, i: nat)
  {
    i < |b.slots| && b.slots[i].Active?
  }

  /** A slot after a call whose reads all succeed. */
  function ServedSlot(s: Slot, memory: bool): Slot
    requires s.Active?
  {
    var round := R.Round(memory, false);
    Active(s.fd, s.peer, s.rounds + [round], R.Advance(s.session, round))
  }

  /** The session of slot `i` after one more call. */
  function Next(b: Book, i: nat, memory: bool): R.Session
    requires InUse(b, i)
  {
    ServedSlot(b.slots[i], memory).session
  }

  /** A call on slot `i` that succeeds. */
  function Served(b: Book, i: nat, memory: bool): Book
    requires InUse(b, i)
  {
    var s, next := b.slots[i], Next(b, i, memory);
    b.(slots := b.slots[i := ServedSlot(s, memory)],
       log := b.log + Tag(s.peer, next.effects[|s.session.effects|..]))
  }

  /** The connection of slot `i` is over; its effects stand. */
  function Over(b: Book, i: nat): Book
    requires InUse(b, i)
  {
    b.(slots := b.slots[i := Free], past := b.past[b.slots[i].peer := b.slots[i].rounds])
  }

  lemma {:induction false} OpenedOk(b: Book, i: nat, fd: int, stream: seq<byte>)
    requires BookOk(b) && i < MAX_CONNS && b.slots[i].Free?
    ensures BookOk(Opened(b, i, fd, stream)) && Actives(Opened(b, i, fd, stream).slots) == Actives(b.slots) + 1
  {
    var s := Active(fd, |b.streams|, [], R.Receive(stream, []));
    ShapeAdded(b.slots, Actives(b.slots), |b.streams|, b.past.Keys, i, s);
    HistoriesAdded(b.slots, b.log, b.streams, b.past, i, s, stream);
  }

  lemma {:induction false} ServedOk(b: Book, i: nat, memory: bool)
    requires BookOk(b) && InUse(b, i) && Next(b, i, memory).alive
    ensures BookOk(Served(b, i, memory)) && Actives(Served(b, i, memory).slots) == Actives(b.slots)
  {
    HistoriesServed(b.slots, Actives(b.slots), b.log, b.streams, b.past, i, R.Round(memory, false));
    ShapeReplaced(b.slots, Actives(b.slots), |b.streams|, b.past.Keys, i, Served(b, i, memory).slots[i]);
  }

  lemma {:induction false} OverOk(b: Book, i: nat)
    requires BookOk(b) && InUse(b, i)
    ensures BookOk(Over(b, i)) && Actives(Over(b, i).slots) == Actives(b.slots) - 1
  {
    ShapeFreed(b.slots, Actives(b.slots), |b.streams|, b.past.Keys, i);
    HistoriesFreed(b.slots, b.log, b.streams, b.past, i);
  }

  /**
   Every dispatch and acknowledgement of every connection, open or over, is what that
   connection's own stream calls for: its whole messages, all or nothing.
   */
  lemma {:induction false} EachAsIfAlone(b: Book, peer: nat)
    requires BookOk(b) && peer < |b.streams|
    ensures exists rounds :: Own(b.log, peer) == R.Expected(R.Receive(b.streams[peer], rounds).handled)
  {
    var rounds: seq<R.Round>;
    if peer in b.past {
      assert PastOk(peer, b.past[peer], b.log, b.streams);
      rounds := b.past[peer];
    } else {
      assert HeldIn(b.slots, peer);
      var i :| 0 <= i < |b.slots| && b.slots[i].Active? && b.slots[i].peer == peer;
      assert SlotOk(b.slots[i], b.log, b.streams);
      rounds := b.slots[i].rounds;
    }
    R.AllOrNothing(b.streams[peer], rounds);
    assert Own(b.log, peer) == R.Expected(R.Receive(b.streams[peer], rounds).handled);
  }

  lemma SessionAlive(b: Book, i: nat)
    requires BookOk(b) && InUse(b, i)
    ensures b.slots[i].session.alive
  {
    assert SlotOk(b.slots[i], b.log, b.streams);
  }

  /** A pass over slot `i`: `alive` says whether its call, if it had one, succeeded. */
  function Checked(b: Book, i: nat, poll: Poll, alive: bool): Book
  {
    if !InUse(b, i) || poll.Quiet? then b
    else if poll.Readable? && alive then Served(b, i, poll.memory)
    else Over(b, i)
  }

  /** A pass over the first slots, one after the other. */
  function Pass(b: Book, polls: seq<Poll>, alive: seq<bool>): (r: Book)
    requires |polls| == |alive|
    ensures |r.slots| == |b.slots| && r.streams == b.streams
  {
    if polls == [] then b
    else
      var n := |polls| - 1;
      Checked(Pass(b, polls[..n], alive[..n]), n, polls[n], alive[n])
  }

  /** What a pass makes of one slot does not depend on the others. */
  lemma {:induction false} TurnOf(b: Book, polls: seq<Poll>, alive: seq<bool>, i: nat)
    requires |polls| == |alive| && i < |b.slots|
    ensures Pass(b, polls, alive).slots[i] == if i < |polls| then Checked(b, i, polls[i], alive[i]).slots[i] else b.slots[i]
  {
    if polls != [] {
      var n := |polls| - 1;
      TurnOf(b, polls[..n], alive[..n], i);
    }
  }

  /**
   Every slot gets its own turn, whatever happens to the others: free or quiet it stays as it is,
   hung up or after a failed call it is freed, and a call that succeeds is one more round.
   */
  lemma {:induction false} OwnTurn(b: Book, polls: seq<Poll>, alive: seq<bool>)
    requires |polls| == |alive| == |b.slots|
    ensures var s := Pass(b, polls, alive).slots;
      && (forall k :: 0 <= k < |b.slots| && (b.slots[k] == Free || polls[k] == Quiet) ==> s[k] == b.slots[k])
      && (forall k :: 0 <= k < |b.slots| && b.slots[k] != Free && (polls[k] == HungUp || (polls[k].Readable? && !alive[k])) ==>
            s[k] == Free)
      && (forall k :: 0 <= k < |b.slots| && b.slots[k] != Free && polls[k].Readable? && alive[k] ==>
            var was, round := b.slots[k], R.Round(polls[k].memory, false);
            s[k] == Active(was.fd, was.peer, was.rounds + [round], R.Advance(was.session, round)))
  {
    forall k | 0 <= k < |b.slots| ensures Pass(b, polls, alive).slots[k] == Checked(b, k, polls[k], alive[k]).slots[k] {
      TurnOf(b, polls, alive, k);
    }
  }

  lemma {:induction false} PassSnoc(b: Book, polls: seq<Poll>, alive: seq<bool>, n: nat, a: bool)
    requires n == |alive| < |polls|
    ensures Pass(b, polls[..n + 1], alive + [a]) == Checked(Pass(b, polls[..n], alive), n, polls[n], a)
  {
    assert polls[..n + 1][..n] == polls[..n] && (alive + [a])[..n] == alive;
  }

  /**
   The verdict on a readable slot: it stays only if its session's next call succeeds, and if its
   reads are calm, exactly then.
   */
  predicate Judged(b: Book, k: nat, poll: Poll, calm: bool, alive: bool)
  {
    InUse(b, k) && poll.Readable? ==>
      (alive ==> Next(b, k, poll.memory).alive) && (calm ==> (alive <==> Next(b, k, poll.memory).alive))
  }

  ghost predicate JudgedUpTo(b: Book, n: nat, polls: seq<Poll>, calm: seq<bool>, alive: seq<bool>)
  {
    n <= |polls| && n <= |calm| && n <= |alive| && forall k :: 0 <= k < n ==> Judged(b, k, polls[k], calm[k], alive[k])
  }

  /** One more slot of a pass. */
  lemma {:induction false} PassedNext(b0: Book, b: Book, polls: seq<Poll>, calm: seq<bool>, alive: seq<bool>, i: nat, a: bool)
    requires i == |alive| < |polls| == |b0.slots| && i < |calm|
    requires b == Pass(b0, polls[..i], alive) && JudgedUpTo(b0, i, polls, calm, alive) && Judged(b, i, polls[i], calm[i], a)
    ensures Checked(b, i, polls[i], a) == Pass(b0, polls[..i + 1], alive + [a])
    ensures JudgedUpTo(b0, i + 1, polls, calm, alive + [a])
  {
    TurnOf(b0, polls[..i], alive, i);
    PassSnoc(b0, polls, alive, i, a);
    assert Judged(b0, i, polls[i], calm[i], a);
  }

  /** No two places hold the same object. */
  ghost predicate NoShare<T>(s: seq<T>, none: T)
  {
    forall i, k :: 0 <= i < k < |s| && s[i] != none ==> s[i] != s[k]
  }

  lemma {:induction false} NoShareUpdate<T>(s: seq<T>, none: T, i: nat, x: T)
    requires NoShare(s, none) && i < |s| && (x == none || x == s[i] || x !in s)
    ensures NoShare(s[i := x], none)
  {
  }

  /** A connection in place, with its buffer and its socket, is the abstract slot. */
  ghost predicate Mirrored(c: BackendConn, buf: array?<byte>, sock: Source?, s: Slot)
    reads c, buf, sock
  {
    && c.data == buf && c.Valid()
    && (c.active <==> s.Active?)
    && (s.Active? ==>
          && sock != null && c.fd == s.fd
          && c.View() == s.session.conn && sock.pending == s.session.rest && c.effects == s.session.effects)
  }

  /** A connection whose call went as the specification says is the slot served. */
  lemma {:induction false} FollowsMirrors(c: BackendConn, sock: Source, s: Slot, memory: bool)
    requires s.Active? && s.session.alive && c.Valid() && c.active && c.fd == s.fd
    requires c.Follows(R.Serve(s.session.conn, s.session.rest, memory), sock, s.session.effects)
    ensures ServedSlot(s, memory).session.alive && Mirrored(c, c.data, sock, ServedSlot(s, memory))
  {
  }

  /** A call on one connection that mirrors a slot. */
  method ServeConn(c: BackendConn, sock: Source, ghost s: Slot, memory: bool) returns (status: Status)
    requires s.Active? && s.session.alive && Mirrored(c, c.data, sock, s)
    modifies c, c.data, sock
    ensures c.data == null || c.data == old(c.data) || fresh(c.data)
    ensures status.Fine? ==> ServedSlot(s, memory).session.alive && Mirrored(c, c.data, sock, ServedSlot(s, memory))
    ensures old(Benign(sock.script)) && !status.Fine? ==> !ServedSlot(s, memory).session.alive
  {
    status := c.HandleData(sock, memory);
    if status.Fine? { FollowsMirrors(c, sock, s, memory); }
  }

  /** `g_conns` and `g_conn_count`: eight connections in place, each with its own buffer and socket. */
  class ConnTable {
    const conns: seq<BackendConn>
    var socks: seq<Source?>            // the sockets behind the descriptors
    var count: nat                     // g_conn_count
    ghost var bufs: seq<array?<byte>>  // the buffers
    ghost var book: Book

    ghost predicate Distinct()
    {
      |conns| == MAX_CONNS && forall i, k :: 0 <= i < k < MAX_CONNS ==> conns[i] != conns[k]
    }

    /** The connections in place and the abstract table agree, but for the slot `hole`; nothing is shared. */
    ghost predicate InPlace(hole: int)
      reads this`socks, this`bufs, this`book, conns, bufs, socks
    {
      && Distinct() && |socks| == |bufs| == |book.slots| == MAX_CONNS
      && NoShare(bufs, null) && NoShare(socks, null)
      && forall i :: 0 <= i < MAX_CONNS && i != hole ==> Mirrored(conns[i], bufs[i], socks[i], book.slots[i])
    }

    ghost predicate Valid()
      reads this, conns, bufs, socks
    {
      InPlace(-1) && BookOk(book) && count == Actives(book.slots)
    }

    /** Only slot `i` may have got another buffer or socket. */
    ghost predicate OthersStay(i: nat, oldBufs: seq<array?<byte>>, oldSocks: seq<Source?>)
      reads this`bufs, this`socks
    {
      && |bufs| == |oldBufs| && |socks| == |oldSocks|
      && (forall k :: 0 <= k < |bufs| && k != i ==> bufs[k] == oldBufs[k])
      && (forall k :: 0 <= k < |socks| && k != i ==> socks[k] == oldSocks[k])
    }

    /** `printer_socket_init` */
    constructor ()
      ensures Valid() && count == 0 && book == Book(seq(8, _ => Free), [], [], map[])
      ensures forall c :: c in conns ==> fresh(c)
    {
      var cs: seq<BackendConn> := [];
      while |cs| < MAX_CONNS
        invariant |cs| <= MAX_CONNS
        invariant forall i :: 0 <= i < |cs| ==> fresh(cs[i]) && Mirrored(cs[i], null, null, Free)
        invariant forall i, k :: 0 <= i < k < |cs| ==> cs[i] != cs[k]
      {
        var c := new BackendConn();
        cs := cs + [c];
      }
      conns := cs;
      socks, bufs := seq(MAX_CONNS, _ => null), seq(MAX_CONNS, _ => null);
      count, book := 0, Book(seq(MAX_CONNS, _ => Free), [], [], map[]);
      new;
      NoActives(book.slots);
    }

    /** `memset` of one slot. */
    method Clear(i: nat)
      requires i < MAX_CONNS && InPlace(i) && InUse(book, i)
      modifies this`book, this`bufs, this`socks, conns[i]
      ensures InPlace(-1) && book == Over(old(book), i) && OthersStay(i, old(bufs), old(socks))
    {
      NoShareUpdate(bufs, null, i, null);
      NoShareUpdate(socks, null, i, null);
      conns[i].Reset();
      book, bufs, socks := Over(book, i), bufs[i := null], socks[i := null];
      forall k | 0 <= k < MAX_CONNS ensures Mirrored(conns[k], bufs[k], socks[k], book.slots[k]) {
        if k != i { assert old(Mirrored(conns[k], bufs[k], socks[k], book.slots[k])); }
      }
    }

    /** The call itself: the other slots stay in place, this one awaits its entry in the book. */
    method Call(i: nat, memory: bool) returns (status: Status)
      requires i < MAX_CONNS && InPlace(-1) && InUse(book, i) && book.slots[i].session.alive
      modifies this`bufs, conns[i], bufs[i], socks[i]
      ensures InPlace(i) && OthersStay(i, old(bufs), socks)
      ensures status.Fine? ==>
                Next(book, i, memory).alive && Mirrored(conns[i], bufs[i], socks[i], ServedSlot(book.slots[i], memory))
      ensures old(Benign(socks[i].script)) && !status.Fine? ==> !Next(book, i, memory).alive
    {
      assert Mirrored(conns[i], bufs[i], socks[i], book.slots[i]);
      status := ServeConn(conns[i], socks[i], book.slots[i], memory);
      NoShareUpdate(bufs, null, i, conns[i].data);
      bufs := bufs[i := conns[i].data];
      forall k | 0 <= k < MAX_CONNS && k != i ensures Mirrored(conns[k], bufs[k], socks[k], book.slots[k]) {
        assert old(Mirrored(conns[k], bufs[k], socks[k], book.slots[k]));
      }
    }

    /** `printer_socket_handle_data` on one connection in place: it works on its own buffer and socket only. */
    method CallInPlace(i: nat, memory: bool) returns (status: Status)
      requires i < MAX_CONNS && InPlace(-1) && InUse(book, i) && book.slots[i].session.alive
      modifies this`book, this`bufs, conns[i], bufs[i], socks[i]
      ensures InPlace(if status.Fine? then -1 else i) && OthersStay(i, old(bufs), old(socks))
      ensures book == if status.Fine? then Served(old(book), i, memory) else old(book)
      ensures status.Fine? ==> Next(old(book), i, memory).alive
      ensures old(Benign(socks[i].script)) && !status.Fine? ==> !Next(old(book), i, memory).alive
    {
      status := Call(i, memory);
      if status.Fine? { book := Served(book, i, memory); }
    }

    /** A connection in place just accepted. */
    method OpenInPlace(i: nat, fd: int, sock: Source)
      requires i < MAX_CONNS && InPlace(-1) && sock !in socks && book.slots[i].Free?
      modifies this`book, this`bufs, this`socks, conns[i]
      ensures InPlace(-1) && socks == old(socks)[i := sock] && book == Opened(old(book), i, fd, sock.pending)
    {
      NoShareUpdate(bufs, null, i, null);
      NoShareUpdate(socks, null, i, sock);
      conns[i].Open(fd);
      socks, bufs := socks[i := sock], bufs[i := null];
      book := Opened(book, i, fd, sock.pending);
      forall k | 0 <= k < MAX_CONNS ensures Mirrored(conns[k], bufs[k], socks[k], book.slots[k]) {
        if k != i { assert old(Mirrored(conns[k], bufs[k], socks[k], book.slots[k])); }
      }
    }

    /** `find_free_slot`: the first one, or -1. */
    method FindFree() returns (at: int)
      requires InPlace(-1)
      ensures -1 <= at < MAX_CONNS
      ensures at >= 0 ==> book.slots[at].Free? && forall i :: 0 <= i < at ==> book.slots[i].Active?
      ensures at < 0 <==> Actives(book.slots) == MAX_CONNS
    {
      ActivesBound(book.slots);
      var i := 0;
      while i < MAX_CONNS
        invariant 0 <= i <= MAX_CONNS
        invariant forall k :: 0 <= k < i ==> book.slots[k].Active?
      {
        assert Mirrored(conns[i], bufs[i], socks[i], book.slots[i]);
        if !conns[i].active { return i; }
        i := i + 1;
      }
      return -1;
    }

    /** `printer_socket_accept`: the next connection enters the first free slot; a ninth is turned away. */
    method Accept(incoming: Incoming) returns (rc: int, ghost at: int)
      requires Valid() && (incoming.Peer? ==> incoming.sock !in socks)
      modifies this, conns
      ensures Valid() && rc == if incoming.Failing? then -1 else 0
      ensures -1 <= at < MAX_CONNS && (at < 0 <==> !incoming.Peer? || old(count) == 8)
      ensures at >= 0 ==> old(book).slots[at].Free? && forall i :: 0 <= i < at ==> old(book).slots[i].Active?
      ensures at < 0 ==> book == old(book)
      ensures at >= 0 ==>
                var session := R.Session(R.FRESH, incoming.sock.pending, [], [], true);
                && book.slots == old(book).slots[at := Active(incoming.fd, |old(book).streams|, [], session)]
                && book.streams == old(book).streams + [incoming.sock.pending]
                && book.log == old(book).log && book.past == old(book).past
    {
      match incoming
      case NoneWaiting => return 0, -1;
      case Failing => return -1, -1;
      case Peer(fd, sock) =>
        var slot := FindFree();
        if slot >= 0 {
          OpenedOk(book, slot, fd, sock.pending);
          OpenInPlace(slot, fd, sock);
          count := count + 1;
        }
        return 0, slot;
    }

    /** `close_conn`: the slot is free again, and its connection's effects stand. */
    method CloseConn(i: nat)
      requires i < MAX_CONNS && InPlace(i) && BookOk(book) && count == Actives(book.slots) && InUse(book, i)
      modifies this, conns[i]
      ensures Valid() && book == Over(old(book), i) && OthersStay(i, old(bufs), old(socks))
      ensures book.slots == old(book).slots[i := Free] && book.streams == old(book).streams && book.log == old(book).log
      ensures book.past == old(book).past[old(book).slots[i].peer := old(book).slots[i].rounds]
    {
      OverOk(book, i);
      Clear(i);
      count := count - 1;
    }

    /** A readable connection's turn: served, or closed if the call fails. */
    method HandleSlot(i: nat, memory: bool) returns (alive: bool)
      requires Valid() && InUse(book, i)
      modifies this, conns[i], bufs[i], socks[i]
      ensures Valid() && OthersStay(i, old(bufs), old(socks))
      ensures book == if alive then Served(old(book), i, memory) else Over(old(book), i)
      ensures alive ==> Next(old(book), i, memory).alive
      ensures old(Benign(socks[i].script)) ==> (alive <==> Next(old(book), i, memory).alive)
    {
      alive := Serve(i, memory);
      if !alive { CloseConn(i); }
    }

    /** The call itself; after a failure the slot awaits closing. */
    method Serve(i: nat, memory: bool) returns (alive: bool)
      requires Valid() && InUse(book, i)
      modifies this`book, this`bufs, conns[i], bufs[i], socks[i]
      ensures InPlace(if alive then -1 else i) && BookOk(book) && count == Actives(book.slots)
      ensures OthersStay(i, old(bufs), old(socks))
      ensures book == if alive then Served(old(book), i, memory) else old(book)
      ensures alive ==> Next(old(book), i, memory).alive
      ensures old(Benign(socks[i].script)) ==> (alive <==> Next(old(book), i, memory).alive)
    {
      SessionAlive(book, i);
      ghost var was := book;
      var status := CallInPlace(i, memory);
      alive := status.Fine?;
      if alive { ServedOk(was, i, memory); }
    }

    /** One slot's turn in the loop of `printer_socket_check_all`. */
    method Turn(i: nat, poll: Poll) returns (ghost alive: bool)
      requires Valid() && i < MAX_CONNS
      modifies this, conns[i], bufs[i], socks[i]
      ensures Valid() && book == Checked(old(book), i, poll, alive) && OthersStay(i, old(bufs), old(socks))
      ensures Judged(old(book), i, poll, old(Calm(i)), alive)
    {
      alive := true;
      assert Mirrored(conns[i], bufs[i], socks[i], book.slots[i]);
      if !conns[i].active { return; }
      match poll
      case Quiet =>
      case HungUp => CloseConn(i);
      case Readable(memory) => alive := HandleSlot(i, memory);
    }

    /** A slot's turn leaves the other sockets alone. */
    method CheckSlot(i: nat, poll: Poll) returns (ghost alive: bool)
      requires Valid() && i < MAX_CONNS
      modifies this, conns[i], bufs[i], socks[i]
      ensures Valid() && book == Checked(old(book), i, poll, alive) && OthersStay(i, old(bufs), old(socks))
      ensures Judged(old(book), i, poll, old(Calm(i)), alive)
      ensures forall k :: 0 <= k < MAX_CONNS && k != i ==> Calm(k) == old(Calm(k))
    {
      assert forall k :: 0 <= k < MAX_CONNS && k != i && socks[k] != null ==> socks[k] != socks[i];
      alive := Turn(i, poll);
    }

    /** The reads from the socket of slot `i` will not fail while bytes come. */
    ghost predicate Calm(i: nat)
      reads this`socks, socks
    {
      i < |socks| && socks[i] != null && Benign(socks[i].script)
    }

    /** The slots from `i` on have the buffers and sockets they had. */
    ghost predicate Unvisited(i: nat, oldBufs: seq<array?<byte>>, oldSocks: seq<Source?>)
      reads this`bufs, this`socks
    {
      && |bufs| == |oldBufs| && |socks| == |oldSocks|
      && (forall k :: i <= k < |bufs| ==> bufs[k] == oldBufs[k])
      && (forall k :: i <= k < |socks| ==> socks[k] == oldSocks[k])
    }

    /**
     `printer_socket_check_all`: one turn for every slot. A readable connection stays only if its
     session's next call succeeds, and if its reads do not fail, exactly then.
     */
    method CheckAll(polls: seq<Poll>) returns (ghost alive: seq<bool>)
      requires Valid() && |polls| == MAX_CONNS
      modifies this, conns, bufs, socks
      ensures Valid() && |alive| == MAX_CONNS && book == Pass(old(book), polls, alive)
      ensures forall k :: 0 <= k < 8 ==> Judged(old(book), k, polls[k], old(Calm(k)), alive[k])
      ensures book.streams == old(book).streams
      ensures forall k :: 0 <= k < 8 && (old(book).slots[k] == Free || polls[k] == Quiet) ==> book.slots[k] == old(book).slots[k]
      ensures forall k :: 0 <= k < 8 && old(book).slots[k] != Free && (polls[k] == HungUp || (polls[k].Readable? && !alive[k])) ==>
                book.slots[k] == Free
      ensures forall k :: 0 <= k < 8 && old(book).slots[k] != Free && polls[k].Readable? && alive[k] ==>
                var was, round := old(book).slots[k], R.Round(polls[k].memory, false);
                book.slots[k] == Active(was.fd, was.peer, was.rounds + [round], R.Advance(was.session, round))
    {
      alive := [];
      ghost var calm := seq(MAX_CONNS, k requires 0 <= k => old(Calm(k)));
      var i := 0;
      while i < MAX_CONNS
        invariant 0 <= i <= MAX_CONNS && |alive| == i && Valid()
        invariant Unvisited(i, old(bufs), old(socks))
        invariant forall k :: i <= k < MAX_CONNS ==> Calm(k) == calm[k]
        invariant book == Pass(old(book), polls[..i], alive)
        invariant JudgedUpTo(old(book), i, polls, calm, alive)
      {
        ghost var b := book;
        ghost var a := CheckSlot(i, polls[i]);
        PassedNext(old(book), b, polls, calm, alive, i, a);
        alive := alive + [a];
        i := i + 1;
      }
      assert polls[..i] == polls;
      OwnTurn(old(book), polls, alive);
    }

    /** `printer_socket_get_fds`, with the array as a sequence. */
    method GetFds(max: nat) returns (fds: seq<int>)
      requires Valid()
      ensures fds == Fds(book.slots, max)
      ensures |fds| == if count < max then count else max
    {
      fds := [];
      var i := 0;
      while i < MAX_CONNS && |fds| < max
        invariant 0 <= i <= MAX_CONNS && |fds| <= max
        invariant fds == Fds(book.slots[..i], max)
      {
        assert Mirrored(conns[i], bufs[i], socks[i], book.slots[i]);
        FdsNext(book.slots, i, max);
        if conns[i].active { fds := fds + [conns[i].fd]; }
        i := i + 1;
      }
      FdsFull(book.slots, i, max);
      FdsLength(book.slots, max);
    }
  }
}
