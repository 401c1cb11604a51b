/**
 The whole channel server: connections and engine in one machine, where a dispatch by a
 connection is a job submitted to the engine. Nothing is printed that no backend sent.
 */
module Relay {
  import opened Octets
  import opened Delivery
  import S = SendSpec
  import O = Ownership
  import R = Receiver
  import Growth
  import Backend
  import Completion
  import P = Pipeline

  /** The calls each connection has seen, and the moves the engine has seen. */
  datatype Net = Net(calls: seq<seq<R.Round>>, moves: seq<Move>)

  /** A call on a connection, with memory and IRPs for its dispatch, or a move that submits nothing. */
  datatype Act = Call(peer: nat, round: R.Round, memory: bool, ok: bool) | Other(move: Move)

  predicate Submits(m: Move)
  {
    m.Local? && m.event.Submit?
  }

  /** The effects of a connection so far. */
  function EffectsOf(streams: seq<seq<byte>>, net: Net, p: nat): seq<R.Effect>
    requires p < |streams| && p < |net.calls|
  {
    R.Receive(streams[p], net.calls[p]).effects
  }

  /** What one more call does, by itself. */
  function NewEffects(stream: seq<byte>, calls: seq<R.Round>, round: R.Round): seq<R.Effect>
  {
    var r := R.Receive(stream, calls);
    R.Advance(r, round).effects[|r.effects|..]
  }

  /** `devredir_printer_send_job` for the dispatch of a call, if there is one. */
  function HandOver(effects: seq<R.Effect>, memory: bool, ok: bool): seq<Move>
  {
    if effects != [] && effects[0].Dispatch? && |effects[0].data| < TWO32
    then [Local(S.Submit(effects[0].device, effects[0].data, memory, ok))]
    else []
  }

  function Step(streams: seq<seq<byte>>, net: Net, act: Act): Net
  {
    match act
    case Call(p, round, memory, ok) =>
      if p >= |streams| || p >= |net.calls| then net
      else Net(net.calls[p := net.calls[p] + [round]],
               net.moves + HandOver(NewEffects(streams[p], net.calls[p], round), memory, ok))
    case Other(m) => net.(moves := net.moves + [m])
  }

  function Run(streams: seq<seq<byte>>, acts: seq<Act>): Net
  {
    if acts == [] then Net(seq(|streams|, _ => []), [])
    else Step(streams, Run(streams, acts[..|acts| - 1]), acts[|acts| - 1])
  }

  ghost predicate LegalAct(first: nat, net: Net, act: Act)
  {
    act.Other? ==> !Submits(act.move) && AllLegal(first, net.moves) && Legal(SysRun(first, net.moves), act.move)
  }

  ghost predicate LegalActs(streams: seq<seq<byte>>, first: nat, acts: seq<Act>)
  {
    acts == [] ||
    (LegalActs(streams, first, acts[..|acts| - 1]) &&
     LegalAct(first, Run(streams, acts[..|acts| - 1]), acts[|acts| - 1]))
  }

  // How often a job was handed over

  /** How often the engine was given this job. */
  function Given(moves: seq<Move>, device: u32, data: seq<byte>): nat
  {
    if moves == [] then 0
    else Given(moves[..|moves| - 1], device, data) +
         (var m := moves[|moves| - 1]; if Submits(m) && m.event.device == device && m.event.data == data then 1 else 0)
  }

  /** How often this job is among the dispatches. */
  function Dispatched(effects: seq<R.Effect>, device: u32, data: seq<byte>): nat
  {
    if effects == [] then 0
    else Dispatched(effects[..|effects| - 1], device, data) +
         (if effects[|effects| - 1] == R.Dispatch(device, data) then 1 else 0)
  }

  /** How often connection `p` dispatched this job. */
  function Times(streams: seq<seq<byte>>, net: Net, p: nat, device: u32, data: seq<byte>): nat
    requires p < |streams| == |net.calls|
  {
    Dispatched(EffectsOf(streams, net, p), device, data)
  }

  /** How often the first `n` connections dispatched this job. */
  function DispatchedBy(streams: seq<seq<byte>>, net: Net, n: nat, device: u32, data: seq<byte>): nat
    requires n <= |streams| == |net.calls|
  {
    if n == 0 then 0
    else DispatchedBy(streams, net, n - 1, device, data) + Times(streams, net, n - 1, device, data)
  }

  /** What the engine was given is what the connections dispatched, each job as often. */
  ghost predicate NetOk(streams: seq<seq<byte>>, first: nat, net: Net)
  {
    && |net.calls| == |streams| && AllLegal(first, net.moves)
    && forall device: u32, data: seq<byte> ::
         Given(net.moves, device, data) == DispatchedBy(streams, net, |streams|, device, data)
  }

  /** Only the first of the effects can be a dispatch. */
  ghost predicate OnlyFirst(effects: seq<R.Effect>)
  {
    forall i :: 1 <= i < |effects| ==> !effects[i].Dispatch?
  }

  /** And then it is one of data whose length 32 bits hold. */
  ghost predicate OneDispatch(effects: seq<R.Effect>)
  {
    && OnlyFirst(effects)
    && (effects != [] && effects[0].Dispatch? ==> |effects[0].data| < TWO32)
  }

  /** A call has no effects, or those of one JOB_END for data the buffer held. */
  lemma {:induction false} AdvanceEffects(r: R.Session, round: R.Round)
    requires R.ConnOk(r.conn)
    ensures OneDispatch(R.Advance(r, round).effects[|r.effects|..])
  {
    Growth.FewReallocations(r.conn.account);
    if r.alive && !round.ioFails && R.Serve(r.conn, r.rest, round.memory).Served? {
      R.ServeHandlesFirst(r.conn, r.rest, round.memory);
      assert R.Advance(r, round).effects[|r.effects|..] == R.Serve(r.conn, r.rest, round.memory).effects;
    }
  }

  lemma {:induction false} CallEffects(stream: seq<byte>, calls: seq<R.Round>, round: R.Round)
    ensures var delta := NewEffects(stream, calls, round);
      OneDispatch(delta) && R.Receive(stream, calls + [round]).effects == R.Receive(stream, calls).effects + delta
  {
    R.ReceiveMore(stream, calls, round);
    R.ReceiveIsFaithful(stream, calls);
    AdvanceEffects(R.Receive(stream, calls), round);
  }

  lemma {:induction false} DispatchedAppend(a: seq<R.Effect>, b: seq<R.Effect>, device: u32, data: seq<byte>)
    ensures Dispatched(a + b, device, data) == Dispatched(a, device, data) + Dispatched(b, device, data)
  {
    if b == [] {
      assert a + b == a;
    } else {
      assert (a + b)[..|a + b| - 1] == a + b[..|b| - 1];
      DispatchedAppend(a, b[..|b| - 1], device, data);
    }
  }

  lemma {:induction false} DispatchedFirst(effects: seq<R.Effect>, device: u32, data: seq<byte>)
    requires OnlyFirst(effects)
    ensures Dispatched(effects, device, data) == if effects != [] && effects[0] == R.Dispatch(device, data) then 1 else 0
  {
    if |effects| >= 2 {
      var before := effects[..|effects| - 1];
      assert before[0] == effects[0] && !effects[|effects| - 1].Dispatch?;
      DispatchedFirst(before, device, data);
    } else if |effects| == 1 {
      assert effects[..0] == [];
    }
  }

  /** What a call hands over is what it dispatches. */
  lemma {:induction false} HandOverGives(moves: seq<Move>, delta: seq<R.Effect>, memory: bool, ok: bool, device: u32, data: seq<byte>)
    requires OneDispatch(delta)
    ensures Given(moves + HandOver(delta, memory, ok), device, data) == Given(moves, device, data) + Dispatched(delta, device, data)
  {
    DispatchedFirst(delta, device, data);
    var more := HandOver(delta, memory, ok);
    if more == [] {
      assert moves + more == moves;
    } else {
      assert (moves + more)[..|moves|] == moves && (moves + more)[|moves|] == more[0];
    }
  }

  /** From `net` to `next` only connection `p` has new effects. */
  ghost predicate CalledOne(streams: seq<seq<byte>>, net: Net, next: Net, p: nat, delta: seq<R.Effect>)
  {
    && p < |streams| == |net.calls| == |next.calls|
    && next.calls == net.calls[p := next.calls[p]]
    && EffectsOf(streams, next, p) == EffectsOf(streams, net, p) + delta
  }

  lemma {:induction false} TimesAfter(streams: seq<seq<byte>>, net: Net, next: Net, p: nat, delta: seq<R.Effect>, k: nat,
                                      device: u32, data: seq<byte>)
    requires CalledOne(streams, net, next, p, delta) && k < |streams|
    ensures Times(streams, next, k, device, data) ==
            Times(streams, net, k, device, data) + if k == p then Dispatched(delta, device, data) else 0
  {
    if k == p { DispatchedAppend(EffectsOf(streams, net, p), delta, device, data); } else { assert next.calls[k] == net.calls[k]; }
  }

  lemma {:induction false} DispatchedAfter(streams: seq<seq<byte>>, net: Net, next: Net, p: nat, delta: seq<R.Effect>, n: nat,
                                           device: u32, data: seq<byte>)
    requires CalledOne(streams, net, next, p, delta) && n <= |streams|
    ensures DispatchedBy(streams, next, n, device, data) ==
            DispatchedBy(streams, net, n, device, data) + if p < n then Dispatched(delta, device, data) else 0
  {
    if n > 0 {
      DispatchedAfter(streams, net, next, p, delta, n - 1, device, data);
      TimesAfter(streams, net, next, p, delta, n - 1, device, data);
    }
  }

  lemma {:induction false} HandOverIsLegal(first: nat, moves: seq<Move>, delta: seq<R.Effect>, memory: bool, ok: bool)
    requires AllLegal(first, moves)
    ensures AllLegal(first, moves + HandOver(delta, memory, ok))
  {
    var more := HandOver(delta, memory, ok);
    if more == [] {
      assert moves + more == moves;
    } else {
      Completion.OneMove(first, moves, more[0]);
    }
  }

  lemma {:induction false} CallShape(streams: seq<seq<byte>>, net: Net, p: nat, round: R.Round, memory: bool, ok: bool)
    requires |net.calls| == |streams| && p < |streams|
    ensures var next, delta := Step(streams, net, Call(p, round, memory, ok)), NewEffects(streams[p], net.calls[p], round);
      && OneDispatch(delta) && next.moves == net.moves + HandOver(delta, memory, ok)
      && CalledOne(streams, net, next, p, delta)
  {
    CallEffects(streams[p], net.calls[p], round);
  }

  lemma {:induction false} CallKeepsOk(streams: seq<seq<byte>>, first: nat, net: Net, p: nat, round: R.Round, memory: bool, ok: bool)
    requires NetOk(streams, first, net) && p < |streams|
    ensures NetOk(streams, first, Step(streams, net, Call(p, round, memory, ok)))
  {
    var next := Step(streams, net, Call(p, round, memory, ok));
    var delta := NewEffects(streams[p], net.calls[p], round);
    HandOverIsLegal(first, net.moves, delta, memory, ok);
    CallShape(streams, net, p, round, memory, ok);
    forall device: u32, data: seq<byte>
      ensures Given(next.moves, device, data) == DispatchedBy(streams, next, |streams|, device, data)
    {
      HandOverGives(net.moves, delta, memory, ok, device, data);
      DispatchedAfter(streams, net, next, p, delta, |streams|, device, data);
    }
  }

  lemma {:induction false} OtherKeepsOk(streams: seq<seq<byte>>, first: nat, net: Net, m: Move)
    requires NetOk(streams, first, net) && LegalAct(first, net, Other(m))
    ensures NetOk(streams, first, Step(streams, net, Other(m)))
  {
    var next := Step(streams, net, Other(m));
    Completion.OneMove(first, net.moves, m);
    assert next.moves[..|net.moves|] == net.moves;
    forall device: u32, data: seq<byte>
      ensures Given(next.moves, device, data) == DispatchedBy(streams, next, |streams|, device, data)
    {
      SameDispatches(streams, net, next, |streams|, device, data);
    }
  }

  lemma {:induction false} SameDispatches(streams: seq<seq<byte>>, net: Net, next: Net, n: nat, device: u32, data: seq<byte>)
    requires n <= |streams| == |net.calls| && next.calls == net.calls
    ensures DispatchedBy(streams, next, n, device, data) == DispatchedBy(streams, net, n, device, data)
  {
    if n > 0 { SameDispatches(streams, net, next, n - 1, device, data); }
  }

  lemma {:induction false} NoDispatches(streams: seq<seq<byte>>, net: Net, n: nat, device: u32, data: seq<byte>)
    requires n <= |streams| == |net.calls| && forall p: nat :: p < |streams| ==> net.calls[p] == []
    ensures DispatchedBy(streams, net, n, device, data) == 0
  {
    if n > 0 { NoDispatches(streams, net, n - 1, device, data); }
  }

  /** In every run of the whole, the engine is given exactly the jobs that connections dispatch, each as often. */
  lemma {:induction false} RunKeepsOk(streams: seq<seq<byte>>, first: nat, acts: seq<Act>)
    requires LegalActs(streams, first, acts)
    ensures NetOk(streams, first, Run(streams, acts))
  {
    if acts == [] {
      forall device: u32, data: seq<byte> ensures DispatchedBy(streams, Run(streams, acts), |streams|, device, data) == 0 {
        NoDispatches(streams, Run(streams, acts), |streams|, device, data);
      }
    } else {
      var before := acts[..|acts| - 1];
      RunKeepsOk(streams, first, before);
      match acts[|acts| - 1]
      case Call(p, round, memory, ok) =>
        if p < |streams| { CallKeepsOk(streams, first, Run(streams, before), p, round, memory, ok); }
      case Other(m) => OtherKeepsOk(streams, first, Run(streams, before), m);
    }
  }

  // From the engine's jobs back to the backends

  /** How often this job has been queued by the engine. */
  function Queued(log: seq<S.Effect>, device: u32, data: seq<byte>): nat
  {
    if log == [] then 0
    else Queued(log[..|log| - 1], device, data) +
         (var q := log[|log| - 1]; if q.Queued? && q.device == device && q.data == data then 1 else 0)
  }

  lemma {:induction false} QueuedAppend(a: seq<S.Effect>, b: seq<S.Effect>, device: u32, data: seq<byte>)
    ensures Queued(a + b, device, data) == Queued(a, device, data) + Queued(b, device, data)
  {
    if b == [] {
      assert a + b == a;
    } else {
      assert (a + b)[..|a + b| - 1] == a + b[..|b| - 1];
      QueuedAppend(a, b[..|b| - 1], device, data);
    }
  }

  /** The entries of one event: at most two, and the second is no job. */
  predicate Short(tail: seq<S.Effect>)
  {
    |tail| <= 2 && (|tail| == 2 ==> !tail[1].Queued?)
  }

  lemma {:induction false} IssueTail(s: S.State, j: nat, k: S.Kind, ok: bool) returns (tail: seq<S.Effect>)
    requires j in s.jobs
    ensures S.Issue(s, j, k, ok).log == s.log + tail && |tail| <= 1 && (|tail| == 1 ==> !tail[0].Queued?)
    ensures S.Issue(s, j, k, ok).nextJob == s.nextJob
  {
    tail := S.Issue(s, j, k, ok).log[|s.log|..];
  }

  lemma {:induction false} ReplyTail(s: S.State, id: nat, status: u32, body: seq<byte>, ok: bool) returns (tail: seq<S.Effect>)
    requires O.Inv(s) && id in s.irps
    ensures S.Callback(s, id, status, body, ok).log == s.log + tail && Short(tail) && |tail| > 0 && !tail[0].Queued?
    ensures S.Callback(s, id, status, body, ok).nextJob == s.nextJob
  {
    O.CallbackCases(s, id, status, body, ok);
    var j, k := s.irps[id].job, s.irps[id].kind;
    var h := O.Heard(s, id, status, body, ok);
    var answered := S.Answered(j, k, status, body, ok);
    var last;
    if O.Ends(k, status, body) {
      last := [S.Freed(j)];
    } else {
      last := IssueTail(S.Update(h, j, O.Moved(s.jobs[j], k, status, body)), j, O.Follow(s.jobs[j], k, status, body), ok);
    }
    tail := [answered] + last;
    Assoc(s.log, [answered], last);
  }

  lemma {:induction false} SubmitTail(s: S.State, device: u32, data: Buffer, ok: bool) returns (tail: seq<S.Effect>)
    ensures S.Enqueue(s, device, data, ok).log == s.log + tail && Short(tail)
    ensures |tail| > 0 && tail[0] == S.Queued(s.nextJob, device, data, ok)
    ensures S.Enqueue(s, device, data, ok).nextJob == s.nextJob + 1
  {
    var q := S.Link(s, device, data, ok);
    var last := IssueTail(q, s.nextJob, S.CreateKind, ok);
    tail := [S.Queued(s.nextJob, device, data, ok)] + last;
    Assoc(s.log, [S.Queued(s.nextJob, device, data, ok)], last);
  }

  /** What an event adds to the history: a job only for a submission. */
  lemma {:induction false} StepTail(s: S.State, e: S.Event) returns (tail: seq<S.Effect>)
    requires O.Inv(s)
    ensures S.Step(s, e).log == s.log + tail && Short(tail)
    ensures |tail| > 0 && tail[0].Queued? ==> e.Submit? && tail[0] == S.Queued(s.nextJob, e.device, e.data, e.ok)
    ensures S.Step(s, e).nextJob == s.nextJob + if |tail| > 0 && tail[0].Queued? then 1 else 0
  {
    tail := [];
    assert s.log + [] == s.log;
    match e
    case Response(id, status, body, ok) => if id in s.irps { tail := ReplyTail(s, id, status, body, ok); }
    case Submit(device, data, memory, ok) =>
      if |data| > 0 && device in s.devices && memory { tail := SubmitTail(s, device, data, ok); }
    case _ =>
  }

  /** The engine's step in a move. */
  function EventOf(m: Move): S.Event
  {
    match m
    case Local(e) => e
    case Answers(id, answer, pad, ok) => Reply(id, answer, pad, ok)
  }

  /** Every job of the engine was given to it, as often as it was queued; and every number is some job's. */
  ghost predicate Known(sys: Sys, moves: seq<Move>)
  {
    && (forall device: u32, data: seq<byte> :: Queued(sys.engine.log, device, data) <= Given(moves, device, data))
    && (forall j: nat :: j < sys.engine.nextJob ==> Numbered(sys.engine.log, j))
  }

  ghost predicate Numbered(log: seq<S.Effect>, j: nat)
  {
    exists q :: q in log && q.Queued? && q.job == j
  }

  lemma {:induction false} TailQueues(tail: seq<S.Effect>, device: u32, data: seq<byte>)
    requires Short(tail)
    ensures Queued(tail, device, data) ==
      if |tail| > 0 && tail[0].Queued? && tail[0].device == device && tail[0].data == data then 1 else 0
  {
    if tail != [] {
      var one := tail[..1];
      assert one[..0] == [] && Queued([], device, data) == 0;
      assert Queued(one, device, data) == if tail[0].Queued? && tail[0].device == device && tail[0].data == data then 1 else 0;
      assert tail[..|tail| - 1] == if |tail| == 1 then [] else one;
    }
  }

  lemma {:induction false} CountsKept(log: seq<S.Effect>, tail: seq<S.Effect>, moves: seq<Move>, m: Move, device: u32, data: seq<byte>)
    requires Queued(log, device, data) <= Given(moves, device, data) && Short(tail)
    requires |tail| > 0 && tail[0].Queued? ==> Submits(m) && tail[0].device == m.event.device && tail[0].data == m.event.data
    ensures Queued(log + tail, device, data) <= Given(moves + [m], device, data)
  {
    assert (moves + [m])[..|moves|] == moves;
    QueuedAppend(log, tail, device, data);
    TailQueues(tail, device, data);
  }

  lemma {:induction false} NumbersKept(log: seq<S.Effect>, tail: seq<S.Effect>, next: nat, j: nat)
    requires j < next ==> Numbered(log, j)
    requires j == next ==> |tail| > 0 && tail[0].Queued? && tail[0].job == next
    requires j <= next
    ensures Numbered(log + tail, j)
  {
    if j < next {
      var q :| q in log && q.Queued? && q.job == j;
      assert q in log + tail;
    } else {
      assert tail[0] in log + tail;
    }
  }

  lemma {:induction false} TailKeepsKnown(sys: Sys, next: Sys, tail: seq<S.Effect>, moves: seq<Move>, m: Move)
    requires Known(sys, moves) && next.engine.log == sys.engine.log + tail && Short(tail)
    requires |tail| > 0 && tail[0].Queued? ==>
      Submits(m) && tail[0].device == m.event.device && tail[0].data == m.event.data && tail[0].job == sys.engine.nextJob
    requires next.engine.nextJob == sys.engine.nextJob + if |tail| > 0 && tail[0].Queued? then 1 else 0
    ensures Known(next, moves + [m])
  {
    forall device: u32, data: seq<byte> ensures Queued(next.engine.log, device, data) <= Given(moves + [m], device, data) {
      CountsKept(sys.engine.log, tail, moves, m, device, data);
    }
    forall j: nat | j < next.engine.nextJob ensures Numbered(next.engine.log, j) {
      NumbersKept(sys.engine.log, tail, sys.engine.nextJob, j);
    }
  }

  lemma {:induction false} MoveKeepsKnown(sys: Sys, moves: seq<Move>, m: Move)
    requires SysInv(sys) && Legal(sys, m) && Known(sys, moves)
    ensures Known(Next(sys, m), moves + [m])
  {
    var tail := StepTail(sys.engine, EventOf(m));
    TailKeepsKnown(sys, Next(sys, m), tail, moves, m);
  }

  lemma {:induction false} RunKeepsKnown(first: nat, moves: seq<Move>)
    requires AllLegal(first, moves)
    ensures Known(SysRun(first, moves), moves)
  {
    if moves != [] {
      var before, m := moves[..|moves| - 1], moves[|moves| - 1];
      assert moves == before + [m];
      SysRunKeepsInv(first, before);
      RunKeepsKnown(first, before);
      MoveKeepsKnown(SysRun(first, before), before, m);
    }
  }

  /** A backend's job, and how much of its stream arrived. */
  datatype Sender = Sender(device: u32, job: u32, blocks: seq<Buffer>, cut: nat)

  ghost predicate Sends(senders: seq<Sender>, streams: seq<seq<byte>>)
  {
    |senders| == |streams| &&
    forall p :: 0 <= p < |senders| ==> SendsOne(senders[p], streams[p])
  }

  ghost predicate SendsOne(b: Sender, stream: seq<byte>)
  {
    var whole := Backend.JobStream(b.device, b.job, b.blocks);
    b.cut <= |whole| && stream == whole[..b.cut]
  }

  /** A backend's connection dispatches its job once or not at all, and nothing else. */
  lemma {:induction false} SenderOnce(b: Sender, stream: seq<byte>, calls: seq<R.Round>, device: u32, data: seq<byte>)
    requires SendsOne(b, stream)
    ensures var n := Dispatched(R.Receive(stream, calls).effects, device, data);
      n <= 1 && (n == 1 ==> SendsJob(b, device, data))
  {
    P.Relayed(b.device, b.job, b.blocks, b.cut, calls);
    DispatchedFirst(R.Receive(stream, calls).effects, device, data);
  }

  /** The backend sent this job. */
  predicate SendsJob(b: Sender, device: u32, data: seq<byte>)
  {
    b.device == device && Flatten(b.blocks) == data
  }

  lemma {:induction false} FindCall(streams: seq<seq<byte>>, net: Net, n: nat, device: u32, data: seq<byte>) returns (p: nat)
    requires n <= |streams| == |net.calls| && DispatchedBy(streams, net, n, device, data) >= 1
    ensures p < n && Times(streams, net, p, device, data) >= 1
  {
    if Times(streams, net, n - 1, device, data) >= 1 {
      p := n - 1;
    } else {
      p := FindCall(streams, net, n - 1, device, data);
    }
  }

  lemma {:induction false} SenderTimes(senders: seq<Sender>, streams: seq<seq<byte>>, net: Net, p: nat, device: u32, data: seq<byte>)
    requires Sends(senders, streams) && p < |streams| == |net.calls|
    ensures Times(streams, net, p, device, data) <= 1
    ensures Times(streams, net, p, device, data) == 1 ==> SendsJob(senders[p], device, data)
  {
    assert SendsOne(senders[p], streams[p]);
    SenderOnce(senders[p], streams[p], net.calls[p], device, data);
  }

  /** If the connections dispatched this job, one of the backends sent it. */
  lemma {:induction false} FindSender(senders: seq<Sender>, streams: seq<seq<byte>>, net: Net, device: u32, data: seq<byte>)
      returns (p: nat)
    requires Sends(senders, streams) && |streams| == |net.calls| && DispatchedBy(streams, net, |streams|, device, data) >= 1
    ensures p < |senders| && SendsJob(senders[p], device, data)
  {
    p := FindCall(streams, net, |streams|, device, data);
    SenderTimes(senders, streams, net, p, device, data);
  }

  /** How many of the first `n` backends sent this job. */
  function Senders(senders: seq<Sender>, n: nat, device: u32, data: seq<byte>): nat
    requires n <= |senders|
  {
    if n == 0 then 0
    else Senders(senders, n - 1, device, data) + if SendsJob(senders[n - 1], device, data) then 1 else 0
  }

  /** Connection `p` dispatched this job at most once, and only if its backend sent it. */
  ghost predicate AsSent(senders: seq<Sender>, streams: seq<seq<byte>>, net: Net, p: nat, device: u32, data: seq<byte>)
    requires p < |senders| == |streams| == |net.calls|
  {
    Times(streams, net, p, device, data) <= if SendsJob(senders[p], device, data) then 1 else 0
  }

  lemma {:induction false} DispatchedAsSent(senders: seq<Sender>, streams: seq<seq<byte>>, net: Net, n: nat, device: u32, data: seq<byte>)
    requires n <= |senders| == |streams| == |net.calls|
    requires forall p: nat :: p < |senders| ==> AsSent(senders, streams, net, p, device, data)
    ensures DispatchedBy(streams, net, n, device, data) <= Senders(senders, n, device, data)
  {
    if n > 0 {
      DispatchedAsSent(senders, streams, net, n - 1, device, data);
      assert AsSent(senders, streams, net, n - 1, device, data);
    }
  }

  lemma {:induction false} InLogCounts(log: seq<S.Effect>, q: S.Effect)
    requires q in log && q.Queued?
    ensures Queued(log, q.device, q.data) >= 1
  {
    if log[|log| - 1] != q { InLogCounts(log[..|log| - 1], q); }
  }

  /** The engine's job `j` in the run. */
  ghost predicate JobOf(first: nat, moves: seq<Move>, j: nat, q: S.Effect)
    requires AllLegal(first, moves)
  {
    q in SysRun(first, moves).engine.log && q.Queued? && q.job == j
  }

  /** A backend that sent it. */
  predicate SentBy(senders: seq<Sender>, p: nat, q: S.Effect)
    requires q.Queued?
  {
    p < |senders| && SendsJob(senders[p], q.device, q.data)
  }

  /**
   Nothing is printed that no backend sent: with any number of backends, cut off anywhere, and
   their calls, the client's answers and other events in any order, every job of the engine is
   the input of a backend that named its device. What the client holds of it is a prefix of
   that input, and the input itself once the job is over after successful replies only.
   */
  lemma {:induction false} NothingInvented(senders: seq<Sender>, streams: seq<seq<byte>>, first: nat, acts: seq<Act>, j: nat)
      returns (q: S.Effect, p: nat)
    requires Sends(senders, streams) && LegalActs(streams, first, acts)
    requires AllLegal(first, Run(streams, acts).moves) && j < SysRun(first, Run(streams, acts).moves).engine.nextJob
    ensures JobOf(first, Run(streams, acts).moves, j, q) && SentBy(senders, p, q)
    ensures var sys, input := SysRun(first, Run(streams, acts).moves), Flatten(senders[p].blocks);
      && (j in sys.client.printed ==> sys.client.printed[j] <= input)
      && (j !in sys.engine.jobs && AllGood(sys.engine.log, j) ==> j in sys.client.printed && sys.client.printed[j] == input)
  {
    var net := Run(streams, acts);
    RunKeepsOk(streams, first, acts);
    RunKeepsKnown(first, net.moves);
    var log := SysRun(first, net.moves).engine.log;
    assert Numbered(log, j);
    q :| q in log && q.Queued? && q.job == j;
    InLogCounts(log, q);
    p := FindSender(senders, streams, net, q.device, q.data);
    Delivered(first, net.moves, q);
  }

  /** Every number of a job is below the next one. */
  lemma PrintedIsJob(first: nat, moves: seq<Move>, j: nat)
    requires AllLegal(first, moves) && j in SysRun(first, moves).client.printed
    ensures j < SysRun(first, moves).engine.nextJob
  {
    SysRunKeepsInv(first, moves);
  }

  /** No job is queued more often than backends sent it. */
  lemma {:induction false} QueuedAsSent(senders: seq<Sender>, streams: seq<seq<byte>>, first: nat, acts: seq<Act>, device: u32, data: seq<byte>)
    requires Sends(senders, streams) && LegalActs(streams, first, acts) && AllLegal(first, Run(streams, acts).moves)
    ensures Queued(SysRun(first, Run(streams, acts).moves).engine.log, device, data) <= Senders(senders, |senders|, device, data)
  {
    var net := Run(streams, acts);
    RunKeepsOk(streams, first, acts);
    RunKeepsKnown(first, net.moves);
    forall p: nat | p < |senders| ensures AsSent(senders, streams, net, p, device, data) {
      SenderTimes(senders, streams, net, p, device, data);
    }
    DispatchedAsSent(senders, streams, net, |streams|, device, data);
  }

  /** The backend that sent this job when `r` of those before it had. */
  function Nth(senders: seq<Sender>, n: nat, device: u32, data: seq<byte>, r: nat): (p: nat)
    requires n <= |senders| && r < Senders(senders, n, device, data)
    ensures p < n && SendsJob(senders[p], device, data) && Senders(senders, p, device, data) == r
  {
    if r < Senders(senders, n - 1, device, data) then Nth(senders, n - 1, device, data, r) else n - 1
  }

  /** The backend that the job queued at place `a` of the history comes from. */
  function Owner(senders: seq<Sender>, log: seq<S.Effect>, a: nat): nat
    requires a < |log| && log[a].Queued?
    requires Queued(log[..a], log[a].device, log[a].data) < Senders(senders, |senders|, log[a].device, log[a].data)
  {
    Nth(senders, |senders|, log[a].device, log[a].data, Queued(log[..a], log[a].device, log[a].data))
  }

  /** The count of a job grows where it is queued. */
  lemma {:induction false} QueuedUpTo(log: seq<S.Effect>, a: nat, b: nat)
    requires a < b <= |log| && log[a].Queued?
    ensures Queued(log[..a], log[a].device, log[a].data) < Queued(log[..b], log[a].device, log[a].data)
  {
    var c := b - 1;
    assert log[..b][..c] == log[..c] && log[..b][c] == log[c];
    if a < c { QueuedUpTo(log, a, c); }
  }

  /**
   Nothing is printed twice: there is one map from the jobs in the history to the backends that
   sent them, and it gives no two jobs the same backend.
   */
  lemma {:induction false} NothingTwice(senders: seq<Sender>, streams: seq<seq<byte>>, first: nat, acts: seq<Act>)
      returns (owner: map<nat, nat>)
    requires Sends(senders, streams) && LegalActs(streams, first, acts) && AllLegal(first, Run(streams, acts).moves)
    ensures var log := SysRun(first, Run(streams, acts).moves).engine.log;
      && (forall a: nat :: a in owner <==> a < |log| && log[a].Queued?)
      && (forall a :: a in owner ==> SentBy(senders, owner[a], log[a]))
      && (forall a, b :: a in owner && b in owner && owner[a] == owner[b] ==> a == b)
  {
    var log := SysRun(first, Run(streams, acts).moves).engine.log;
    forall a: nat | a < |log| && log[a].Queued?
      ensures Queued(log[..a], log[a].device, log[a].data) < Senders(senders, |senders|, log[a].device, log[a].data)
    {
      QueuedUpTo(log, a, |log|);
      assert log[..|log|] == log;
      QueuedAsSent(senders, streams, first, acts, log[a].device, log[a].data);
    }
    owner := map a: nat | a < |log| && log[a].Queued? :: Owner(senders, log, a);
    forall a, b | a in owner && b in owner && owner[a] == owner[b] ensures a == b {
      if a < b { QueuedUpTo(log, a, b); }
      if b < a { QueuedUpTo(log, b, a); }
    }
  }

  /** In every run, backends that read at most 64 KB at a time make no connection write behind its buffer. */
  lemma {:induction false} NothingOverrun(senders: seq<Sender>, streams: seq<seq<byte>>, first: nat, acts: seq<Act>, p: nat, memory: bool)
    requires Sends(senders, streams) && LegalActs(streams, first, acts) && p < |senders|
    requires forall b :: b in senders[p].blocks ==> |b| <= 65536
    ensures p < |Run(streams, acts).calls|
    ensures var r := R.Receive(streams[p], Run(streams, acts).calls[p]); !R.Serve(r.conn, r.rest, memory).Overrun?
  {
    RunKeepsOk(streams, first, acts);
    var b := senders[p];
    assert SendsOne(b, streams[p]);
    P.BackendNeverOverruns(b.device, b.job, b.blocks, b.cut, Run(streams, acts).calls[p], memory);
  }

  // Such runs exist

  lemma {:induction false} RunSnoc(streams: seq<seq<byte>>, acts: seq<Act>, act: Act)
    ensures Run(streams, acts + [act]) == Step(streams, Run(streams, acts), act)
  {
    var more := acts + [act];
    assert more[..|more| - 1] == acts && more[|more| - 1] == act;
  }

  lemma {:induction false} ActsSnoc(streams: seq<seq<byte>>, first: nat, acts: seq<Act>, act: Act)
    requires LegalActs(streams, first, acts) && LegalAct(first, Run(streams, acts), act)
    ensures LegalActs(streams, first, acts + [act])
    ensures Run(streams, acts + [act]) == Step(streams, Run(streams, acts), act)
  {
    RunSnoc(streams, acts, act);
    LegalSnoc(streams, first, acts + [act], acts, act);
  }

  lemma {:induction false} LegalSnoc(streams: seq<seq<byte>>, first: nat, more: seq<Act>, acts: seq<Act>, act: Act)
    requires |more| > 0 && more[..|more| - 1] == acts && more[|more| - 1] == act
    requires LegalActs(streams, first, acts) && LegalAct(first, Run(streams, acts), act)
    ensures LegalActs(streams, first, more)
  {
  }

  /** `n` undisturbed calls on the first connection. */
  function Calls(n: nat): seq<R.Round>
  {
    if n == 0 then [] else Calls(n - 1) + [R.Round(true, false)]
  }

  lemma CallsAreCalm(n: nat)
    ensures |Calls(n)| == n && P.Calm(Calls(n))
  {
    if n > 0 { CallsAreCalm(n - 1); }
  }

  /** The effects of the first `n` calls on a whole job: none before the last. */
  lemma {:induction false} EffectsOfCalls(device: u32, job: u32, blocks: seq<Buffer>, n: nat)
    requires n <= |blocks| + 2 && |Flatten(blocks)| <= Growth.LIMIT
    ensures R.Receive(Backend.JobStream(device, job, blocks), Calls(n)).effects ==
      if n == |blocks| + 2 then R.EndEffects(device, job, Flatten(blocks)) else []
  {
    CallsAreCalm(n);
    P.CalmProgress(device, job, blocks, Calls(n));
    R.AllOrNothing(Backend.JobStream(device, job, blocks), Calls(n));
    P.JobEffects(device, job, blocks, n);
  }

  /** The acts lead there, all of them legal. */
  ghost predicate Leads(streams: seq<seq<byte>>, first: nat, acts: seq<Act>, net: Net)
  {
    LegalActs(streams, first, acts) && Run(streams, acts) == net
  }

  lemma {:induction false} FirstAct(stream: seq<byte>, first: nat, m: Move)
    requires !Submits(m) && Legal(SysRun(first, []), m)
    ensures Leads([stream], first, [Other(m)], Net([[]], [m]))
  {
    ActsSnoc([stream], first, [], Other(m));
    assert [] + [Other(m)] == [Other(m)] && [] + [m] == [m];
    assert Run([stream], []).calls == [[]];
  }

  lemma {:induction false} OneCall(stream: seq<byte>, first: nat, acts: seq<Act>, calls: seq<R.Round>, moves: seq<Move>)
      returns (more: seq<Act>)
    requires Leads([stream], first, acts, Net([calls], moves))
    ensures var delta := NewEffects(stream, calls, R.Round(true, false));
      Leads([stream], first, more, Net([calls + [R.Round(true, false)]], moves + HandOver(delta, true, true)))
  {
    var call := Call(0, R.Round(true, false), true, true);
    ActsSnoc([stream], first, acts, call);
    assert [calls][0 := calls + [R.Round(true, false)]] == [calls + [R.Round(true, false)]];
    more := acts + [call];
  }

  /** A stream whose first calls have no effect and whose `total`-th dispatches `data`. */
  ghost predicate Brings(stream: seq<byte>, total: nat, device: u32, job: u32, data: Buffer)
  {
    data != [] && total > 0 && forall n: nat :: n <= total ==>
      R.Receive(stream, Calls(n)).effects == if n == total then R.EndEffects(device, job, data) else []
  }

  /** The machine after `n` of these calls. */
  function NetAfter(total: nat, device: u32, data: Buffer, n: nat): Net
  {
    Net([Calls(n)], [Local(S.Announced(device))] + if n == total then [Local(S.Submit(device, data, true, true))] else [])
  }

  /** What a call hands over if there was nothing before it. */
  lemma {:induction false} HandedOver(stream: seq<byte>, calls: seq<R.Round>, device: u32, job: u32, data: Buffer)
    requires data != [] && R.Receive(stream, calls).effects == []
    ensures var after := R.Receive(stream, calls + [R.Round(true, false)]).effects;
      var moves := HandOver(NewEffects(stream, calls, R.Round(true, false)), true, true);
      && (after == [] ==> moves == [])
      && (after == R.EndEffects(device, job, data) ==> moves == [Local(S.Submit(device, data, true, true))])
  {
    CallEffects(stream, calls, R.Round(true, false));
    var delta := NewEffects(stream, calls, R.Round(true, false));
    assert [] + delta == delta;
  }

  lemma {:induction false} NoCall(first: nat, stream: seq<byte>, total: nat, device: u32, data: Buffer) returns (acts: seq<Act>)
    requires total > 0
    ensures Leads([stream], first, acts, NetAfter(total, device, data, 0))
  {
    var announced := Local(S.Announced(device));
    FirstAct(stream, first, announced);
    acts := [Other(announced)];
    assert [announced] + [] == [announced];
  }

  /** One more of these calls. */
  lemma {:induction false} NextCall(first: nat, stream: seq<byte>, total: nat, device: u32, job: u32, data: Buffer, n: nat, acts: seq<Act>)
      returns (more: seq<Act>)
    requires Brings(stream, total, device, job, data) && 0 < n <= total
    requires Leads([stream], first, acts, NetAfter(total, device, data, n - 1))
    ensures Leads([stream], first, more, NetAfter(total, device, data, n))
  {
    var announced := [Local(S.Announced(device))];
    assert announced + [] == announced;
    more := OneCall(stream, first, acts, Calls(n - 1), announced);
    assert Calls(n) == Calls(n - 1) + [R.Round(true, false)];
    HandedOver(stream, Calls(n - 1), device, job, data);
  }

  lemma {:induction false} AfterCalls(first: nat, stream: seq<byte>, total: nat, device: u32, job: u32, data: Buffer, n: nat)
      returns (acts: seq<Act>)
    requires Brings(stream, total, device, job, data) && n <= total
    ensures Leads([stream], first, acts, NetAfter(total, device, data, n))
  {
    if n == 0 {
      acts := NoCall(first, stream, total, device, data);
    } else {
      acts := AfterCalls(first, stream, total, device, job, data, n - 1);
      acts := NextCall(first, stream, total, device, job, data, n, acts);
    }
  }

  /** Moves that submit nothing can follow. */
  lemma {:induction false} ThenMoves(streams: seq<seq<byte>>, first: nat, acts: seq<Act>, moves: seq<Move>, n: nat) returns (all: seq<Act>)
    requires LegalActs(streams, first, acts) && n <= |moves| && Run(streams, acts).moves == moves[..n]
    requires AllLegal(first, moves) && forall i :: n <= i < |moves| ==> !Submits(moves[i])
    ensures LegalActs(streams, first, all) && Run(streams, all).moves == moves
    decreases |moves| - n
  {
    if n == |moves| {
      all := acts;
      assert moves[..n] == moves;
    } else {
      LegalPrefix(first, moves, n);
      ActsSnoc(streams, first, acts, Other(moves[n]));
      Prefixes(moves, n);
      all := ThenMoves(streams, first, acts + [Other(moves[n])], moves, n + 1);
    }
  }

  lemma {:induction false} LegalPrefix(first: nat, moves: seq<Move>, n: nat)
    requires AllLegal(first, moves) && n < |moves|
    ensures AllLegal(first, moves[..n]) && Legal(SysRun(first, moves[..n]), moves[n])
    decreases |moves|
  {
    var m := |moves| - 1;
    if n < m {
      LegalPrefix(first, moves[..m], n);
      assert moves[..m][..n] == moves[..n];
    }
  }

  lemma {:induction false} WholeBrings(device: u32, job: u32, blocks: seq<Buffer>)
    requires 0 < |Flatten(blocks)| <= 0x1000_0000
    ensures Brings(Backend.JobStream(device, job, blocks), |blocks| + 2, device, job, Flatten(blocks))
  {
    forall n: nat | n <= |blocks| + 2
      ensures R.Receive(Backend.JobStream(device, job, blocks), Calls(n)).effects ==
        if n == |blocks| + 2 then R.EndEffects(device, job, Flatten(blocks)) else []
    {
      EffectsOfCalls(device, job, blocks, n);
    }
  }

  /** Every non-empty input of at most 256 MB has a run of the whole machine that prints it. */
  lemma {:induction false} EveryInputIsPrinted(first: nat, device: u32, job: u32, blocks: seq<Buffer>) returns (acts: seq<Act>)
    requires 0 < |Flatten(blocks)| <= 0x1000_0000
    ensures var streams := [Backend.JobStream(device, job, blocks)];
      && LegalActs(streams, first, acts) && AllLegal(first, Run(streams, acts).moves)
      && var printed := SysRun(first, Run(streams, acts).moves).client.printed;
      0 in printed && printed[0] == Flatten(blocks)
  {
    var stream := Backend.JobStream(device, job, blocks);
    WholeBrings(device, job, blocks);
    var begun := AfterCalls(first, stream, |blocks| + 2, device, job, Flatten(blocks), |blocks| + 2);
    var moves := Completion.EveryJobCanBePrinted(first, device, Flatten(blocks));
    assert moves[..2] == [Local(S.Announced(device)), Local(S.Submit(device, Flatten(blocks), true, true))];
    acts := ThenMoves([stream], first, begun, moves, 2);
  }
}
