/**
 Every job can be printed: with a client that does all it is asked, a single job, whatever
 its data, runs to its end and is held whole. So the delivery theorems are about runs that exist.
 */
module Completion {
  import opened Octets
  import opened SendSpec
  import opened Ownership
  import opened Progress
  import opened Delivery

  /** The answer of a client that does all it is asked. */
  function Cooperate(irp: Irp): Answer
  {
    match irp.req
    case CreateReq(_) => Opened(0)
    case WriteReq(_, _, _, payload) => Took(Min(|payload|, CHUNK))
    case CloseReq(_, _) => Shut
  }

  /** At most the first job is running, its IRP is outstanding, and all went well so far. */
  ghost predicate Sole(sys: Sys)
  {
    && SysInv(sys) && AllWaiting(sys.engine)
    && sys.engine.jobs.Keys <= {0} && AllGood(sys.engine.log, 0)
    && (0 in sys.engine.jobs && sys.engine.jobs[0].phase == WaitCreate ==> sys.client.open == map[])
  }

  lemma {:induction false} IssueKeepsLog(s: State, j: nat, k: Kind, ok: bool)
    requires j in s.jobs
    ensures s.log <= Issue(s, j, k, ok).log
  {
  }

  /** The history only grows. */
  lemma {:induction false} ReplyKeepsLog(s: State, e: Event)
    requires Inv(s) && e.Response? && e.id in s.irps
    ensures s.log <= Step(s, e).log
  {
    CallbackCases(s, e.id, e.status, e.body, e.ok);
    var j, k := s.irps[e.id].job, s.irps[e.id].kind;
    if !Ends(k, e.status, e.body) {
      var u := Update(Heard(s, e.id, e.status, e.body, e.ok), j, Moved(s.jobs[j], k, e.status, e.body));
      IssueKeepsLog(u, j, Follow(s.jobs[j], k, e.status, e.body), e.ok);
    }
  }

  lemma {:induction false} CooperationIsLegal(sys: Sys, id: nat)
    requires Sole(sys) && id in sys.engine.irps
    ensures var m := Answers(id, Cooperate(sys.engine.irps[id]), [], true);
      Legal(sys, m) && ProductiveReply(sys.engine, Reply(id, m.answer, [], true))
  {
    var irp := sys.engine.irps[id];
    assert IrpOk(sys.engine, id) && irp.job == 0;
    if irp.req.WriteReq? {
      assert |irp.req.payload| == ChunkSize(sys.engine.jobs[0]);
      Le32RoundTrip(Min(|irp.req.payload|, CHUNK), []);
    }
  }

  /** One more answer: the situation is as before, with less work left. */
  lemma {:induction false} CooperationHelps(sys: Sys, id: nat)
    requires Sole(sys) && id in sys.engine.irps
    ensures var m := Answers(id, Cooperate(sys.engine.irps[id]), [], true);
      && Legal(sys, m)
      && var next := Next(sys, m);
      && Sole(next) && sys.engine.log <= next.engine.log
      && Work(next.engine.jobs, next.engine.order) < Work(sys.engine.jobs, sys.engine.order)
  {
    CooperationIsLegal(sys, id);
    var m := Answers(id, Cooperate(sys.engine.irps[id]), [], true);
    var e := Reply(id, m.answer, [], true);
    assert IrpOk(sys.engine, id);
    AnswerKeepsSys(sys, m);
    StepKeepsInv(sys.engine, e);
    ReplyHandles(sys.engine, e);
    ReplyKeepsLog(sys.engine, e);
    ReplyLowersWork(sys.engine, e);
  }

  lemma {:induction false} OneMove(first: nat, moves: seq<Move>, m: Move)
    requires AllLegal(first, moves) && Legal(SysRun(first, moves), m)
    ensures AllLegal(first, moves + [m]) && SysRun(first, moves + [m]) == Next(SysRun(first, moves), m)
  {
    assert (moves + [m])[..|moves|] == moves;
  }

  /** `all` goes on from `moves` with nothing but answers. */
  ghost predicate GoesOn(moves: seq<Move>, all: seq<Move>)
  {
    moves <= all && forall i :: |moves| <= i < |all| ==> all[i].Answers?
  }

  lemma {:induction false} GoesOnFrom(moves: seq<Move>, m: Move, all: seq<Move>)
    requires m.Answers? && GoesOn(moves + [m], all)
    ensures GoesOn(moves, all)
  {
    assert all[|moves|] == (moves + [m])[|moves|];
    assert all[..|moves|] == (moves + [m])[..|moves|] == moves;
  }

  /** One more answer, as a move of the run. */
  lemma {:induction false} OneAnswer(first: nat, moves: seq<Move>) returns (m: Move)
    requires AllLegal(first, moves) && Sole(SysRun(first, moves)) && 0 in SysRun(first, moves).engine.jobs
    ensures m.Answers? && AllLegal(first, moves + [m]) && Sole(SysRun(first, moves + [m]))
    ensures var s, t := SysRun(first, moves).engine, SysRun(first, moves + [m]).engine;
      s.log <= t.log && Work(t.jobs, t.order) < Work(s.jobs, s.order)
  {
    var sys := SysRun(first, moves);
    assert Waits(sys.engine, 0);
    var id := sys.engine.jobs[0].completion;
    CooperationHelps(sys, id);
    m := Answers(id, Cooperate(sys.engine.irps[id]), [], true);
    OneMove(first, moves, m);
  }

  /** Answering on empties the list. */
  lemma {:induction false} RunsOut(first: nat, moves: seq<Move>) returns (all: seq<Move>)
    requires AllLegal(first, moves) && Sole(SysRun(first, moves))
    ensures AllLegal(first, all) && Sole(SysRun(first, all)) && SysRun(first, all).engine.jobs == map[]
    ensures SysRun(first, moves).engine.log <= SysRun(first, all).engine.log && GoesOn(moves, all)
    decreases var s := SysRun(first, moves).engine; Work(s.jobs, s.order)
  {
    if 0 in SysRun(first, moves).engine.jobs {
      var m := OneAnswer(first, moves);
      all := RunsOut(first, moves + [m]);
      GoesOnFrom(moves, m, all);
    } else {
      all := moves;
    }
  }

  /** A printer is announced and a job for it is submitted. */
  lemma {:induction false} Begins(first: nat, device: u32, data: Buffer)
    requires |data| > 0
    ensures var moves := [Local(Announced(device)), Local(Submit(device, data, true, true))];
      && AllLegal(first, moves) && Sole(SysRun(first, moves))
      && Queued(0, device, data, true) in SysRun(first, moves).engine.log
  {
    var announced, submit := Announced(device), Submit(device, data, true, true);
    var one := [Local(announced)];
    OneMove(first, [], Local(announced));
    assert [] + one == one;
    OneMove(first, one, Local(submit));
    assert one + [Local(submit)] == [Local(announced), Local(submit)];
    SysRunKeepsInv(first, one + [Local(submit)]);
    StepKeepsInv(Initial(first), announced);
    StepKeepsInv(Step(Initial(first), announced), submit);
    BeginsLog(first, device, data);
  }

  lemma {:induction false} BeginsLog(first: nat, device: u32, data: Buffer)
    requires |data| > 0
    ensures var s := Step(Step(Initial(first), Announced(device)), Submit(device, data, true, true));
      s.log == [Queued(0, device, data, true), Sent(0, first, CreateReq(device))] && s.jobs.Keys == {0}
  {
  }

  /** Whatever the job's data, there is a run in which it is printed whole. */
  lemma {:induction false} EveryJobCanBePrinted(first: nat, device: u32, data: Buffer) returns (moves: seq<Move>)
    requires |data| > 0
    ensures AllLegal(first, moves)
    ensures [Local(Announced(device)), Local(Submit(device, data, true, true))] <= moves
    ensures forall i :: 2 <= i < |moves| ==> moves[i].Answers?
    ensures var sys := SysRun(first, moves);
      && Queued(0, device, data, true) in sys.engine.log
      && 0 !in sys.engine.jobs && AllGood(sys.engine.log, 0)
      && 0 in sys.client.printed && sys.client.printed[0] == data
  {
    Begins(first, device, data);
    moves := RunsOut(first, [Local(Announced(device)), Local(Submit(device, data, true, true))]);
    Delivered(first, moves, Queued(0, device, data, true));
  }
}
