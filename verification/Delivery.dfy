/**
 The engine together with a conforming client that stores bytes per open file: what the
 client holds for a job is a prefix of the job's data, and all of it once the job closes
 after successful replies only. Jobs, devices and files interleave freely.
 */
module Delivery {
  import opened Octets
  import opened SendSpec
  import opened Ownership
  import opened Solo

  type Handle = (u32, u32)  // device id and file id

  /** `printed` keeps what a file held when it was closed, by the job that had it open. */
  datatype Client = Client(open: map<Handle, seq<byte>>, printed: map<nat, seq<byte>>)

  datatype Answer = Refuse(status: u32) | Opened(file: u32) | Took(count: u32) | Shut

  datatype Sys = Sys(engine: State, client: Client)

  datatype Move =
    | Local(event: Event)
    | Answers(id: nat, answer: Answer, pad: seq<byte>, ok: bool)

  /**
   A conforming answer: a file id not in use for an open, at most the bytes sent for a write,
   any status but success for a refusal.
   */
  predicate Conforms(sys: Sys, id: nat, answer: Answer)
  {
    id in sys.engine.irps &&
    match sys.engine.irps[id].req
    case CreateReq(d) =>
      (answer.Refuse? && answer.status != STATUS_SUCCESS) ||
      (answer.Opened? && (d, answer.file) !in sys.client.open)
    case WriteReq(_, _, _, payload) =>
      (answer.Refuse? && answer.status != STATUS_SUCCESS) || (answer.Took? && answer.count <= |payload|)
    case CloseReq(_, _) => (answer.Refuse? && answer.status != STATUS_SUCCESS) || answer.Shut?
  }

  predicate Legal(sys: Sys, m: Move)
  {
    match m
    case Local(e) => !e.Response?
    case Answers(id, answer, _, _) => Conforms(sys, id, answer)
  }

  /** The response packet of an answer. */
  function Reply(id: nat, answer: Answer, pad: seq<byte>, ok: bool): Event
  {
    match answer
    case Refuse(status) => Response(id, status, pad, ok)
    case Opened(file) => Response(id, STATUS_SUCCESS, Le32(file) + pad, ok)
    case Took(count) => Response(id, STATUS_SUCCESS, Le32(count) + pad, ok)
    case Shut => Response(id, STATUS_SUCCESS, pad, ok)
  }

  /** What the answer does to the client's own files. */
  function Act(c: Client, irp: Irp, answer: Answer): Client
  {
    match (irp.req, answer)
    case (CreateReq(d), Opened(f)) => c.(open := c.open[(d, f) := []])
    case (WriteReq(d, f, _, payload), Took(n)) =>
      if (d, f) in c.open && n <= |payload| then c.(open := c.open[(d, f) := c.open[(d, f)] + payload[..n]]) else c
    case (CloseReq(d, f), Shut) =>
      if (d, f) in c.open then
        Client(c.open - {(d, f)}, c.printed[irp.job := c.open[(d, f)]])
      else c
    case _ => c
  }

  function Next(sys: Sys, m: Move): Sys
    requires Legal(sys, m)
  {
    match m
    case Local(e) => Sys(Step(sys.engine, e), sys.client)
    case Answers(id, answer, pad, ok) =>
      Sys(Step(sys.engine, Reply(id, answer, pad, ok)), Act(sys.client, sys.engine.irps[id], answer))
  }

  /** The job has its file open on the client. */
  predicate HasFile(job: Job)
  {
    job.phase in {WaitWrite, WaitClose, Errored}
  }

  /** Every reply the job got so far was a success. */
  ghost predicate AllGood(log: seq<Effect>, j: nat)
  {
    forall a :: 0 <= a < |log| && log[a].Answered? && log[a].job == j ==> log[a].status == STATUS_SUCCESS
  }

  /** One context and its file, by themselves. */
  ghost predicate StoredAs(job: Job, good: bool, c: Client)
  {
    HasFile(job) ==>
      && job.offset <= |job.data|
      && (job.device, job.file) in c.open
      && c.open[(job.device, job.file)] == job.data[..job.offset]
      && (job.phase == WaitClose && good ==> job.offset == |job.data|)
      && (job.phase == Errored ==> !good)
  }

  ghost predicate Stored(sys: Sys, j: nat)
    requires j in sys.engine.jobs
  {
    StoredAs(sys.engine.jobs[j], AllGood(sys.engine.log, j), sys.client)
  }

  ghost predicate Apart(sys: Sys, i: nat, j: nat)
    requires i in sys.engine.jobs && j in sys.engine.jobs
  {
    var a, b := sys.engine.jobs[i], sys.engine.jobs[j];
    i != j && HasFile(a) && HasFile(b) ==> (a.device, a.file) != (b.device, b.file)
  }

  /** What the client keeps of a job that ends, and when it is all of it. */
  ghost predicate KeptAs(c: Client, j: nat, data: seq<byte>, good: bool)
  {
    && (j in c.printed ==> c.printed[j] <= data)
    && (good ==> j in c.printed && c.printed[j] == data)
  }

  /** What became of a job that is over. */
  ghost predicate Settled(sys: Sys, q: Effect)
    requires q.Queued?
  {
    q.job !in sys.engine.jobs ==> KeptAs(sys.client, q.job, q.data, AllGood(sys.engine.log, q.job))
  }

  ghost predicate EngineOk(s: State)
  {
    Inv(s) && HistoryOk(s.log, s.jobs.Keys, s.nextJob) && AllAgree(s)
  }

  ghost predicate SysInv(sys: Sys)
  {
    && EngineOk(sys.engine)
    && (forall j :: j in sys.engine.jobs ==> Stored(sys, j))
    && (forall i, j :: i in sys.engine.jobs && j in sys.engine.jobs ==> Apart(sys, i, j))
    && (forall j :: j in sys.client.printed ==> j < sys.engine.nextJob && j !in sys.engine.jobs)
    && (forall q :: q in sys.engine.log && q.Queued? ==> Settled(sys, q))
  }

  lemma {:induction false} StepKeepsEngine(s: State, e: Event)
    requires EngineOk(s)
    ensures EngineOk(Step(s, e))
  {
    StepKeepsInv(s, e);
    StepKeepsHistory(s, e);
    StepAgrees(s, e);
  }

  lemma {:induction false} DataIsQueued(s: State, q: Effect)
    requires EngineOk(s) && q in s.log && q.Queued? && q.job in s.jobs
    ensures s.jobs[q.job].data == q.data && s.jobs[q.job].device == q.device
  {
    assert Agrees(s, q);
  }

  /** Entries of other jobs say nothing about the replies of `j`. */
  lemma {:induction false} GoodFrame(log: seq<Effect>, e: Effect, j: nat)
    ensures AllGood(log + [e], j) <==>
      AllGood(log, j) && (e.Answered? && e.job == j ==> e.status == STATUS_SUCCESS)
  {
    if AllGood(log + [e], j) {
      forall a | 0 <= a < |log| && log[a].Answered? && log[a].job == j ensures log[a].status == STATUS_SUCCESS {
        assert (log + [e])[a] == log[a];
      }
      assert (log + [e])[|log|] == e;
    }
  }

  /** From `s` to `t` only job `j` moved; everything else the invariant speaks of is as before. */
  ghost predicate EngineMoved(s: State, t: State, j: nat)
  {
    && s.nextJob <= t.nextJob
    && (forall x :: x != j ==> (x in s.jobs <==> x in t.jobs))
    && (forall x :: x != j && x in s.jobs ==> t.jobs[x] == s.jobs[x])
    && (forall x :: x != j ==> (AllGood(t.log, x) <==> AllGood(s.log, x)))
    && (forall q :: q in t.log && q.Queued? && q.job != j ==> q in s.log)
  }

  ghost predicate SameFile(job: Job, c: Client, c': Client)
  {
    var h := (job.device, job.file);
    h in c'.open && h in c.open && c'.open[h] == c.open[h]
  }

  ghost predicate ClientMoved(s: State, c: Client, c': Client, j: nat)
  {
    && (forall x :: x != j ==> (x in c.printed <==> x in c'.printed))
    && (forall x :: x != j && x in c.printed ==> c'.printed[x] == c.printed[x])
    && (forall x :: x != j && x in s.jobs && HasFile(s.jobs[x]) ==> SameFile(s.jobs[x], c, c'))
  }

  ghost predicate OnlyMoved(sys: Sys, sys': Sys, j: nat)
  {
    EngineMoved(sys.engine, sys'.engine, j) && ClientMoved(sys.engine, sys.client, sys'.client, j)
  }

  lemma {:induction false} OthersKept(sys: Sys, sys': Sys, j: nat)
    requires SysInv(sys) && OnlyMoved(sys, sys', j) && EngineOk(sys'.engine)
    requires j in sys'.engine.jobs ==> Stored(sys', j)
    requires j in sys'.engine.jobs ==> forall x :: x in sys'.engine.jobs ==> Apart(sys', x, j)
    requires j in sys'.client.printed ==> j < sys'.engine.nextJob && j !in sys'.engine.jobs
    requires forall q :: q in sys'.engine.log && q.Queued? && q.job == j ==> Settled(sys', q)
    ensures SysInv(sys')
  {
    var s, t := sys.engine, sys'.engine;
    forall x | x in t.jobs ensures Stored(sys', x) {
      if x != j { assert Stored(sys, x); }
    }
    forall a, b | a in t.jobs && b in t.jobs ensures Apart(sys', a, b) {
      if a != j && b != j { assert Apart(sys, a, b); }
      else if a == j { assert Apart(sys', b, j); }
    }
    forall q | q in t.log && q.Queued? ensures Settled(sys', q) {
      if q.job != j { assert Settled(sys, q); }
    }
  }

  /** The context after a reply that does not end its job. */
  predicate MovedTo(job: Job, next: Job, k: Kind, status: u32, body: seq<byte>, ok: bool, id: nat)
  {
    var job' := Moved(job, k, status, body);
    next == if ok then job'.(completion := id, phase := WaitingFor(Follow(job, k, status, body))) else job'
  }

  /** From `s` to `t` one reply to the IRP `id` was handled. */
  ghost predicate Handled(s: State, t: State, id: nat, status: u32, body: seq<byte>, ok: bool)
    requires id in s.irps
  {
    var j, k := s.irps[id].job, s.irps[id].kind;
    && j in s.jobs && Matches(s.jobs[j], id, s.irps[id])
    && t.nextJob == s.nextJob
    && t.jobs.Keys == (if Ends(k, status, body) then s.jobs.Keys - {j} else s.jobs.Keys)
    && (!Ends(k, status, body) ==> MovedTo(s.jobs[j], t.jobs[j], k, status, body, ok, s.nextId))
    && (forall x :: x != j && x in s.jobs ==> t.jobs[x] == s.jobs[x])
    && (forall q :: q in t.log && q.Queued? ==> q in s.log)
    && (forall x :: AllGood(t.log, x) <==> AllGood(s.log, x) && (x == j ==> status == STATUS_SUCCESS))
  }

  lemma {:induction false} GoodAfterReply(s: State, id: nat, status: u32, body: seq<byte>, ok: bool, last: Effect, x: nat)
    requires id in s.irps && !last.Answered?
    ensures AllGood(Heard(s, id, status, body, ok).log + [last], x) <==>
      AllGood(s.log, x) && (x == s.irps[id].job ==> status == STATUS_SUCCESS)
  {
    var h := Heard(s, id, status, body, ok);
    GoodFrame(s.log, h.log[|s.log|], x);
    GoodFrame(h.log, last, x);
  }

  lemma {:induction false} CallbackHandles(s: State, id: nat, status: u32, body: seq<byte>, ok: bool)
    requires Inv(s) && id in s.irps
    ensures Handled(s, Callback(s, id, status, body, ok), id, status, body, ok)
  {
    CallbackCases(s, id, status, body, ok);
    var t := Callback(s, id, status, body, ok);
    var h := Heard(s, id, status, body, ok);
    var last := t.log[|h.log|];
    assert t.log == h.log + [last] && !last.Answered? && !last.Queued?;
    forall x ensures AllGood(t.log, x) <==> AllGood(s.log, x) && (x == s.irps[id].job ==> status == STATUS_SUCCESS) {
      GoodAfterReply(s, id, status, body, ok, last, x);
    }
  }

  /** An answer under way: `t` is the engine after it, `e` the reply that carries it. */
  ghost predicate Answering(sys: Sys, m: Move, t: State)
  {
    && SysInv(sys) && m.Answers? && Legal(sys, m) && EngineOk(t)
    && var e := Reply(m.id, m.answer, m.pad, m.ok);
    Handled(sys.engine, t, m.id, e.status, e.body, m.ok)
  }

  /** The system after the answer. */
  function After(sys: Sys, m: Move, t: State): Sys
    requires m.Answers? && m.id in sys.engine.irps
  {
    Sys(t, Act(sys.client, sys.engine.irps[m.id], m.answer))
  }

  lemma {:induction false} FilesOfOthers(sys: Sys, id: nat, answer: Answer, x: nat)
    requires SysInv(sys) && Conforms(sys, id, answer) && x in sys.engine.jobs && HasFile(sys.engine.jobs[x])
    requires x != sys.engine.irps[id].job
    ensures SameFile(sys.engine.jobs[x], sys.client, Act(sys.client, sys.engine.irps[id], answer))
  {
    assert Stored(sys, x) && IrpOk(sys.engine, id);
    assert Apart(sys, x, sys.engine.irps[id].job);
  }

  lemma {:induction false} ClientMovesOne(sys: Sys, id: nat, answer: Answer)
    requires SysInv(sys) && Conforms(sys, id, answer)
    ensures ClientMoved(sys.engine, sys.client, Act(sys.client, sys.engine.irps[id], answer), sys.engine.irps[id].job)
  {
    forall x | x != sys.engine.irps[id].job && x in sys.engine.jobs && HasFile(sys.engine.jobs[x])
      ensures SameFile(sys.engine.jobs[x], sys.client, Act(sys.client, sys.engine.irps[id], answer))
    {
      FilesOfOthers(sys, id, answer, x);
    }
  }

  lemma {:induction false} EngineMovesOne(s: State, t: State, id: nat, status: u32, body: seq<byte>, ok: bool)
    requires id in s.irps && Handled(s, t, id, status, body, ok)
    ensures EngineMoved(s, t, s.irps[id].job)
  {
  }

  /** Only the answered job moves. */
  lemma {:induction false} AnswerMovesOne(sys: Sys, m: Move, t: State)
    requires Answering(sys, m, t)
    ensures OnlyMoved(sys, After(sys, m, t), sys.engine.irps[m.id].job)
  {
    var e := Reply(m.id, m.answer, m.pad, m.ok);
    EngineMovesOne(sys.engine, t, m.id, e.status, e.body, m.ok);
    ClientMovesOne(sys, m.id, m.answer);
  }

  /** What a job's file holds after a write is taken. */
  lemma {:induction false} TakenIsPrefix(job: Job, id: nat, irp: Irp, n: u32, pad: seq<byte>)
    requires Matches(job, id, irp) && irp.req.WriteReq? && n <= |irp.req.payload|
    ensures var job' := Moved(job, irp.kind, STATUS_SUCCESS, Le32(n) + pad);
      && irp.kind == WriteKind && job' == job.(offset := job.offset + n) && job'.offset <= |job.data|
      && job.data[..job.offset] + irp.req.payload[..n] == job.data[..job'.offset]
  {
    Le32RoundTrip(n, pad);
  }

  lemma {:induction false} OpenedStored(job: Job, id: nat, irp: Irp, file: u32, pad: seq<byte>, ok: bool, c: Client,
                                        next: Job, nextId: nat, good: bool)
    requires Matches(job, id, irp) && JobOk(job) && irp.req.CreateReq?
    requires MovedTo(job, next, irp.kind, STATUS_SUCCESS, Le32(file) + pad, ok, nextId)
    ensures StoredAs(next, good, Act(c, irp, Opened(file)))
  {
    Le32RoundTrip(file, pad);
  }

  lemma {:induction false} TookStored(job: Job, id: nat, irp: Irp, n: u32, pad: seq<byte>, ok: bool, c: Client,
                                      next: Job, nextId: nat, good: bool)
    requires Matches(job, id, irp) && irp.req.WriteReq? && n <= |irp.req.payload| && StoredAs(job, good, c)
    requires MovedTo(job, next, irp.kind, STATUS_SUCCESS, Le32(n) + pad, ok, nextId)
    ensures StoredAs(next, good, Act(c, irp, Took(n)))
  {
    TakenIsPrefix(job, id, irp, n, pad);
  }

  lemma {:induction false} RefusedStored(job: Job, id: nat, irp: Irp, status: u32, pad: seq<byte>, ok: bool, c: Client,
                                         next: Job, nextId: nat, good: bool)
    requires Matches(job, id, irp) && irp.req.WriteReq? && status != STATUS_SUCCESS && StoredAs(job, good, c)
    requires MovedTo(job, next, irp.kind, status, pad, ok, nextId)
    ensures StoredAs(next, false, Act(c, irp, Refuse(status)))
  {
  }

  /** The job before and after an answer that does not end it, as the engine and the client have it. */
  lemma {:induction false} AnswerFacts(sys: Sys, m: Move, t: State)
    requires Answering(sys, m, t) && sys.engine.irps[m.id].job in t.jobs
    ensures var irp, e := sys.engine.irps[m.id], Reply(m.id, m.answer, m.pad, m.ok);
      && irp.job in sys.engine.jobs && JobOk(sys.engine.jobs[irp.job]) && Matches(sys.engine.jobs[irp.job], m.id, irp)
      && StoredAs(sys.engine.jobs[irp.job], AllGood(sys.engine.log, irp.job), sys.client)
      && MovedTo(sys.engine.jobs[irp.job], t.jobs[irp.job], irp.kind, e.status, e.body, m.ok, sys.engine.nextId)
      && (AllGood(t.log, irp.job) <==> AllGood(sys.engine.log, irp.job) && e.status == STATUS_SUCCESS)
  {
    assert Stored(sys, sys.engine.irps[m.id].job);
  }

  /** Which requests such an answer can be for. */
  lemma {:induction false} AnswerFits(sys: Sys, m: Move, t: State)
    requires Answering(sys, m, t) && sys.engine.irps[m.id].job in t.jobs
    ensures var req := sys.engine.irps[m.id].req;
      match m.answer
      case Opened(_) => req.CreateReq?
      case Took(n) => req.WriteReq? && n <= |req.payload|
      case Refuse(status) => req.WriteReq? && status != STATUS_SUCCESS
      case Shut => false
  {
  }

  lemma {:induction false} AnswerKeepsStored(sys: Sys, m: Move, t: State)
    requires Answering(sys, m, t) && sys.engine.irps[m.id].job in t.jobs
    ensures Stored(After(sys, m, t), sys.engine.irps[m.id].job)
  {
    AnswerFacts(sys, m, t);
    AnswerFits(sys, m, t);
    var irp := sys.engine.irps[m.id];
    StoredAfter(sys.engine.jobs[irp.job], m.id, irp, m.answer, m.pad, m.ok, sys.client, t.jobs[irp.job],
                sys.engine.nextId, AllGood(sys.engine.log, irp.job));
  }

  lemma {:induction false} StoredAfter(job: Job, id: nat, irp: Irp, answer: Answer, pad: seq<byte>, ok: bool, c: Client,
                                       next: Job, nextId: nat, good: bool)
    requires JobOk(job) && Matches(job, id, irp) && StoredAs(job, good, c)
    requires MovedTo(job, next, irp.kind, Reply(id, answer, pad, ok).status, Reply(id, answer, pad, ok).body, ok, nextId)
    requires match answer
      case Opened(_) => irp.req.CreateReq?
      case Took(n) => irp.req.WriteReq? && n <= |irp.req.payload|
      case Refuse(status) => irp.req.WriteReq? && status != STATUS_SUCCESS
      case Shut => false
    ensures StoredAs(next, good && Reply(id, answer, pad, ok).status == STATUS_SUCCESS, Act(c, irp, answer))
  {
    match answer
    case Opened(file) => OpenedStored(job, id, irp, file, pad, ok, c, next, nextId, good);
    case Took(n) => TookStored(job, id, irp, n, pad, ok, c, next, nextId, good);
    case Refuse(status) => RefusedStored(job, id, irp, status, pad, ok, c, next, nextId, good);
  }

  /** `next` still has the handle of `job`, or one it has just been given. */
  predicate SameHandle(job: Job, next: Job, answer: Answer)
  {
    && next.device == job.device
    && (HasFile(next) ==> if answer.Opened? then next.file == answer.file else HasFile(job) && next.file == job.file)
  }

  lemma {:induction false} WriteKeepsHandle(job: Job, next: Job, id: nat, irp: Irp, status: u32, body: seq<byte>, ok: bool, nextId: nat,
                                            answer: Answer)
    requires Matches(job, id, irp) && irp.kind == WriteKind && !answer.Opened?
    requires MovedTo(job, next, irp.kind, status, body, ok, nextId)
    ensures SameHandle(job, next, answer)
  {
  }

  lemma {:induction false} OpenedHandle(job: Job, next: Job, id: nat, irp: Irp, file: u32, pad: seq<byte>, ok: bool, nextId: nat)
    requires Matches(job, id, irp) && irp.kind == CreateKind
    requires MovedTo(job, next, irp.kind, STATUS_SUCCESS, Le32(file) + pad, ok, nextId)
    ensures SameHandle(job, next, Opened(file))
  {
    Le32RoundTrip(file, pad);
  }

  /** A job's handle only changes when its file is opened. */
  lemma {:induction false} HandleMoves(sys: Sys, m: Move, t: State)
    requires Answering(sys, m, t) && sys.engine.irps[m.id].job in t.jobs
    ensures var j := sys.engine.irps[m.id].job; SameHandle(sys.engine.jobs[j], t.jobs[j], m.answer)
  {
    var irp := sys.engine.irps[m.id];
    var job, next := sys.engine.jobs[irp.job], t.jobs[irp.job];
    var e := Reply(m.id, m.answer, m.pad, m.ok);
    match m.answer
    case Opened(file) => OpenedHandle(job, next, m.id, irp, file, m.pad, m.ok, sys.engine.nextId);
    case Shut =>
    case _ => WriteKeepsHandle(job, next, m.id, irp, e.status, e.body, m.ok, sys.engine.nextId, m.answer);
  }

  lemma {:induction false} AnswerKeepsApart(sys: Sys, m: Move, t: State, x: nat)
    requires Answering(sys, m, t) && sys.engine.irps[m.id].job in t.jobs && x in t.jobs
    ensures Apart(After(sys, m, t), x, sys.engine.irps[m.id].job)
  {
    HandleMoves(sys, m, t);
    var j := sys.engine.irps[m.id].job;
    if x != j {
      assert t.jobs[x] == sys.engine.jobs[x];
      assert Stored(sys, x);
      assert Apart(sys, x, j);
    }
  }

  lemma {:induction false} ShutKeeps(job: Job, id: nat, irp: Irp, good: bool, c: Client)
    requires Matches(job, id, irp) && irp.req.CloseReq? && StoredAs(job, good, c)
    ensures KeptAs(Act(c, irp, Shut), irp.job, job.data, good)
  {
    assert job.data[..|job.data|] == job.data;
  }

  lemma {:induction false} RefusedKeeps(c: Client, irp: Irp, status: u32, data: seq<byte>)
    requires irp.job !in c.printed
    ensures KeptAs(Act(c, irp, Refuse(status)), irp.job, data, false)
  {
  }

  /** What the answer to a job's last request leaves with the client. */
  lemma {:induction false} EndKept(job: Job, irp: Irp, id: nat, answer: Answer, pad: seq<byte>, ok: bool, c: Client, good: bool)
    requires Matches(job, id, irp) && StoredAs(job, good, c) && irp.job !in c.printed
    requires answer.Shut? ==> irp.req.CloseReq?
    requires answer.Refuse? ==> answer.status != STATUS_SUCCESS
    requires answer.Shut? || answer.Refuse?
    ensures KeptAs(Act(c, irp, answer), irp.job, job.data, good && Reply(id, answer, pad, ok).status == STATUS_SUCCESS)
  {
    match answer
    case Shut => ShutKeeps(job, id, irp, good, c);
    case Refuse(status) => RefusedKeeps(c, irp, status, job.data);
  }

  /** Only a closing or a refusal ends a job. */
  lemma {:induction false} EndAnswers(sys: Sys, m: Move, t: State)
    requires Answering(sys, m, t) && sys.engine.irps[m.id].job !in t.jobs
    ensures m.answer.Shut? || m.answer.Refuse?
    ensures m.answer.Shut? ==> sys.engine.irps[m.id].req.CloseReq?
    ensures m.answer.Refuse? ==> m.answer.status != STATUS_SUCCESS
  {
  }

  /** A job that ends leaves its data on the client, or had a reply that was no success. */
  lemma {:induction false} EndSettles(sys: Sys, m: Move, t: State, q: Effect)
    requires Answering(sys, m, t) && q in t.log && q.Queued? && q.job == sys.engine.irps[m.id].job
    ensures Settled(After(sys, m, t), q)
  {
    if q.job !in t.jobs {
      DataIsQueued(sys.engine, q);
      assert Stored(sys, q.job);
      EndAnswers(sys, m, t);
      EndKept(sys.engine.jobs[q.job], sys.engine.irps[m.id], m.id, m.answer, m.pad, m.ok, sys.client,
              AllGood(sys.engine.log, q.job));
    }
  }

  /** Only a job that ends has its file closed. */
  lemma {:induction false} PrintedAtEnd(sys: Sys, m: Move, t: State)
    requires Answering(sys, m, t)
    ensures var j := sys.engine.irps[m.id].job;
      j in After(sys, m, t).client.printed ==> j < t.nextJob && j !in t.jobs
  {
    assert IrpOk(sys.engine, m.id);
  }

  lemma {:induction false} AnsweringKeepsSys(sys: Sys, m: Move, t: State)
    requires Answering(sys, m, t)
    ensures SysInv(After(sys, m, t))
  {
    var j := sys.engine.irps[m.id].job;
    var sys' := After(sys, m, t);
    AnswerMovesOne(sys, m, t);
    if j in t.jobs {
      AnswerKeepsStored(sys, m, t);
      forall x | x in t.jobs ensures Apart(sys', x, j) { AnswerKeepsApart(sys, m, t, x); }
    }
    PrintedAtEnd(sys, m, t);
    forall q | q in t.log && q.Queued? && q.job == j ensures Settled(sys', q) { EndSettles(sys, m, t, q); }
    OthersKept(sys, sys', j);
  }

  lemma {:induction false} ReplyHandles(s: State, e: Event)
    requires Inv(s) && e.Response? && e.id in s.irps
    ensures Handled(s, Step(s, e), e.id, e.status, e.body, e.ok)
  {
    CallbackHandles(s, e.id, e.status, e.body, e.ok);
  }

  lemma {:induction false} ReplyParts(sys: Sys, m: Move)
    requires m.Answers? && Legal(sys, m)
    ensures var e := Reply(m.id, m.answer, m.pad, m.ok);
      m.id in sys.engine.irps && e == Response(m.id, e.status, e.body, m.ok)
  {
  }

  lemma {:induction false} StepAnswers(sys: Sys, m: Move)
    requires SysInv(sys) && m.Answers? && Legal(sys, m)
    ensures Answering(sys, m, Step(sys.engine, Reply(m.id, m.answer, m.pad, m.ok)))
  {
    var e := Reply(m.id, m.answer, m.pad, m.ok);
    ReplyParts(sys, m);
    StepKeepsEngine(sys.engine, e);
    ReplyHandles(sys.engine, e);
  }

  lemma {:induction false} AnswerKeepsSys(sys: Sys, m: Move)
    requires SysInv(sys) && m.Answers? && Legal(sys, m)
    ensures SysInv(Next(sys, m))
  {
    StepAnswers(sys, m);
    AnsweringKeepsSys(sys, m, Step(sys.engine, Reply(m.id, m.answer, m.pad, m.ok)));
  }

  lemma {:induction false} LocalKeepsSys(sys: Sys, e: Event)
    requires SysInv(sys) && !e.Response?
    ensures SysInv(Next(sys, Local(e)))
  {
    var s := sys.engine;
    var sys' := Next(sys, Local(e));
    StepKeepsEngine(s, e);
    if sys'.engine.nextJob == s.nextJob {
      assert sys'.engine.jobs == s.jobs && sys'.engine.log == s.log;
      assert OnlyMoved(sys, sys', s.nextJob);
      assert forall q :: q in s.log ==> q.job < s.nextJob;
    } else {
      EnqueueMoves(sys, e);
    }
    OthersKept(sys, sys', s.nextJob);
  }

  lemma {:induction false} EnqueueMoves(sys: Sys, e: Event)
    requires SysInv(sys) && e.Submit? && |e.data| > 0
    ensures var s := sys.engine; var t := Enqueue(s, e.device, e.data, e.ok); var j := s.nextJob;
      && OnlyMoved(sys, Sys(t, sys.client), j)
      && j in t.jobs && !HasFile(t.jobs[j]) && j !in sys.client.printed
  {
    var s := sys.engine;
    var t := Enqueue(s, e.device, e.data, e.ok);
    var q := Link(s, e.device, e.data, e.ok);
    var last := t.log[|q.log|];
    assert t.log == q.log + [last] && !last.Queued?;
    forall x | x != s.nextJob ensures AllGood(t.log, x) <==> AllGood(s.log, x) {
      GoodFrame(s.log, q.log[|s.log|], x);
      GoodFrame(q.log, last, x);
    }
    forall x | x in s.jobs ensures Stored(sys, x) {}
  }

  // Whole runs

  ghost predicate AllLegal(first: nat, moves: seq<Move>)
    decreases |moves|, 0
  {
    moves == [] ||
    (AllLegal(first, moves[..|moves| - 1]) && Legal(SysRun(first, moves[..|moves| - 1]), moves[|moves| - 1]))
  }

  ghost function SysRun(first: nat, moves: seq<Move>): Sys
    requires AllLegal(first, moves)
    decreases |moves|, 1
  {
    if moves == [] then Sys(Initial(first), Client(map[], map[]))
    else Next(SysRun(first, moves[..|moves| - 1]), moves[|moves| - 1])
  }

  lemma {:induction false} SysRunKeepsInv(first: nat, moves: seq<Move>)
    requires AllLegal(first, moves)
    ensures SysInv(SysRun(first, moves))
  {
    if moves != [] {
      var before := moves[..|moves| - 1];
      SysRunKeepsInv(first, before);
      match moves[|moves| - 1]
      case Local(e) => LocalKeepsSys(SysRun(first, before), e);
      case Answers(_, _, _, _) => AnswerKeepsSys(SysRun(first, before), moves[|moves| - 1]);
    }
  }

  ghost predicate Continues(sys: Sys, id: nat)
    requires id in sys.engine.irps && sys.engine.irps[id].req.WriteReq?
  {
    var irp := sys.engine.irps[id];
    var w := irp.req;
    && irp.job in sys.engine.jobs && (w.device, w.file) in sys.client.open
    && var data, held := sys.engine.jobs[irp.job].data, sys.client.open[(w.device, w.file)];
    && 1 <= |w.payload| <= 65536 && w.offset + |w.payload| <= |data|
    && held == data[..w.offset] && held + w.payload == data[..w.offset + |w.payload|]
  }

  lemma {:induction false} OutstandingContinues(sys: Sys, id: nat)
    requires SysInv(sys) && id in sys.engine.irps && sys.engine.irps[id].req.WriteReq?
    ensures Continues(sys, id)
  {
    var irp := sys.engine.irps[id];
    assert IrpOk(sys.engine, id) && Stored(sys, irp.job);
    var job := sys.engine.jobs[irp.job];
    TakenIsPrefix(job, id, irp, |irp.req.payload|, []);
    assert irp.req.payload[..|irp.req.payload|] == irp.req.payload;
  }

  /**
   While a WRITE is outstanding the client's file is exactly the data before the WRITE's
   offset, and the WRITE carries the bytes that come next.
   */
  lemma WritesContinueTheFile(first: nat, moves: seq<Move>)
    requires AllLegal(first, moves)
    ensures var sys := SysRun(first, moves);
      forall id :: id in sys.engine.irps && sys.engine.irps[id].req.WriteReq? ==> Continues(sys, id)
  {
    SysRunKeepsInv(first, moves);
    var sys := SysRun(first, moves);
    forall id | id in sys.engine.irps && sys.engine.irps[id].req.WriteReq? ensures Continues(sys, id) {
      OutstandingContinues(sys, id);
    }
  }

  /**
   End of the line: whatever the client closed is a prefix of the job's data, and a job that
   is over after successful replies only has left exactly its data in its file.
   */
  lemma Delivered(first: nat, moves: seq<Move>, q: Effect)
    requires AllLegal(first, moves)
    requires q.Queued? && q in SysRun(first, moves).engine.log
    ensures var sys := SysRun(first, moves);
      && (q.job in sys.client.printed ==> sys.client.printed[q.job] <= q.data)
      && (q.job !in sys.engine.jobs && AllGood(sys.engine.log, q.job) ==>
            q.job in sys.client.printed && sys.client.printed[q.job] == q.data)
  {
    SysRunKeepsInv(first, moves);
    assert Settled(SysRun(first, moves), q);
  }
}
