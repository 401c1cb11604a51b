/**
 Non-interference: what a run of many jobs does for one job is what that job does
 alone, given its own data and its own replies, completion ids aside.
 */
module Solo {
  import opened Octets
  import opened SendSpec
  import opened Ownership

  /** One reply, and whether an IRP could be allocated after it. */
  datatype Input = Input(status: u32, body: seq<byte>, ok: bool)

  /** What is seen of one job; requests carry no completion id. */
  datatype Act = Asked(req: Request) | Denied | Told(input: Input) | Gone

  datatype Stage = Opening | Writing | Closing | Stuck | Over

  datatype Single = Single(device: u32, data: Buffer, file: u32, offset: u32, at: Stage, trace: seq<Act>)

  /** The request of a job at `next`. */
  function Want(r: Single, next: Stage): Request
    requires next.Writing? ==> r.offset < |r.data|
  {
    match next
    case Opening => CreateReq(r.device)
    case Writing =>
      WriteReq(r.device, r.file, r.offset, r.data[r.offset..Min(|r.data|, r.offset + CHUNK)])
    case _ => CloseReq(r.device, r.file)
  }

  function Ask(r: Single, next: Stage, ok: bool): Single
    requires next.Writing? ==> r.offset < |r.data|
  {
    if !ok then r.(at := Stuck, trace := r.trace + [Denied])
    else r.(at := next, trace := r.trace + [Asked(Want(r, next))])
  }

  /** One job that hears one reply. A job without a pending request hears nothing. */
  function Hear(r: Single, i: Input): Single
    requires |r.data| > 0 && (r.at.Opening? ==> r.offset == 0)
  {
    var h := r.(trace := r.trace + [Told(i)]);
    match r.at
    case Opening =>
      if Usable(i.status, i.body) then Ask(h.(file := ReadLe32(i.body)), Writing, i.ok)
      else h.(at := Over, trace := h.trace + [Gone])
    case Writing =>
      if !Usable(i.status, i.body) then Ask(h, Closing, i.ok)
      else
        var moved := h.(offset := Add32(h.offset, ReadLe32(i.body)));
        Ask(moved, if moved.offset < |r.data| then Writing else Closing, i.ok)
    case Closing => h.(at := Over, trace := h.trace + [Gone])
    case _ => r
  }

  /** The single-job run: a function of the job's data and its replies alone. */
  function Alone(device: u32, data: Buffer, ok: bool, inputs: seq<Input>): (r: Single)
    requires |data| > 0
    ensures r.device == device && r.data == data && (r.at.Opening? ==> r.offset == 0)
  {
    if inputs == [] then Ask(Single(device, data, 0, 0, Stuck, []), Opening, ok)
    else Hear(Alone(device, data, ok, inputs[..|inputs| - 1]), inputs[|inputs| - 1])
  }

  function InputsOf(e: Effect, j: nat): seq<Input>
  {
    if e.job == j && e.Answered? then [Input(e.status, e.body, e.ok)] else []
  }

  function ActsOf(e: Effect, j: nat): seq<Act>
  {
    if e.job != j then [] else
      match e
      case Queued(_, _, _, _) => []
      case Answered(_, _, status, body, ok) => [Told(Input(status, body, ok))]
      case Sent(_, _, req) => [Asked(req)]
      case Starved(_) => [Denied]
      case Freed(_) => [Gone]
  }

  /** The replies of job `j` in a history of many jobs. */
  function Inputs(log: seq<Effect>, j: nat): seq<Input>
  {
    if log == [] then [] else Inputs(log[..|log| - 1], j) + InputsOf(log[|log| - 1], j)
  }

  /** The projection of a history of many jobs onto job `j`. */
  function Acts(log: seq<Effect>, j: nat): seq<Act>
  {
    if log == [] then [] else Acts(log[..|log| - 1], j) + ActsOf(log[|log| - 1], j)
  }

  lemma {:induction false} Snoc(log: seq<Effect>, e: Effect, j: nat)
    ensures Inputs(log + [e], j) == Inputs(log, j) + InputsOf(e, j)
    ensures Acts(log + [e], j) == Acts(log, j) + ActsOf(e, j)
  {
    assert (log + [e])[..|log|] == log;
  }

  lemma {:induction false} NothingYet(log: seq<Effect>, j: nat)
    requires forall a :: 0 <= a < |log| ==> log[a].job < j
    ensures Inputs(log, j) == [] && Acts(log, j) == []
  {
    if log != [] {
      assert log[|log| - 1].job < j;
      NothingYet(log[..|log| - 1], j);
    }
  }

  function StageOf(k: Kind): Stage
  {
    match k
    case CreateKind => Opening
    case WriteKind => Writing
    case CloseKind => Closing
  }

  /** The engine's record of job `j` and the single-job run `r` describe the same situation. */
  ghost predicate Linked(s: State, j: nat, r: Single)
  {
    if j !in s.jobs then r.at.Over?
    else
      var job := s.jobs[j];
      && r.device == job.device && r.data == job.data && r.offset == job.offset
      && !r.at.Over?
      && (r.at.Stuck? <==> !Waits(s, j))
      && (Waits(s, j) ==> r.at == StageOf(s.irps[job.completion].kind))
      && (r.at.Writing? || r.at.Closing? ==> r.file == job.file)
  }

  ghost predicate Agrees(s: State, q: Effect)
    requires q.Queued? && |q.data| > 0
  {
    var r := Alone(q.device, q.data, q.ok, Inputs(s.log, q.job));
    Acts(s.log, q.job) == r.trace && Linked(s, q.job, r)
  }

  ghost predicate AllAgree(s: State)
  {
    forall q :: q in s.log && q.Queued? ==> |q.data| > 0 && Agrees(s, q)
  }

  lemma {:induction false} WantIsRequest(job: Job, k: Kind, r: Single)
    requires Ready(job, k)
    requires r.device == job.device && r.data == job.data && r.offset == job.offset
    requires k != CreateKind ==> r.file == job.file
    ensures (k == WriteKind ==> InsideBuffer(job)) && Want(r, StageOf(k)) == RequestFor(k, job)
  {
  }

  /** The single run `r` and the in-hand context `j` carry the same values. */
  ghost predicate Tracks(s: State, j: nat, k: Kind, r: Single)
  {
    && j in s.jobs && Handling(s, j) && Ready(s.jobs[j], k)
    && r.device == s.jobs[j].device && r.data == s.jobs[j].data && r.offset == s.jobs[j].offset
    && (k != CreateKind ==> r.file == s.jobs[j].file)
    && Acts(s.log, j) == r.trace
  }

  lemma {:induction false} SendIsAsk(s: State, j: nat, k: Kind, r: Single)
    requires Tracks(s, j, k, r)
    ensures var t := Issue(s, j, k, true);
      Acts(t.log, j) == Ask(r, StageOf(k), true).trace && Inputs(t.log, j) == Inputs(s.log, j)
    ensures Linked(Issue(s, j, k, true), j, Ask(r, StageOf(k), true))
  {
    var job := s.jobs[j];
    WantIsRequest(job, k, r);
    var e := Sent(j, s.nextId, RequestFor(k, job));
    var t := Issue(s, j, k, true);
    assert t.log == s.log + [e];
    Snoc(s.log, e, j);
    assert t.jobs[j].completion == s.nextId && t.irps[s.nextId].job == j && t.irps[s.nextId].kind == k;
    assert Waits(t, j);
  }

  lemma {:induction false} StarveIsAsk(s: State, j: nat, k: Kind, r: Single)
    requires Tracks(s, j, k, r)
    ensures var t := Issue(s, j, k, false);
      Acts(t.log, j) == Ask(r, StageOf(k), false).trace && Inputs(t.log, j) == Inputs(s.log, j)
    ensures Linked(Issue(s, j, k, false), j, Ask(r, StageOf(k), false))
  {
    Snoc(s.log, Starved(j), j);
  }

  /** `Issue` on the in-hand context `j` is `Ask` of its single run. */
  lemma {:induction false} IssueIsAsk(s: State, j: nat, k: Kind, ok: bool, r: Single)
    requires Tracks(s, j, k, r)
    ensures var t := Issue(s, j, k, ok); var u := Ask(r, StageOf(k), ok);
      Acts(t.log, j) == u.trace && Linked(t, j, u) && Inputs(t.log, j) == Inputs(s.log, j)
  {
    if ok { SendIsAsk(s, j, k, r); } else { StarveIsAsk(s, j, k, r); }
  }

  /** The next request after the reply `i`, seen from the single run. */
  lemma {:induction false} HearIsAsk(r: Single, i: Input, job: Job, k: Kind)
    requires r.at == StageOf(k) && r.data == job.data && r.offset == job.offset && |job.data| > 0
    requires k == CreateKind ==> r.offset == 0
    requires !Ends(k, i.status, i.body) && (k != CreateKind ==> r.file == job.file)
    ensures var job' := Moved(job, k, i.status, i.body);
      var h := r.(trace := r.trace + [Told(i)], file := if k == CreateKind then job'.file else r.file, offset := job'.offset);
      var next := Follow(job, k, i.status, i.body);
      && (next == WriteKind ==> h.offset < |h.data|)
      && Hear(r, i) == Ask(h, StageOf(next), i.ok)
  {
  }

  lemma {:induction false} HearIsOver(r: Single, i: Input, k: Kind)
    requires r.at == StageOf(k) && |r.data| > 0 && (k == CreateKind ==> r.offset == 0)
    requires Ends(k, i.status, i.body)
    ensures Hear(r, i) == r.(at := Over, trace := r.trace + [Told(i)] + [Gone])
  {
  }

  /** The job of the answered IRP before its reply: its single run waits at the IRP's stage. */
  lemma {:induction false} BeforeReply(s: State, id: nat, i: Input, q: Effect) returns (r: Single)
    requires Inv(s) && id in s.irps && q.Queued? && q.job == s.irps[id].job && |q.data| > 0
    requires Agrees(s, q)
    ensures var j, k := s.irps[id].job, s.irps[id].kind;
      && r == Alone(q.device, q.data, q.ok, Inputs(s.log, j))
      && Hear(r, i) == Alone(q.device, q.data, q.ok, Inputs(s.log, j) + [i])
      && j in s.jobs && r.at == StageOf(k) && r.data == s.jobs[j].data && r.offset == s.jobs[j].offset
      && r.device == s.jobs[j].device && (k != CreateKind ==> r.file == s.jobs[j].file)
      && Acts(s.log, j) == r.trace && |r.data| > 0
  {
    var ins := Inputs(s.log, q.job);
    r := Alone(q.device, q.data, q.ok, ins);
    assert IrpOk(s, id) && Waits(s, q.job);
    assert (ins + [i])[..|ins|] == ins;
  }

  /** A last reply and the end, as the job sees them. */
  lemma {:induction false} EndLog(log: seq<Effect>, j: nat, k: Kind, i: Input)
    ensures var after := log + [Answered(j, k, i.status, i.body, i.ok)] + [Freed(j)];
      Inputs(after, j) == Inputs(log, j) + [i] && Acts(after, j) == Acts(log, j) + [Told(i)] + [Gone]
  {
    var answered := Answered(j, k, i.status, i.body, i.ok);
    Snoc(log, answered, j);
    Snoc(log + [answered], Freed(j), j);
    var ins := Inputs(log, j);
    assert ins + [i] + [] == ins + [i];
  }

  /** Two effects of another job are not seen. */
  lemma {:induction false} OthersUnseen(log: seq<Effect>, e: Effect, f: Effect, x: nat)
    requires e.job != x && f.job != x
    ensures Inputs(log + [e] + [f], x) == Inputs(log, x) && Acts(log + [e] + [f], x) == Acts(log, x)
  {
    Snoc(log, e, x);
    Snoc(log + [e], f, x);
  }

  lemma {:induction false} EndAgrees(s: State, id: nat, i: Input, q: Effect)
    requires Inv(s) && id in s.irps && q.Queued? && q.job == s.irps[id].job && |q.data| > 0
    requires Agrees(s, q) && Ends(s.irps[id].kind, i.status, i.body)
    ensures Agrees(Remove(Heard(s, id, i.status, i.body, i.ok), q.job), q)
  {
    var r := BeforeReply(s, id, i, q);
    HearIsOver(r, i, s.irps[id].kind);
    EndLog(s.log, q.job, s.irps[id].kind, i);
  }

  lemma {:induction false} FollowAgrees(s: State, id: nat, i: Input, q: Effect)
    requires Inv(s) && id in s.irps && q.Queued? && q.job == s.irps[id].job && |q.data| > 0
    requires Agrees(s, q) && !Ends(s.irps[id].kind, i.status, i.body) && q.job in s.jobs
    requires Ready(Moved(s.jobs[q.job], s.irps[id].kind, i.status, i.body),
                   Follow(s.jobs[q.job], s.irps[id].kind, i.status, i.body))
    ensures var j, k := q.job, s.irps[id].kind;
      Agrees(Issue(Update(Heard(s, id, i.status, i.body, i.ok), j, Moved(s.jobs[j], k, i.status, i.body)),
                   j, Follow(s.jobs[j], k, i.status, i.body), i.ok), q)
  {
    var j, k := q.job, s.irps[id].kind;
    var r := BeforeReply(s, id, i, q);
    var job := s.jobs[j];
    var t := Heard(s, id, i.status, i.body, i.ok);
    Snoc(s.log, t.log[|s.log|], j);
    var job' := Moved(job, k, i.status, i.body);
    AnswerHandles(s, id, job', t.log);
    assert IrpOk(s, id);
    HearIsAsk(r, i, job, k);
    var h := r.(trace := r.trace + [Told(i)], file := if k == CreateKind then job'.file else r.file,
                offset := job'.offset);
    IssueIsAsk(Update(t, j, job'), j, Follow(job, k, i.status, i.body), i.ok, h);
  }

  lemma {:induction false} CallbackIsHear(s: State, id: nat, status: u32, body: seq<byte>, ok: bool, q: Effect)
    requires Inv(s) && id in s.irps && q.Queued? && q.job == s.irps[id].job && |q.data| > 0
    requires Agrees(s, q)
    ensures Agrees(Callback(s, id, status, body, ok), q)
  {
    CallbackCases(s, id, status, body, ok);
    var i := Input(status, body, ok);
    if Ends(s.irps[id].kind, status, body) { EndAgrees(s, id, i, q); } else { FollowAgrees(s, id, i, q); }
  }

  /** From `s` to `t` nothing changes that job `x` could notice. */
  ghost predicate Unmoved(s: State, t: State, x: nat)
  {
    && Inputs(t.log, x) == Inputs(s.log, x) && Acts(t.log, x) == Acts(s.log, x)
    && (x in t.jobs <==> x in s.jobs)
    && (x in s.jobs ==> t.jobs[x] == s.jobs[x] && (Waits(t, x) <==> Waits(s, x)))
    && (x in s.jobs && Waits(s, x) ==> t.irps[s.jobs[x].completion] == s.irps[s.jobs[x].completion])
  }

  lemma {:induction false} IssueUnmoved(s: State, j: nat, k: Kind, ok: bool, x: nat)
    requires j in s.jobs && Handling(s, j) && Ready(s.jobs[j], k) && x != j
    requires x in s.jobs ==> s.jobs[x].completion != s.nextId || !Waits(s, x)
    ensures Unmoved(s, Issue(s, j, k, ok), x)
  {
    if ok {
      assert k == WriteKind ==> InsideBuffer(s.jobs[j]);
      Snoc(s.log, Sent(j, s.nextId, RequestFor(k, s.jobs[j])), x);
    } else {
      Snoc(s.log, Starved(j), x);
    }
  }

  /** Other jobs notice nothing: neither their projection nor their record changes. */
  lemma {:induction false} CallbackLeavesOthers(s: State, id: nat, i: Input, x: nat)
    requires Inv(s) && id in s.irps && x != s.irps[id].job
    ensures Unmoved(s, Callback(s, id, i.status, i.body, i.ok), x)
  {
    CallbackCases(s, id, i.status, i.body, i.ok);
    if Ends(s.irps[id].kind, i.status, i.body) { EndUnmoved(s, id, i, x); } else { FollowUnmoved(s, id, i, x); }
  }

  lemma {:induction false} EndUnmoved(s: State, id: nat, i: Input, x: nat)
    requires Inv(s) && id in s.irps && x != s.irps[id].job
    ensures Unmoved(s, Remove(Heard(s, id, i.status, i.body, i.ok), s.irps[id].job), x)
  {
    var j, k := s.irps[id].job, s.irps[id].kind;
    assert IrpOk(s, id);
    OthersUnseen(s.log, Answered(j, k, i.status, i.body, i.ok), Freed(j), x);
    GoneUnmoved(s, Remove(Heard(s, id, i.status, i.body, i.ok), j), id, j, x);
  }

  lemma {:induction false} GoneUnmoved(s: State, t: State, id: nat, j: nat, x: nat)
    requires t.jobs == s.jobs - {j} && t.irps == s.irps - {id} && x != j
    requires id in s.irps && s.irps[id].job == j
    requires Inputs(t.log, x) == Inputs(s.log, x) && Acts(t.log, x) == Acts(s.log, x)
    ensures Unmoved(s, t, x)
  {
    if x in s.jobs && Waits(s, x) { assert s.jobs[x].completion != id; }
  }

  lemma {:induction false} FollowUnmoved(s: State, id: nat, i: Input, x: nat)
    requires Inv(s) && id in s.irps && x != s.irps[id].job && s.irps[id].job in s.jobs
    requires Ready(Moved(s.jobs[s.irps[id].job], s.irps[id].kind, i.status, i.body),
                   Follow(s.jobs[s.irps[id].job], s.irps[id].kind, i.status, i.body))
    ensures var j, k := s.irps[id].job, s.irps[id].kind;
      Unmoved(s, Issue(Update(Heard(s, id, i.status, i.body, i.ok), j, Moved(s.jobs[j], k, i.status, i.body)),
                       j, Follow(s.jobs[j], k, i.status, i.body), i.ok), x)
  {
    var j, k := s.irps[id].job, s.irps[id].kind;
    var t := Heard(s, id, i.status, i.body, i.ok);
    Snoc(s.log, t.log[|s.log|], x);
    var job' := Moved(s.jobs[j], k, i.status, i.body);
    AnswerUnmoved(s, id, job', t.log, x);
    IssueUnmoved(Update(t, j, job'), j, Follow(s.jobs[j], k, i.status, i.body), i.ok, x);
  }

  lemma {:induction false} AnswerUnmoved(s: State, id: nat, job: Job, log: seq<Effect>, x: nat)
    requires Inv(s) && id in s.irps && x != s.irps[id].job
    requires Inputs(log, x) == Inputs(s.log, x) && Acts(log, x) == Acts(s.log, x)
    ensures var j := s.irps[id].job; var t := Update(s.(irps := s.irps - {id}, log := log), j, job);
      && Unmoved(s, t, x) && j in t.jobs && Handling(t, j)
      && (x in t.jobs ==> t.jobs[x].completion != t.nextId || !Waits(t, x))
  {
    AnswerHandles(s, id, job, log);
    assert IrpOk(s, id);
  }

  lemma {:induction false} EnqueueAgrees(s: State, device: u32, data: Buffer, ok: bool)
    requires Inv(s) && HistoryOk(s.log, s.jobs.Keys, s.nextJob) && |data| > 0
    ensures Agrees(Enqueue(s, device, data, ok), Queued(s.nextJob, device, data, ok))
  {
    var j := s.nextJob;
    var q := Link(s, device, data, ok);
    NothingYet(s.log, j);
    Snoc(s.log, Queued(j, device, data, ok), j);
    LinkHandles(s, device, data, ok);
    IssueIsAsk(q, j, CreateKind, ok, Single(device, data, 0, 0, Stuck, []));
  }

  lemma {:induction false} EnqueueLeavesOthers(s: State, device: u32, data: Buffer, ok: bool, x: nat)
    requires Inv(s) && |data| > 0 && x != s.nextJob
    ensures Unmoved(s, Enqueue(s, device, data, ok), x)
  {
    var q := Link(s, device, data, ok);
    Snoc(s.log, Queued(s.nextJob, device, data, ok), x);
    assert Unmoved(s, q, x);
    LinkHandles(s, device, data, ok);
    IssueUnmoved(q, s.nextJob, CreateKind, ok, x);
  }

  lemma {:induction false} UnmovedAgrees(s: State, t: State, q: Effect)
    requires q.Queued? && |q.data| > 0 && Agrees(s, q) && Unmoved(s, t, q.job)
    ensures Agrees(t, q)
  {
  }

  lemma {:induction false} ResponseAgrees(s: State, id: nat, i: Input)
    requires Inv(s) && AllAgree(s) && id in s.irps
    ensures AllAgree(Callback(s, id, i.status, i.body, i.ok))
  {
    var t := Callback(s, id, i.status, i.body, i.ok);
    forall q | q in t.log && q.Queued? ensures |q.data| > 0 && Agrees(t, q) {
      CallbackCases(s, id, i.status, i.body, i.ok);
      assert q in s.log;
      if q.job == s.irps[id].job {
        CallbackIsHear(s, id, i.status, i.body, i.ok, q);
      } else {
        CallbackLeavesOthers(s, id, i, q.job);
        UnmovedAgrees(s, t, q);
      }
    }
  }

  lemma {:induction false} SubmitAgrees(s: State, device: u32, data: Buffer, ok: bool)
    requires Inv(s) && HistoryOk(s.log, s.jobs.Keys, s.nextJob) && AllAgree(s) && |data| > 0
    ensures AllAgree(Enqueue(s, device, data, ok))
  {
    var t := Enqueue(s, device, data, ok);
    EnqueueAgrees(s, device, data, ok);
    forall q | q in t.log && q.Queued? ensures |q.data| > 0 && Agrees(t, q) {
      if q in s.log {
        EnqueueLeavesOthers(s, device, data, ok, q.job);
        UnmovedAgrees(s, t, q);
      } else {
        assert q == Queued(s.nextJob, device, data, ok);
      }
    }
  }

  lemma {:induction false} StepAgrees(s: State, e: Event)
    requires Inv(s) && HistoryOk(s.log, s.jobs.Keys, s.nextJob) && AllAgree(s)
    ensures AllAgree(Step(s, e))
  {
    match e
    case Response(id, status, body, ok) =>
      if id in s.irps { ResponseAgrees(s, id, Input(status, body, ok)); }
    case Submit(device, data, memory, ok) =>
      if Step(s, e) != s { SubmitAgrees(s, device, data, ok); }
    case _ =>
      var t := Step(s, e);
      forall q | q in t.log && q.Queued? ensures |q.data| > 0 && Agrees(t, q) { assert Agrees(s, q); }
  }

  lemma {:induction false} RunAgrees(first: nat, events: seq<Event>)
    ensures AllAgree(Run(Initial(first), events))
  {
    if events != [] {
      var before := events[..|events| - 1];
      RunAgrees(first, before);
      RunKeepsOwnership(first, before);
      StepAgrees(Run(Initial(first), before), events[|events| - 1]);
    }
  }

  /** The projection of any interleaved run onto a job is that job's single run. */
  lemma {:induction false} NonInterference(first: nat, events: seq<Event>, q: Effect)
    requires q.Queued? && q in Run(Initial(first), events).log
    ensures |q.data| > 0
    ensures var log := Run(Initial(first), events).log;
      Acts(log, q.job) == Alone(q.device, q.data, q.ok, Inputs(log, q.job)).trace
  {
    RunAgrees(first, events);
  }

  /** Two runs in which a job has the same data and the same replies look the same to it. */
  lemma {:induction false} SameRepliesSameActs(first: nat, events: seq<Event>, first': nat, events': seq<Event>, q: Effect, q': Effect)
    requires var log, log' := Run(Initial(first), events).log, Run(Initial(first'), events').log;
      && q in log && q' in log' && q.Queued? && q' == Queued(q'.job, q.device, q.data, q.ok)
      && Inputs(log, q.job) == Inputs(log', q'.job)
    ensures var log, log' := Run(Initial(first), events).log, Run(Initial(first'), events').log;
      Acts(log, q.job) == Acts(log', q'.job)
  {
    NonInterference(first, events, q);
    NonInterference(first', events', q');
  }

  // Every single run is real

  /** The history after a reply: the reply, and what was done about it. */
  lemma {:induction false} CallbackLog(s: State, id: nat, i: Input) returns (last: Effect)
    requires Inv(s) && id in s.irps
    ensures Step(s, Response(id, i.status, i.body, i.ok)).log == Heard(s, id, i.status, i.body, i.ok).log + [last]
    ensures !last.Answered? && Step(s, Response(id, i.status, i.body, i.ok)).nextJob == s.nextJob
  {
    CallbackCases(s, id, i.status, i.body, i.ok);
    var h := Heard(s, id, i.status, i.body, i.ok);
    last := Callback(s, id, i.status, i.body, i.ok).log[|h.log|];
  }

  /** A reply that a context waits for is the next input of its history. */
  lemma {:induction false} ReplyIsInput(s: State, id: nat, i: Input)
    requires Inv(s) && id in s.irps
    ensures var t := Step(s, Response(id, i.status, i.body, i.ok));
      && Inputs(t.log, s.irps[id].job) == Inputs(s.log, s.irps[id].job) + [i]
      && s.log <= t.log && t.nextJob == s.nextJob
  {
    var j := s.irps[id].job;
    var answered := Answered(j, s.irps[id].kind, i.status, i.body, i.ok);
    var last := CallbackLog(s, id, i);
    Snoc(s.log, answered, j);
    Snoc(s.log + [answered], last, j);
  }

  /** A printer and one job for it. */
  function FirstEvents(device: u32, data: Buffer, ok: bool): seq<Event>
  {
    [Announced(device), Submit(device, data, true, ok)]
  }

  lemma {:induction false} FirstRun(first: nat, device: u32, data: Buffer, ok: bool)
    requires |data| > 0
    ensures var s := Run(Initial(first), FirstEvents(device, data, ok));
      && s.nextJob == 1 && Queued(0, device, data, ok) in s.log && Inputs(s.log, 0) == []
  {
    var q := Queued(0, device, data, ok);
    RunSnoc(Initial(first), [], Announced(device));
    RunSnoc(Initial(first), [] + [Announced(device)], Submit(device, data, true, ok));
    assert [] + [Announced(device)] + [Submit(device, data, true, ok)] == FirstEvents(device, data, ok);
    var one := Step(Initial(first), Announced(device));
    var last := FirstLog(one, device, data, ok);
    Snoc([], q, 0);
    Snoc([q], last, 0);
    assert [] + [q] == [q];
  }

  lemma RunSnoc(s: State, events: seq<Event>, e: Event)
    ensures Run(s, events + [e]) == Step(Run(s, events), e)
  {
    assert (events + [e])[..|events|] == events;
  }

  lemma {:induction false} FirstLog(s: State, device: u32, data: Buffer, ok: bool) returns (last: Effect)
    requires s.log == [] && device in s.devices && |data| > 0 && s.nextJob == 0
    ensures Step(s, Submit(device, data, true, ok)).log == [Queued(0, device, data, ok)] + [last] && !last.Answered?
    ensures Step(s, Submit(device, data, true, ok)).nextJob == 1
  {
    last := Step(s, Submit(device, data, true, ok)).log[1];
  }

  /** A run of the engine with one job, `q`, which has come as far as the single run has with `inputs`. */
  ghost predicate Realised(first: nat, events: seq<Event>, q: Effect, inputs: seq<Input>)
    requires q.Queued? && |q.data| > 0
  {
    var s := Run(Initial(first), events);
    && s.nextJob == 1 && q in s.log
    && Alone(q.device, q.data, q.ok, Inputs(s.log, q.job)) == Alone(q.device, q.data, q.ok, inputs)
  }

  lemma {:induction false} OneMoreReply(first: nat, q: Effect, events: seq<Event>, inputs: seq<Input>, i: Input)
      returns (more: seq<Event>)
    requires q.Queued? && |q.data| > 0 && Realised(first, events, q, inputs)
    ensures Realised(first, more, q, inputs + [i])
  {
    var s := Run(Initial(first), events);
    RunAgrees(first, events);
    RunKeepsOwnership(first, events);
    assert Agrees(s, q);
    var heard, j := Inputs(s.log, q.job), q.job;
    assert (inputs + [i])[..|inputs|] == inputs && (heard + [i])[..|heard|] == heard;
    if j in s.jobs && Waits(s, j) {
      var id := s.jobs[j].completion;
      ReplyIsInput(s, id, i);
      more := events + [Response(id, i.status, i.body, i.ok)];
      RunSnoc(Initial(first), events, Response(id, i.status, i.body, i.ok));
    } else {
      more := events;
    }
  }

  lemma {:induction false} Realise(first: nat, q: Effect, inputs: seq<Input>) returns (events: seq<Event>)
    requires q.Queued? && |q.data| > 0 && q.job == 0
    ensures Realised(first, events, q, inputs)
  {
    if inputs == [] {
      events := FirstEvents(q.device, q.data, q.ok);
      FirstRun(first, q.device, q.data, q.ok);
    } else {
      var n := |inputs| - 1;
      events := Realise(first, q, inputs[..n]);
      events := OneMoreReply(first, q, events, inputs[..n], inputs[n]);
      assert inputs[..n] + [inputs[n]] == inputs;
    }
  }

  /**
   The single-job run is no more than what the engine does: for any replies there is a run of
   the engine with that job alone whose projection it is.
   */
  lemma {:induction false} AloneIsReal(first: nat, device: u32, data: Buffer, ok: bool, inputs: seq<Input>)
      returns (events: seq<Event>)
    requires |data| > 0
    ensures var s := Run(Initial(first), events);
      s.nextJob == 1 && Queued(0, device, data, ok) in s.log && Acts(s.log, 0) == Alone(device, data, ok, inputs).trace
  {
    events := Realise(first, Queued(0, device, data, ok), inputs);
    NonInterference(first, events, Queued(0, device, data, ok));
  }
}
