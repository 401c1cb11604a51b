/**
 The form of a job's requests, and how many exchanges it takes: CREATE, WRITE*, CLOSE,
 with each WRITE inside the data and starting where the reply to the one before left off.
 */
module Progress {
  import opened Octets
  import opened SendSpec
  import opened Ownership
  import opened Solo

  function Requests(trace: seq<Act>): seq<Request>
  {
    if trace == [] then []
    else Requests(trace[..|trace| - 1]) +
         (var a := trace[|trace| - 1]; if a.Asked? then [a.req] else [])
  }

  lemma RequestsSnoc(trace: seq<Act>, a: Act)
    ensures Requests(trace + [a]) == if a.Asked? then Requests(trace) + [a.req] else Requests(trace)
  {
    assert (trace + [a])[..|trace|] == trace;
  }

  /** A WRITE of 1 to 65536 bytes of `data`, as many as remain, taken at its own offset. */
  predicate WriteOk(w: Request, device: u32, data: Buffer)
  {
    && w.WriteReq? && w.device == device
    && w.offset + |w.payload| <= |data|
    && w.payload == data[w.offset..w.offset + |w.payload|]
    && 1 <= |w.payload| <= 65536
    && (|w.payload| < 65536 ==> w.offset + |w.payload| == |data|)
  }

  predicate FormAt(reqs: seq<Request>, i: nat, device: u32, data: Buffer, file: u32)
    requires i < |reqs|
  {
    if i == 0 then reqs[0] == CreateReq(device)
    else
      || (WriteOk(reqs[i], device, data) && reqs[i].file == file)
      || (i >= 2 && i == |reqs| - 1 && reqs[i] == CloseReq(device, file))
  }

  /** CREATE first, CLOSE only last and after some WRITE, all WRITEs and the CLOSE on one file. */
  ghost predicate Form(reqs: seq<Request>, device: u32, data: Buffer, file: u32)
  {
    forall i :: 0 <= i < |reqs| ==> FormAt(reqs, i, device, data, file)
  }

  predicate StartsRight(reqs: seq<Request>, inputs: seq<Input>, i: nat)
    requires 1 <= i < |reqs|
  {
    reqs[i].WriteReq? ==>
      && i <= |inputs|
      && |inputs[i - 1].body| >= 4
      && (if i == 1 then reqs[i].offset == 0
          else reqs[i - 1].WriteReq? && reqs[i].offset == Add32(reqs[i - 1].offset, ReadLe32(inputs[i - 1].body)))
  }

  /** Each WRITE starts where the reply to the request before it says the client stands. */
  ghost predicate Contiguous(reqs: seq<Request>, inputs: seq<Input>)
  {
    forall i :: 1 <= i < |reqs| ==> StartsRight(reqs, inputs, i)
  }

  /** A sequence of requests may be extended by a WRITE or a CLOSE that fits at its end. */
  lemma {:induction false} Extend(reqs: seq<Request>, inputs: seq<Input>, i: Input, req: Request,
                                  device: u32, data: Buffer, file: u32, file': u32)
    requires Form(reqs, device, data, file) && Contiguous(reqs, inputs)
    requires |reqs| >= 1 && (|reqs| > 1 ==> reqs[|reqs| - 1].WriteReq? && file' == file)
    requires FormAt(reqs + [req], |reqs|, device, data, file') && StartsRight(reqs + [req], inputs + [i], |reqs|)
    ensures Form(reqs + [req], device, data, file') && Contiguous(reqs + [req], inputs + [i])
  {
    var more := reqs + [req];
    forall k | 0 <= k < |more| ensures FormAt(more, k, device, data, file') {
      if k < |reqs| { assert FormAt(reqs, k, device, data, file); }
    }
    forall k | 1 <= k < |more| ensures StartsRight(more, inputs + [i], k) {
      if k < |reqs| { assert StartsRight(reqs, inputs, k); }
    }
  }

  ghost predicate Shaped(r: Single, inputs: seq<Input>)
  {
    var reqs := Requests(r.trace);
    && Form(reqs, r.device, r.data, r.file)
    && Contiguous(reqs, inputs)
    && |reqs| <= |inputs| + 1
    && (r.at in {Opening, Writing, Closing} ==> |reqs| == |inputs| + 1)
    && (r.at.Opening? ==> |reqs| == 1 && r.offset == 0)
    && (r.at.Writing? ==> |reqs| >= 2 && reqs[|reqs| - 1].WriteReq? && reqs[|reqs| - 1].offset == r.offset < |r.data|)
    && (r.at.Closing? ==> |reqs| >= 3 && reqs[|reqs| - 1].CloseReq?)
  }

  lemma {:induction false} AloneShaped(device: u32, data: Buffer, ok: bool, inputs: seq<Input>)
    requires |data| > 0
    ensures Shaped(Alone(device, data, ok, inputs), inputs)
  {
    if inputs == [] {
      RequestsSnoc([], Asked(CreateReq(device)));
      RequestsSnoc([], Denied);
    } else {
      var before := inputs[..|inputs| - 1];
      var i := inputs[|inputs| - 1];
      AloneShaped(device, data, ok, before);
      assert before + [i] == inputs;
      HearShaped(Alone(device, data, ok, before), before, i);
    }
  }

  /** A trace that grows without a request keeps its form; the job is then over or stuck. */
  lemma {:induction false} QuietShaped(r: Single, before: seq<Input>, i: Input, u: Single, a: Act)
    requires Shaped(r, before) && r.at in {Opening, Writing, Closing} && !a.Asked?
    requires u.trace == r.trace + [Told(i)] + [a] && u.at in {Stuck, Over}
    requires u.device == r.device && u.data == r.data && (|Requests(r.trace)| > 1 ==> u.file == r.file)
    ensures Shaped(u, before + [i])
  {
    RequestsSnoc(r.trace, Told(i));
    RequestsSnoc(r.trace + [Told(i)], a);
    var reqs := Requests(r.trace);
    forall k | 0 <= k < |reqs| ensures FormAt(reqs, k, u.device, u.data, u.file) {
      assert FormAt(reqs, k, r.device, r.data, r.file);
    }
    forall k | 1 <= k < |reqs| ensures StartsRight(reqs, before + [i], k) { assert StartsRight(reqs, before, k); }
  }

  lemma {:induction false} WriteShaped(r: Single, before: seq<Input>, i: Input, h: Single)
    requires Shaped(r, before) && r.at in {Opening, Writing} && Usable(i.status, i.body)
    requires h == r.(trace := r.trace + [Told(i)], file := h.file, offset := h.offset) && h.offset < |h.data|
    requires if r.at.Opening? then h.offset == 0
             else h.file == r.file && h.offset == Add32(r.offset, ReadLe32(i.body))
    ensures Shaped(Ask(h, Writing, true), before + [i])
  {
    RequestsSnoc(r.trace, Told(i));
    var w := Want(h, Writing);
    RequestsSnoc(h.trace, Asked(w));
    assert WriteOk(w, h.device, h.data);
    Extend(Requests(r.trace), before, i, w, r.device, r.data, r.file, h.file);
  }

  lemma {:induction false} CloseRequests(r: Single, i: Input, h: Single)
    requires h == r.(trace := r.trace + [Told(i)], offset := h.offset)
    ensures Requests(Ask(h, Closing, true).trace) == Requests(r.trace) + [CloseReq(r.device, r.file)]
  {
    RequestsSnoc(r.trace, Told(i));
    RequestsSnoc(h.trace, Asked(Want(h, Closing)));
  }

  lemma {:induction false} CloseShaped(r: Single, before: seq<Input>, i: Input, h: Single)
    requires Shaped(r, before) && r.at.Writing?
    requires h == r.(trace := r.trace + [Told(i)], offset := h.offset)
    ensures Shaped(Ask(h, Closing, true), before + [i])
  {
    CloseRequests(r, i, h);
    Extend(Requests(r.trace), before, i, CloseReq(r.device, r.file), r.device, r.data, r.file, r.file);
  }

  lemma {:induction false} HearShaped(r: Single, before: seq<Input>, i: Input)
    requires Shaped(r, before) && |r.data| > 0
    ensures Shaped(Hear(r, i), before + [i])
  {
    var h := r.(trace := r.trace + [Told(i)]);
    var u := Hear(r, i);
    if r.at in {Stuck, Over} {
      var reqs := Requests(r.trace);
      forall k | 1 <= k < |reqs| ensures StartsRight(reqs, before + [i], k) { assert StartsRight(reqs, before, k); }
    } else if r.at.Closing? || (r.at.Opening? && !Usable(i.status, i.body)) {
      QuietShaped(r, before, i, u, Gone);
    } else if !i.ok {
      QuietShaped(r, before, i, u, Denied);
    } else if r.at.Opening? {
      WriteShaped(r, before, i, h.(file := ReadLe32(i.body)));
    } else if !Usable(i.status, i.body) {
      CloseShaped(r, before, i, h);
    } else {
      var moved := h.(offset := Add32(r.offset, ReadLe32(i.body)));
      if moved.offset < |r.data| { WriteShaped(r, before, i, moved); } else { CloseShaped(r, before, i, moved); }
    }
  }

  /** The requests of any job in any interleaved run have this form. */
  lemma RequestForm(first: nat, events: seq<Event>, q: Effect)
    requires q.Queued? && q in Run(Initial(first), events).log
    ensures var log := Run(Initial(first), events).log;
      && (exists file :: Form(Requests(Acts(log, q.job)), q.device, q.data, file))
      && Contiguous(Requests(Acts(log, q.job)), Inputs(log, q.job))
  {
    NonInterference(first, events, q);
    var log := Run(Initial(first), events).log;
    var r := Alone(q.device, q.data, q.ok, Inputs(log, q.job));
    AloneShaped(q.device, q.data, q.ok, Inputs(log, q.job));
    assert Form(Requests(Acts(log, q.job)), q.device, q.data, r.file);
  }

  // Exchanges

  /** The replies a job can still need, if each accepts at least one byte. */
  function Left(r: Single): int
  {
    match r.at
    case Opening => |r.data| + 2
    case Writing => |r.data| - r.offset + 1
    case Closing => 1
    case Stuck => 0
    case Over => 0
  }

  /** An IRP can be allocated, and a successful WRITE accepts something it was sent. */
  predicate Productive(r: Single, i: Input)
  {
    i.ok && (r.at.Writing? && Usable(i.status, i.body) ==>
      1 <= ReadLe32(i.body) <= Min(CHUNK, |r.data| - r.offset))
  }

  ghost predicate AllProductive(device: u32, data: Buffer, inputs: seq<Input>)
    requires |data| > 0
  {
    forall k :: 0 <= k < |inputs| ==> Productive(Alone(device, data, true, inputs[..k]), inputs[k])
  }

  /** A job whose IRPs are all allocated, as its single run describes it. */
  predicate Lively(r: Single)
  {
    && |r.data| > 0 && !r.at.Stuck?
    && (r.at.Opening? ==> r.offset == 0)
    && (r.at.Writing? ==> r.offset < |r.data|)
  }

  lemma {:induction false} HearLowersLeft(r: Single, i: Input)
    requires Lively(r) && Productive(r, i)
    ensures Lively(Hear(r, i))
    ensures 0 <= Left(Hear(r, i)) && (Left(Hear(r, i)) < Left(r) || r.at.Over?)
    ensures Hear(r, i).at.Over? <==> Left(Hear(r, i)) == 0
  {
  }

  /** Every productive reply brings the job nearer its end, so it is over within `|data| + 2` replies. */
  lemma {:induction false} AloneEnds(device: u32, data: Buffer, inputs: seq<Input>)
    requires |data| > 0 && AllProductive(device, data, inputs)
    ensures var r := Alone(device, data, true, inputs);
      && Lively(r) && 0 <= Left(r) && (r.at.Over? <==> Left(r) == 0)
      && (r.at.Over? || Left(r) + |inputs| <= |data| + 2)
  {
    if inputs != [] {
      var before := inputs[..|inputs| - 1];
      assert forall k :: 0 <= k < |before| ==> before[..k] == inputs[..k];
      assert AllProductive(device, data, before);
      AloneEnds(device, data, before);
      HearLowersLeft(Alone(device, data, true, before), inputs[|inputs| - 1]);
    }
  }

  function WritesNeeded(n: nat): nat
  {
    (n + 65535) / 65536
  }

  /** The client says yes to everything and takes every chunk whole. */
  predicate Whole(r: Single, i: Input)
  {
    i.ok && Usable(i.status, i.body) &&
    (r.at.Writing? ==> ReadLe32(i.body) == Min(CHUNK, |r.data| - r.offset))
  }

  ghost predicate AllWhole(device: u32, data: Buffer, inputs: seq<Input>)
    requires |data| > 0
  {
    forall k :: 0 <= k < |inputs| ==> Whole(Alone(device, data, true, inputs[..k]), inputs[k])
  }

  /** Where a job stands after `n` replies, if each takes everything. */
  predicate AtExchange(r: Single, n: nat)
  {
    var w := WritesNeeded(|r.data|);
    if n == 0 then r.at.Opening? && r.offset == 0 && |Requests(r.trace)| == 1
    else if n <= w then r.at.Writing? && r.offset == (n - 1) * CHUNK < |r.data| && |Requests(r.trace)| == n + 1
    else r.offset == |r.data| && |Requests(r.trace)| == w + 2 && r.at == (if n == w + 1 then Closing else Over)
  }

  lemma {:induction false} HearWhole(r: Single, i: Input, n: nat)
    requires |r.data| > 0 && AtExchange(r, n) && Whole(r, i)
    ensures AtExchange(Hear(r, i), n + 1)
  {
    var u := Hear(r, i);
    RequestsSnoc(r.trace, Told(i));
    if u != r {
      var last := u.trace[|u.trace| - 1];
      assert u.trace == r.trace + [Told(i)] + [last];
      RequestsSnoc(r.trace + [Told(i)], last);
    }
  }

  /** With full acceptance: ceil(len / 65536) WRITEs, a CREATE and a CLOSE, and the job is over. */
  lemma {:induction false} ExactExchanges(device: u32, data: Buffer, inputs: seq<Input>)
    requires |data| > 0 && AllWhole(device, data, inputs)
    ensures var r := Alone(device, data, true, inputs);
      AtExchange(r, |inputs|) && (r.at.Over? <==> |inputs| >= WritesNeeded(|data|) + 2)
  {
    if inputs == [] {
      RequestsSnoc([], Asked(CreateReq(device)));
    } else {
      var before := inputs[..|inputs| - 1];
      assert forall k :: 0 <= k < |before| ==> before[..k] == inputs[..k];
      assert AllWhole(device, data, before);
      ExactExchanges(device, data, before);
      HearWhole(Alone(device, data, true, before), inputs[|inputs| - 1], |before|);
    }
  }

  // The same for a job among others, in any interleaved run

  /** A job whose own replies are productive leaves the list by its `|data| + 2`-th reply. */
  lemma {:induction false} JobEnds(first: nat, events: seq<Event>, q: Effect)
    requires q.Queued? && q in Run(Initial(first), events).log && q.ok && |q.data| > 0
    requires AllProductive(q.device, q.data, Inputs(Run(Initial(first), events).log, q.job))
    ensures var s := Run(Initial(first), events);
      q.job in s.jobs ==> |Inputs(s.log, q.job)| < |q.data| + 2
  {
    RunAgrees(first, events);
    var s := Run(Initial(first), events);
    assert Agrees(s, q);
    AloneEnds(q.device, q.data, Inputs(s.log, q.job));
  }

  /** With full acceptance a job leaves the list with its ceil(len / 65536) + 2-nd reply, having asked as often. */
  lemma {:induction false} JobExchanges(first: nat, events: seq<Event>, q: Effect)
    requires q.Queued? && q in Run(Initial(first), events).log && q.ok && |q.data| > 0
    requires AllWhole(q.device, q.data, Inputs(Run(Initial(first), events).log, q.job))
    ensures var s := Run(Initial(first), events);
      var n := WritesNeeded(|q.data|) + 2;
      && (q.job !in s.jobs <==> |Inputs(s.log, q.job)| >= n)
      && (q.job !in s.jobs ==> |Requests(Acts(s.log, q.job))| == n)
  {
    RunAgrees(first, events);
    var s := Run(Initial(first), events);
    assert Agrees(s, q);
    ExactExchanges(q.device, q.data, Inputs(s.log, q.job));
  }

  // The whole engine

  /** The same count for the engine's record of a job. */
  function Cost(job: Job): nat
  {
    match job.phase
    case WaitCreate => |job.data| + 2
    case WaitWrite => if job.offset < |job.data| then |job.data| - job.offset + 1 else 1
    case _ => 1
  }

  function Work(jobs: map<nat, Job>, order: seq<nat>): nat
  {
    if order == [] then 0
    else (if order[0] in jobs then Cost(jobs[order[0]]) else 0) + Work(jobs, order[1..])
  }

  lemma {:induction false} WorkFrame(jobs: map<nat, Job>, jobs': map<nat, Job>, order: seq<nat>)
    requires forall x :: x in order ==> (x in jobs <==> x in jobs') && (x in jobs ==> jobs[x] == jobs'[x])
    ensures Work(jobs, order) == Work(jobs', order)
  {
    if order != [] {
      assert order[0] in order;
      WorkFrame(jobs, jobs', order[1..]);
    }
  }

  lemma {:induction false} WorkUpdate(jobs: map<nat, Job>, order: seq<nat>, j: nat, job: Job)
    requires NoDup(order) && j in order && j in jobs
    ensures Work(jobs[j := job], order) == Work(jobs, order) - Cost(jobs[j]) + Cost(job)
  {
    assert NoDup(order[1..]);
    if order[0] == j {
      assert forall x :: x in order[1..] ==> x != j;
      WorkFrame(jobs, jobs[j := job], order[1..]);
    } else {
      WorkUpdate(jobs, order[1..], j, job);
    }
  }

  lemma {:induction false} WorkRemove(jobs: map<nat, Job>, order: seq<nat>, j: nat)
    requires NoDup(order) && j in order && j in jobs
    ensures Work(jobs - {j}, Without(order, j)) == Work(jobs, order) - Cost(jobs[j])
  {
    assert NoDup(order[1..]);
    if order[0] == j {
      assert forall x :: x in order[1..] ==> x != j;
      WithoutAbsent(order[1..], j);
      WorkFrame(jobs, jobs - {j}, order[1..]);
    } else {
      WorkRemove(jobs, order[1..], j);
    }
  }

  /** A productive reply to an outstanding IRP. */
  predicate ProductiveReply(s: State, e: Event)
  {
    && e.Response? && e.ok && e.id in s.irps
    && (s.irps[e.id].kind == WriteKind && Usable(e.status, e.body) && s.irps[e.id].req.WriteReq? ==>
          1 <= ReadLe32(e.body) <= |s.irps[e.id].req.payload|)
  }

  lemma {:induction false} ReplyCosts(job: Job, id: nat, irp: Irp, status: u32, body: seq<byte>, next: nat)
    requires Matches(job, id, irp) && !Ends(irp.kind, status, body) && |job.data| > 0
    requires irp.kind == CreateKind ==> job.offset == 0
    requires irp.kind == WriteKind && Usable(status, body) ==> 1 <= ReadLe32(body) <= |irp.req.payload|
    ensures var k' := Follow(job, irp.kind, status, body);
      Cost(Moved(job, irp.kind, status, body).(completion := next, phase := WaitingFor(k'))) < Cost(job)
  {
    if irp.kind == WriteKind {
      assert irp.req == RequestFor(WriteKind, job);
      assert |irp.req.payload| == ChunkSize(job);
    }
  }

  lemma {:induction false} FollowLowersWork(s: State, id: nat, status: u32, body: seq<byte>)
    requires Inv(s) && id in s.irps && !Ends(s.irps[id].kind, status, body)
    requires s.irps[id].kind == WriteKind && Usable(status, body) && s.irps[id].req.WriteReq? ==>
               1 <= ReadLe32(body) <= |s.irps[id].req.payload|
    requires s.irps[id].job in s.jobs && Matches(s.jobs[s.irps[id].job], id, s.irps[id])
    ensures var irp := s.irps[id]; var j := irp.job; var job := s.jobs[j];
      var k' := Follow(job, irp.kind, status, body);
      var sent := Moved(job, irp.kind, status, body).(completion := s.nextId, phase := WaitingFor(k'));
      Work(s.jobs[j := sent], s.order) < Work(s.jobs, s.order)
  {
    var irp := s.irps[id];
    var job := s.jobs[irp.job];
    assert JobOk(job);
    ReplyCosts(job, id, irp, status, body, s.nextId);
    var sent := Moved(job, irp.kind, status, body).(
      completion := s.nextId, phase := WaitingFor(Follow(job, irp.kind, status, body)));
    WorkUpdate(s.jobs, s.order, irp.job, sent);
  }

  lemma {:induction false} IssueJobs(s: State, j: nat, job: Job, k: Kind)
    requires Ready(job, k)
    ensures var t := Issue(Update(s, j, job), j, k, true);
      t.jobs == s.jobs[j := job.(completion := s.nextId, phase := WaitingFor(k))] && t.order == s.order
  {
  }

  lemma {:induction false} ReplyLowersWork(s: State, e: Event)
    requires Inv(s) && ProductiveReply(s, e)
    ensures var t := Step(s, e); Work(t.jobs, t.order) < Work(s.jobs, s.order)
  {
    CallbackCases(s, e.id, e.status, e.body, true);
    var irp := s.irps[e.id];
    var j := irp.job;
    var job := s.jobs[j];
    if Ends(irp.kind, e.status, e.body) {
      WorkRemove(s.jobs, s.order, j);
    } else {
      FollowLowersWork(s, e.id, e.status, e.body);
      var k' := Follow(job, irp.kind, e.status, e.body);
      var job' := Moved(job, irp.kind, e.status, e.body);
      IssueJobs(Heard(s, e.id, e.status, e.body, true), j, job', k');
    }
  }

  lemma {:induction false} LinkWork(s: State, e: Event)
    requires Inv(s) && e.Submit? && |e.data| > 0 && e.ok
    ensures var t := Enqueue(s, e.device, e.data, true); Work(t.jobs, t.order) == Work(s.jobs, s.order) + |e.data| + 2
  {
    var q, j := Link(s, e.device, e.data, true), s.nextJob;
    var t := Enqueue(s, e.device, e.data, true);
    assert s.nextJob !in s.order;
    assert t.order == [j] + s.order && t.order[1..] == s.order;
    WorkFrame(s.jobs, t.jobs, s.order);
  }

  /** A productive reply, or anything that is not a reply, with IRPs to be had. */
  predicate Steady(s: State, e: Event)
  {
    if e.Response? then ProductiveReply(s, e) else IrpAvailable(e)
  }

  ghost predicate AllSteady(s: State, events: seq<Event>)
  {
    forall k :: 0 <= k < |events| ==> Steady(Run(s, events[..k]), events[k])
  }

  function Replies(events: seq<Event>): nat
  {
    if events == [] then 0
    else Replies(events[..|events| - 1]) + (if events[|events| - 1].Response? then 1 else 0)
  }

  /** The replies the submitted jobs can need. */
  function Budget(events: seq<Event>): nat
  {
    if events == [] then 0
    else Budget(events[..|events| - 1]) +
         (var e := events[|events| - 1]; if e.Submit? && |e.data| > 0 then |e.data| + 2 else 0)
  }

  lemma {:induction false} StepWork(s: State, e: Event)
    requires Inv(s) && Steady(s, e)
    ensures var t := Step(s, e);
      Work(t.jobs, t.order) + (if e.Response? then 1 else 0) <=
      Work(s.jobs, s.order) + (if e.Submit? && |e.data| > 0 then |e.data| + 2 else 0)
  {
    match e
    case Response(_, _, _, _) => ReplyLowersWork(s, e);
    case Submit(_, data, _, _) => if |data| > 0 { LinkWork(s, e); }
    case _ =>
  }

  /**
   Answering IRPs cannot go on for ever, whatever is submitted, announced or removed between
   the answers: each job brings at most `|data| + 2` of them. As long as a context is listed
   there is an IRP left to answer, and when none is left the list is empty.
   */
  lemma {:induction false} EveryJobLeaves(s: State, events: seq<Event>)
    requires Inv(s) && AllWaiting(s) && AllSteady(s, events)
    ensures var t := Run(s, events);
      && Inv(t) && AllWaiting(t)
      && Replies(events) + Work(t.jobs, t.order) <= Work(s.jobs, s.order) + Budget(events)
      && (t.irps == map[] <==> t.order == [])
  {
    var t := Run(s, events);
    if events != [] {
      var before := events[..|events| - 1];
      assert forall k :: 0 <= k < |before| ==> before[..k] == events[..k];
      assert Steady(Run(s, before), events[|events| - 1]);
      EveryJobLeaves(s, before);
      StepWork(Run(s, before), events[|events| - 1]);
      StepKeepsInv(Run(s, before), events[|events| - 1]);
    }
    if t.order != [] {
      assert t.order[0] in t.jobs && Waits(t, t.order[0]);
    } else {
      assert forall id :: id in t.irps ==> IrpOk(t, id);
    }
  }
}
