/**
 IRP ownership: over every interleaving of jobs, replies and device changes, each
 outstanding IRP belongs to a context still on the list and is that context's only one.
 */
module Ownership {
  import opened Octets
  import opened SendSpec

  ghost predicate NoDup(order: seq<nat>)
  {
    forall a, b :: 0 <= a < b < |order| ==> order[a] != order[b]
  }

  predicate JobOk(job: Job)
  {
    && |job.data| > 0
    && job.phase != Done
    && (job.phase in {Idle, WaitCreate} ==> job.offset == 0)
  }

  /** `irp`, outstanding under `id`, is the request the context is waiting for. */
  predicate Matches(job: Job, id: nat, irp: Irp)
  {
    && job.completion == id
    && job.phase == WaitingFor(irp.kind)
    && (irp.kind == WriteKind ==> job.offset < |job.data|)
    && irp == IrpFor(irp.kind, job, irp.job)
  }

  /** Context `j` is in hand: it has no IRP, and everything else is in order. */
  ghost predicate Handling(s: State, j: nat)
  {
    && !s.fault
    && NoDup(s.order)
    && (forall x :: x in s.order <==> x in s.jobs)
    && (forall x :: x in s.jobs ==> x < s.nextJob && (x != j ==> JobOk(s.jobs[x])))
    && (forall id :: id in s.irps ==> id < s.nextId && s.irps[id].job != j && IrpOk(s, id))
  }

  predicate IrpOk(s: State, id: nat)
    requires id in s.irps
  {
    s.irps[id].job in s.jobs && Matches(s.jobs[s.irps[id].job], id, s.irps[id])
  }

  ghost predicate Inv(s: State)
  {
    && !s.fault
    && NoDup(s.order)
    && (forall j :: j in s.order <==> j in s.jobs)
    && (forall j :: j in s.jobs ==> j < s.nextJob && JobOk(s.jobs[j]))
    && (forall id :: id in s.irps ==> id < s.nextId && IrpOk(s, id))
  }

  /** Freed contexts are gone for good: nothing in the history follows a context's `Freed`. */
  ghost predicate HistoryOk(log: seq<Effect>, live: set<nat>, next: nat)
  {
    && (forall a :: 0 <= a < |log| ==> log[a].job < next)
    && (forall a :: 0 <= a < |log| && log[a].Freed? ==> log[a].job !in live)
    && (forall a, b :: 0 <= a < b < |log| && log[a].Freed? ==> log[b].job != log[a].job)
  }

  lemma {:induction false} AppendEffect(log: seq<Effect>, live: set<nat>, next: nat, e: Effect)
    requires HistoryOk(log, live, next) && e.job in live && e.job < next
    ensures HistoryOk(log + [e], if e.Freed? then live - {e.job} else live, next)
  {
  }

  /** Every listed context, save perhaps `j`, has its IRP outstanding. */
  ghost predicate WaitingBut(s: State, j: nat)
  {
    forall x :: x in s.jobs && x != j ==> Waits(s, x)
  }

  ghost predicate AllWaiting(s: State)
  {
    forall x :: x in s.jobs ==> Waits(s, x)
  }

  predicate Waits(s: State, x: nat)
    requires x in s.jobs
  {
    s.jobs[x].completion in s.irps && s.irps[s.jobs[x].completion].job == x
  }

  predicate IrpAvailable(e: Event)
  {
    (e.Submit? ==> e.ok) && (e.Response? ==> e.ok)
  }

  lemma {:induction false} WithoutAbsent(order: seq<nat>, j: nat)
    requires j !in order
    ensures Without(order, j) == order
  {
    if order != [] { WithoutAbsent(order[1..], j); }
  }

  lemma WithoutNoDup(order: seq<nat>, j: nat)
    requires NoDup(order)
    ensures NoDup(Without(order, j))
  {
    if order != [] {
      assert NoDup(order[1..]);
      WithoutNoDup(order[1..], j);
      assert order[0] !in order[1..];
    }
  }

  /** The context may be given to `Issue` for a request of kind `k`. */
  predicate Ready(job: Job, k: Kind)
  {
    && |job.data| > 0
    && job.phase != Done
    && (k == CreateKind ==> job.offset == 0)
    && (k == WriteKind ==> job.offset < |job.data|)
  }

  lemma {:induction false} PostKeepsInv(s: State, j: nat, k: Kind)
    requires j in s.jobs && Handling(s, j) && Ready(s.jobs[j], k) && JobOk(s.jobs[j])
    ensures Inv(Issue(s, j, k, true))
  {
    var t := Issue(s, j, k, true);
    assert k == WriteKind ==> InsideBuffer(s.jobs[j]);
    forall id | id in t.irps ensures IrpOk(t, id) && id < t.nextId {
      if id in s.irps { assert IrpOk(s, id); } else { assert id == s.nextId; }
    }
  }

  lemma {:induction false} PostKeepsWaiting(s: State, j: nat, k: Kind)
    requires j in s.jobs && Handling(s, j) && Ready(s.jobs[j], k) && WaitingBut(s, j)
    ensures AllWaiting(Issue(s, j, k, true))
  {
    var t := Issue(s, j, k, true);
    assert k == WriteKind ==> InsideBuffer(s.jobs[j]);
    forall x | x in t.jobs ensures Waits(t, x) {
      if x != j { assert Waits(s, x); }
    }
  }

  lemma {:induction false} IssueKeepsInv(s: State, j: nat, k: Kind, ok: bool)
    requires j in s.jobs && Handling(s, j) && Ready(s.jobs[j], k) && JobOk(s.jobs[j])
    ensures Inv(Issue(s, j, k, ok))
    ensures ok && WaitingBut(s, j) ==> AllWaiting(Issue(s, j, k, ok))
  {
    if ok {
      PostKeepsInv(s, j, k);
      if WaitingBut(s, j) { PostKeepsWaiting(s, j, k); }
    } else {
      var t := Issue(s, j, k, false);
      forall id | id in t.irps ensures IrpOk(t, id) { assert IrpOk(s, id); }
    }
  }

  lemma {:induction false} RemoveKeepsInv(s: State, j: nat)
    requires j in s.jobs && Handling(s, j)
    ensures Inv(Remove(s, j))
    ensures WaitingBut(s, j) ==> AllWaiting(Remove(s, j))
  {
    var t := Remove(s, j);
    WithoutNoDup(s.order, j);
    forall id | id in t.irps ensures IrpOk(t, id) { assert IrpOk(s, id); }
    forall x | x in t.jobs && WaitingBut(s, j) ensures Waits(t, x) { assert Waits(s, x); }
  }

  /** Taking the answered IRP away puts its context in hand, whatever is then written into it. */
  lemma {:induction false} AnswerHandles(s: State, id: nat, job: Job, log: seq<Effect>)
    requires Inv(s) && id in s.irps
    ensures var j := s.irps[id].job;
      var t := Update(s.(irps := s.irps - {id}, log := log), j, job);
      && j in s.jobs && Handling(t, j)
      && (AllWaiting(s) ==> WaitingBut(t, j))
  {
    var j := s.irps[id].job;
    assert IrpOk(s, id);
    var t := Update(s.(irps := s.irps - {id}, log := log), j, job);
    forall i | i in t.irps ensures IrpOk(t, i) && t.irps[i].job != j { assert IrpOk(s, i); }
    forall x | x in t.jobs && x != j && AllWaiting(s) ensures Waits(t, x) { assert Waits(s, x); }
  }

  /** The reply ends the job: its context is removed. */
  predicate Ends(k: Kind, status: u32, body: seq<byte>)
  {
    k == CloseKind || (k == CreateKind && !Usable(status, body))
  }

  /** The context as the reply leaves it, and the request that follows. */
  function Moved(job: Job, k: Kind, status: u32, body: seq<byte>): Job
  {
    if !Usable(status, body) then job.(phase := Errored)
    else if k == CreateKind then job.(file := ReadLe32(body))
    else job.(offset := Add32(job.offset, ReadLe32(body)))
  }

  function Follow(job: Job, k: Kind, status: u32, body: seq<byte>): Kind
  {
    if !Usable(status, body) then CloseKind
    else if k == WriteKind && Moved(job, k, status, body).offset >= |job.data| then CloseKind
    else WriteKind
  }

  function Heard(s: State, id: nat, status: u32, body: seq<byte>, ok: bool): State
    requires id in s.irps
  {
    s.(irps := s.irps - {id},
       log := s.log + [Answered(s.irps[id].job, s.irps[id].kind, status, body, ok)])
  }

  /** The callback in two cases: remove the context, or write it and send its next request. */
  lemma {:induction false} CallbackCases(s: State, id: nat, status: u32, body: seq<byte>, ok: bool)
    requires Inv(s) && id in s.irps
    ensures s.irps[id].job in s.jobs && Matches(s.jobs[s.irps[id].job], id, s.irps[id])
    ensures var j, k := s.irps[id].job, s.irps[id].kind;
      var t := Heard(s, id, status, body, ok);
      var job := s.jobs[j];
      if Ends(k, status, body) then Callback(s, id, status, body, ok) == Remove(t, j)
      else
        && Ready(Moved(job, k, status, body), Follow(job, k, status, body))
        && Callback(s, id, status, body, ok) ==
             Issue(Update(t, j, Moved(job, k, status, body)), j, Follow(job, k, status, body), ok)
  {
    assert IrpOk(s, id);
  }

  lemma {:induction false} EndKeepsInv(s: State, id: nat, status: u32, body: seq<byte>, ok: bool)
    requires Inv(s) && id in s.irps
    ensures var t := Remove(Heard(s, id, status, body, ok), s.irps[id].job);
      Inv(t) && (AllWaiting(s) ==> AllWaiting(t))
  {
    var j, h := s.irps[id].job, Heard(s, id, status, body, ok);
    assert IrpOk(s, id);
    AnswerHandles(s, id, s.jobs[j], h.log);
    assert Update(h, j, s.jobs[j]) == h;
    RemoveKeepsInv(h, j);
  }

  lemma {:induction false} FollowKeepsInv(s: State, id: nat, status: u32, body: seq<byte>, ok: bool, job: Job, k: Kind)
    requires Inv(s) && id in s.irps && Ready(job, k) && JobOk(job)
    ensures var t := Issue(Update(Heard(s, id, status, body, ok), s.irps[id].job, job), s.irps[id].job, k, ok);
      Inv(t) && (ok && AllWaiting(s) ==> AllWaiting(t))
  {
    var j, h := s.irps[id].job, Heard(s, id, status, body, ok);
    AnswerHandles(s, id, job, h.log);
    IssueKeepsInv(Update(h, j, job), j, k, ok);
  }

  lemma {:induction false} MovedIsOk(job: Job, id: nat, irp: Irp, status: u32, body: seq<byte>)
    requires Matches(job, id, irp) && JobOk(job) && !Ends(irp.kind, status, body)
    ensures JobOk(Moved(job, irp.kind, status, body))
  {
  }

  lemma {:induction false} CallbackKeepsInv(s: State, id: nat, status: u32, body: seq<byte>, ok: bool)
    requires Inv(s) && id in s.irps
    ensures Inv(Callback(s, id, status, body, ok))
    ensures ok && AllWaiting(s) ==> AllWaiting(Callback(s, id, status, body, ok))
  {
    CallbackCases(s, id, status, body, ok);
    var j, k := s.irps[id].job, s.irps[id].kind;
    if Ends(k, status, body) {
      EndKeepsInv(s, id, status, body, ok);
    } else {
      MovedIsOk(s.jobs[j], id, s.irps[id], status, body);
      FollowKeepsInv(s, id, status, body, ok, Moved(s.jobs[j], k, status, body), Follow(s.jobs[j], k, status, body));
    }
  }

  lemma {:induction false} LinkHandles(s: State, device: u32, data: Buffer, ok: bool)
    requires Inv(s) && |data| > 0
    ensures var q := Link(s, device, data, ok); Handling(q, s.nextJob) && (AllWaiting(s) ==> WaitingBut(q, s.nextJob))
  {
    var q := Link(s, device, data, ok);
    assert s.nextJob !in s.order;
    forall id | id in q.irps ensures IrpOk(q, id) && q.irps[id].job != s.nextJob { assert IrpOk(s, id); }
    forall x | x in q.jobs && x != s.nextJob && AllWaiting(s) ensures Waits(q, x) { assert Waits(s, x); }
  }

  lemma {:induction false} EnqueueKeepsInv(s: State, device: u32, data: Buffer, ok: bool)
    requires Inv(s) && |data| > 0
    ensures Inv(Enqueue(s, device, data, ok))
    ensures ok && AllWaiting(s) ==> AllWaiting(Enqueue(s, device, data, ok))
  {
    LinkHandles(s, device, data, ok);
    IssueKeepsInv(Link(s, device, data, ok), s.nextJob, CreateKind, ok);
  }

  lemma {:induction false} StepKeepsInv(s: State, e: Event)
    requires Inv(s)
    ensures Inv(Step(s, e))
    ensures AllWaiting(s) && IrpAvailable(e) ==> AllWaiting(Step(s, e))
  {
    match e
    case Response(id, status, body, ok) =>
      if id in s.irps { CallbackKeepsInv(s, id, status, body, ok); }
    case Submit(device, data, memory, ok) =>
      if Step(s, e) != s { EnqueueKeepsInv(s, device, data, ok); }
    case _ =>
      var t := Step(s, e);
      forall id | id in t.irps ensures IrpOk(t, id) { assert IrpOk(s, id); }
      forall x | x in t.jobs && AllWaiting(s) ensures Waits(t, x) { assert Waits(s, x); }
  }

  lemma {:induction false} IssueKeepsHistory(s: State, j: nat, k: Kind, ok: bool)
    requires j in s.jobs && j < s.nextJob && HistoryOk(s.log, s.jobs.Keys, s.nextJob)
    ensures var t := Issue(s, j, k, ok); HistoryOk(t.log, t.jobs.Keys, t.nextJob)
  {
    var t := Issue(s, j, k, ok);
    assert t.jobs.Keys == s.jobs.Keys;
    if !t.fault && t.log != s.log {
      AppendEffect(s.log, s.jobs.Keys, s.nextJob, t.log[|s.log|]);
    }
  }

  lemma {:induction false} StepKeepsHistory(s: State, e: Event)
    requires Inv(s) && HistoryOk(s.log, s.jobs.Keys, s.nextJob)
    ensures var t := Step(s, e); HistoryOk(t.log, t.jobs.Keys, t.nextJob)
  {
    match e
    case Response(id, status, body, ok) =>
      if id in s.irps {
        CallbackCases(s, id, status, body, ok);
        var j, k := s.irps[id].job, s.irps[id].kind;
        var t := Heard(s, id, status, body, ok);
        AppendEffect(s.log, s.jobs.Keys, s.nextJob, t.log[|s.log|]);
        if Ends(k, status, body) {
          AppendEffect(t.log, t.jobs.Keys, t.nextJob, Freed(j));
          assert Remove(t, j).jobs.Keys == t.jobs.Keys - {j};
        } else {
          IssueAfterUpdate(t, j, Moved(s.jobs[j], k, status, body), Follow(s.jobs[j], k, status, body), ok);
        }
      }
    case Submit(device, data, memory, ok) =>
      if Step(s, e) != s {
        EnqueueKeepsHistory(s, device, data, ok);
      }
    case _ =>
  }

  lemma {:induction false} IssueAfterUpdate(t: State, j: nat, job: Job, k: Kind, ok: bool)
    requires j in t.jobs && j < t.nextJob && HistoryOk(t.log, t.jobs.Keys, t.nextJob)
    ensures var u := Issue(Update(t, j, job), j, k, ok); HistoryOk(u.log, u.jobs.Keys, u.nextJob)
  {
    assert Update(t, j, job).jobs.Keys == t.jobs.Keys;
    IssueKeepsHistory(Update(t, j, job), j, k, ok);
  }

  lemma {:induction false} EnqueueKeepsHistory(s: State, device: u32, data: Buffer, ok: bool)
    requires Inv(s) && HistoryOk(s.log, s.jobs.Keys, s.nextJob)
    ensures var t := Enqueue(s, device, data, ok); HistoryOk(t.log, t.jobs.Keys, t.nextJob)
  {
    var j := s.nextJob;
    var q := Link(s, device, data, ok);
    assert q.jobs.Keys == s.jobs.Keys + {j};
    AppendEffect(s.log, s.jobs.Keys + {j}, j + 1, Queued(j, device, data, ok));
    IssueKeepsHistory(q, j, CreateKind, ok);
  }

  /** The state after any run: nothing was used after free, and IRPs and contexts agree. */
  lemma {:induction false} RunKeepsOwnership(first: nat, events: seq<Event>)
    ensures var s := Run(Initial(first), events); Inv(s) && HistoryOk(s.log, s.jobs.Keys, s.nextJob)
  {
    if events != [] {
      RunKeepsOwnership(first, events[..|events| - 1]);
      var s := Run(Initial(first), events[..|events| - 1]);
      StepKeepsInv(s, events[|events| - 1]);
      StepKeepsHistory(s, events[|events| - 1]);
    }
  }

  lemma {:induction false} RunKeepsWaiting(first: nat, events: seq<Event>)
    requires forall e :: e in events ==> IrpAvailable(e)
    ensures AllWaiting(Run(Initial(first), events))
  {
    if events != [] {
      RunKeepsWaiting(first, events[..|events| - 1]);
      RunKeepsOwnership(first, events[..|events| - 1]);
      StepKeepsInv(Run(Initial(first), events[..|events| - 1]), events[|events| - 1]);
    }
  }

  /** The IRPs outstanding for context `j`. */
  function IrpsOf(s: State, j: nat): set<nat>
  {
    set id | id in s.irps && s.irps[id].job == j
  }

  /** At most one IRP per context in any run; exactly one per listed context if allocation never fails. */
  lemma {:induction false} OneIrpPerJob(first: nat, events: seq<Event>, j: nat)
    ensures var s := Run(Initial(first), events);
      && |IrpsOf(s, j)| <= 1
      && (j !in s.jobs ==> IrpsOf(s, j) == {})
      && ((forall e :: e in events ==> IrpAvailable(e)) && j in s.jobs ==>
            IrpsOf(s, j) == {s.jobs[j].completion})
  {
    RunKeepsOwnership(first, events);
    var s := Run(Initial(first), events);
    if j in s.jobs {
      assert IrpsOf(s, j) <= {s.jobs[j].completion};
      SubsetOfSingleton(IrpsOf(s, j), s.jobs[j].completion);
      if forall e :: e in events ==> IrpAvailable(e) {
        RunKeepsWaiting(first, events);
      }
    } else {
      assert IrpsOf(s, j) == {};
    }
  }

  /**
   What an outstanding IRP asks for, in numbers: device and file are its context's, a WRITE takes
   the next bytes from the context's offset, 65536 at most.
   */
  lemma {:induction false} IrpAsks(s: State, id: nat)
    requires Inv(s) && id in s.irps
    ensures s.irps[id].job in s.jobs
    ensures var irp, job := s.irps[id], s.jobs[s.irps[id].job];
      && irp.device == job.device && irp.file == (if irp.kind.CreateKind? then 0 else job.file)
      && (irp.kind.CreateKind? ==> job.phase.WaitCreate? && irp.req == CreateReq(job.device))
      && (irp.kind.WriteKind? ==>
            var end := if |job.data| - job.offset > 65536 then job.offset + 65536 else |job.data|;
            && job.phase.WaitWrite? && job.offset < |job.data|
            && irp.req == WriteReq(job.device, job.file, job.offset, job.data[job.offset..end]))
      && (irp.kind.CloseKind? ==> job.phase.WaitClose? && irp.req == CloseReq(job.device, job.file))
  {
    assert IrpOk(s, id);
  }

  lemma AddIsModulo(a: u32, b: u32)
    ensures Add32(a, b) == (a + b) % 0x1_0000_0000
  {
  }

  /** The reply to a CREATE: a success that brings a file id leads to the first WRITE, anything else ends the job. */
  lemma {:induction false} CreateReplied(s: State, id: nat, status: u32, body: seq<byte>, ok: bool)
    requires Inv(s) && id in s.irps && s.irps[id].kind.CreateKind? && s.irps[id].job in s.jobs
    ensures var j, t := s.irps[id].job, Step(s, Response(id, status, body, ok));
      if status != 0 || |body| < 4 then t.jobs == s.jobs - {j} && t.irps == s.irps - {id}
      else if ok then
        && t.jobs == s.jobs[j := Job(s.jobs[j].device, ReadLe32(body), s.nextId, WaitWrite, s.jobs[j].data, 0)]
        && t.irps.Keys == s.irps.Keys - {id} + {s.nextId}
      else
        && t.jobs == s.jobs[j := s.jobs[j].(file := ReadLe32(body))]
        && t.irps == s.irps - {id}
  {
    assert IrpOk(s, id) && JobOk(s.jobs[s.irps[id].job]);
  }

  /**
   A WRITE's success that brings a count: the context moves on by it, to the next WRITE or, past
   the end of the data, to the CLOSE; without an IRP for that it only moves.
   */
  lemma {:induction false} WriteReplied(s: State, id: nat, body: seq<byte>, ok: bool)
    requires Inv(s) && id in s.irps && s.irps[id].kind.WriteKind? && s.irps[id].job in s.jobs && |body| >= 4
    ensures var j, t := s.irps[id].job, Step(s, Response(id, 0, body, ok));
      var job := s.jobs[j];
      var offset := (job.offset + ReadLe32(body)) % 0x1_0000_0000;
      if ok then
        && t.jobs == s.jobs[j := Job(job.device, job.file, s.nextId, if offset < |job.data| then WaitWrite else WaitClose, job.data, offset)]
        && t.irps.Keys == s.irps.Keys - {id} + {s.nextId}
      else t.jobs == s.jobs[j := job.(offset := offset)] && t.irps == s.irps - {id}
  {
    assert IrpOk(s, id);
    AddIsModulo(s.jobs[s.irps[id].job].offset, ReadLe32(body));
  }

  /** Any other reply to a WRITE leads to the CLOSE from where the context is; without an IRP for that it is marked. */
  lemma {:induction false} WriteRefused(s: State, id: nat, status: u32, body: seq<byte>, ok: bool)
    requires Inv(s) && id in s.irps && s.irps[id].kind.WriteKind? && s.irps[id].job in s.jobs
    requires status != 0 || |body| < 4
    ensures var j, t := s.irps[id].job, Step(s, Response(id, status, body, ok));
      if ok then
        && t.jobs == s.jobs[j := s.jobs[j].(completion := s.nextId, phase := WaitClose)]
        && t.irps.Keys == s.irps.Keys - {id} + {s.nextId}
      else t.jobs == s.jobs[j := s.jobs[j].(phase := Errored)] && t.irps == s.irps - {id}
  {
    assert IrpOk(s, id);
  }

  /** The reply to a CLOSE ends the job, whatever it says. */
  lemma {:induction false} CloseReplied(s: State, id: nat, status: u32, body: seq<byte>, ok: bool)
    requires Inv(s) && id in s.irps && s.irps[id].kind.CloseKind?
    ensures var t := Step(s, Response(id, status, body, ok));
      t.jobs == s.jobs - {s.irps[id].job} && t.irps == s.irps - {id}
  {
    assert IrpOk(s, id);
  }

  /** The last announcement or removal of the device was an announcement. */
  ghost predicate Present(events: seq<Event>, device: u32)
  {
    exists i :: 0 <= i < |events| && events[i] == Announced(device) &&
      forall k :: i < k < |events| ==> events[k] != Removed(device)
  }

  lemma {:induction false} PresentSnoc(events: seq<Event>, e: Event, device: u32)
    ensures Present(events + [e], device) <==> e == Announced(device) || (Present(events, device) && e != Removed(device))
  {
    var more := events + [e];
    if Present(events, device) && e != Removed(device) {
      var i :| 0 <= i < |events| && events[i] == Announced(device) && forall k :: i < k < |events| ==> events[k] != Removed(device);
      assert more[i] == Announced(device);
    }
    if e == Announced(device) { assert more[|events|] == e; }
    if Present(more, device) && e != Announced(device) {
      var i :| 0 <= i < |more| && more[i] == Announced(device) && forall k :: i < k < |more| ==> more[k] != Removed(device);
      assert events[i] == Announced(device) && more[|events|] == e;
      assert forall k :: i < k < |events| ==> events[k] == more[k];
    }
  }

  lemma {:induction false} IssueKeepsDevices(s: State, j: nat, k: Kind, ok: bool)
    requires j in s.jobs
    ensures Issue(s, j, k, ok).devices == s.devices
  {
  }

  lemma {:induction false} StepDevices(s: State, e: Event)
    requires Inv(s)
    ensures Step(s, e).devices == if e.Announced? then s.devices + {e.device}
                                  else if e.Removed? then s.devices - {e.device} else s.devices
  {
    match e
    case Response(id, status, body, ok) =>
      if id in s.irps {
        CallbackCases(s, id, status, body, ok);
        var j, k := s.irps[id].job, s.irps[id].kind;
        if !Ends(k, status, body) {
          IssueKeepsDevices(Update(Heard(s, id, status, body, ok), j, Moved(s.jobs[j], k, status, body)), j,
                            Follow(s.jobs[j], k, status, body), ok);
        }
      }
    case _ =>
  }

  /** After any run the devices jobs are taken for are those announced and not removed since. */
  lemma {:induction false} KnownIffPresent(first: nat, events: seq<Event>, device: u32)
    ensures device in Run(Initial(first), events).devices <==> Present(events, device)
  {
    if events != [] {
      var before, e := events[..|events| - 1], events[|events| - 1];
      KnownIffPresent(first, before, device);
      RunKeepsOwnership(first, before);
      StepDevices(Run(Initial(first), before), e);
      PresentSnoc(before, e, device);
      assert events == before + [e];
    }
  }

  /**
   After any run a job is taken exactly if it has data, there is memory for it, and its device was
   announced and not removed since; it then heads the list, and otherwise nothing happens.
   */
  lemma {:induction false} TakenIff(first: nat, events: seq<Event>, device: u32, data: Buffer, memory: bool, ok: bool)
    ensures var s := Run(Initial(first), events);
      var t := Step(s, Submit(device, data, memory, ok));
      if |data| > 0 && memory && Present(events, device) then
        && t.order == [s.nextJob] + s.order && t.jobs.Keys == s.jobs.Keys + {s.nextJob}
        && (forall j :: j in s.jobs && j != s.nextJob ==> t.jobs[j] == s.jobs[j])
        && t.jobs[s.nextJob].device == device && t.jobs[s.nextJob].data == data && t.jobs[s.nextJob].offset == 0
        && (ok ==> t.irps.Keys == s.irps.Keys + {s.nextId} && t.irps[s.nextId].req == CreateReq(device))
        && (!ok ==> t.irps == s.irps)
      else t == s
  {
    KnownIffPresent(first, events, device);
  }

  lemma {:induction false} SubsetOfSingleton(ids: set<nat>, id: nat)
    requires ids <= {id}
    ensures |ids| <= 1
  {
    if ids != {} { assert ids == {id}; }
  }
}
