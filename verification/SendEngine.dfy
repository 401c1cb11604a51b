/**
 The send engine as the program has it: contexts linked through `next` from the head
 `sendList`, IRPs that point at their context, one callback for every completion.
 Each method is proved to do to the abstract state what `SendSpec` says.
 */
module SendEngine {
  import opened Octets
  import opened SendSpec
  import opened Ownership
  import opened Packets
  import opened Wrappers

  /** `struct print_send_ctx` */
  class SendCtx {
    ghost const job: nat  // the context's identity in the abstract state
    const deviceId: u32
    const data: Buffer
    var fileId: u32
    var completionId: nat
    var state: Phase
    var dataOffset: u32
    var next: SendCtx?

    constructor (ghost job: nat, deviceId: u32, data: Buffer, next: SendCtx?)
      ensures this.job == job && this.next == next
      ensures View() == Job(deviceId, 0, 0, Idle, data, 0)
    {
      this.job, this.deviceId, this.data, this.next := job, deviceId, data, next;
      fileId, completionId, state, dataOffset := 0, 0, Idle, 0;
    }

    ghost function View(): Job
      reads this
    {
      Job(deviceId, fileId, completionId, state, data, dataOffset)
    }
  }

  /** The fields of xrdp's IRP that printer requests set. */
  datatype IrpRecord = IrpRecord(kind: Kind, deviceId: u32, fileId: u32, userData: SendCtx)

  ghost predicate SameIrp(r: IrpRecord, irp: Irp)
  {
    r.userData.job == irp.job && r.kind == irp.kind && r.deviceId == irp.device && r.fileId == irp.file
  }

  /** Removing the element at `k` is filtering it out, when elements do not repeat. */
  lemma {:induction false} WithoutAt(order: seq<nat>, k: nat)
    requires NoDup(order) && k < |order|
    ensures Without(order, order[k]) == order[..k] + order[k + 1..]
  {
    assert NoDup(order[1..]);
    if k == 0 {
      assert order[0] !in order[1..];
      WithoutAbsent(order[1..], order[0]);
    } else {
      WithoutAt(order[1..], k - 1);
      assert order[1..][..k - 1] == order[1..k] && order[1..][k..] == order[k + 1..];
      assert order[..k] == [order[0]] + order[1..k];
    }
  }

  lemma {:induction false} CloseRemoves(s: State, id: nat, status: u32, body: seq<byte>, ok: bool)
    requires Inv(s) && id in s.irps && s.irps[id].kind == CloseKind
    ensures Callback(s, id, status, body, ok) == Remove(Heard(s, id, status, body, ok), s.irps[id].job)
  {
    CallbackCases(s, id, status, body, ok);
  }

  lemma {:induction false} CreateCallback(s: State, id: nat, status: u32, body: seq<byte>, ok: bool)
    requires Inv(s) && id in s.irps && s.irps[id].kind == CreateKind
    ensures var j, t := s.irps[id].job, Callback(s, id, status, body, ok);
      if !Usable(status, body) then t == Remove(Heard(s, id, status, body, ok), j)
      else
        && j in s.jobs
        && var job := s.jobs[j].(file := ReadLe32(body));
        Ready(job, WriteKind) && t == Issue(Update(Heard(s, id, status, body, ok), j, job), j, WriteKind, ok)
  {
    CallbackCases(s, id, status, body, ok);
  }

  lemma {:induction false} WriteCallback(s: State, id: nat, status: u32, body: seq<byte>, ok: bool)
    requires Inv(s) && id in s.irps && s.irps[id].kind == WriteKind
    ensures var j, t := s.irps[id].job, Callback(s, id, status, body, ok);
      && j in s.jobs
      && if !Usable(status, body) then
           var job := s.jobs[j].(phase := Errored);
           Ready(job, CloseKind) && t == Issue(Update(Heard(s, id, status, body, ok), j, job), j, CloseKind, ok)
         else
           var job := s.jobs[j].(offset := Add32(s.jobs[j].offset, ReadLe32(body)));
           var kind := if job.offset >= |job.data| then CloseKind else WriteKind;
           Ready(job, kind) && t == Issue(Update(Heard(s, id, status, body, ok), j, job), j, kind, ok)
  {
    CallbackCases(s, id, status, body, ok);
  }

  lemma {:induction false} LinkKeepsOrder(s: State, device: u32, data: Buffer, ok: bool)
    requires Inv(s)
    ensures NoDup(Link(s, device, data, ok).order) && s.nextJob !in s.jobs
    ensures forall i :: 0 <= i < |s.order| ==> s.order[i] != s.nextJob
  {
    forall i | 0 <= i < |s.order| ensures s.order[i] != s.nextJob {
      assert s.order[i] in s.order;
    }
  }

  class Engine {
    var sendList: SendCtx?           // g_send_list
    var completionId: nat            // g_completion_id
    var irps: map<nat, IrpRecord>    // the outstanding IRPs, by completion id
    var channel: seq<Packet>         // what has been sent to the client
    var devices: set<u32>            // the ids in the printer table
    ghost var contexts: seq<SendCtx> // the list, head first
    ghost var freed: set<SendCtx>
    ghost var model: State

    /** The list runs through `contexts` in order and ends: it is acyclic. */
    ghost predicate Chained()
      reads this`sendList, this`contexts, contexts
    {
      && sendList == (if contexts == [] then null else contexts[0])
      && (forall i {:trigger contexts[i].next} :: 0 <= i < |contexts| ==>
            contexts[i].next == if i + 1 < |contexts| then contexts[i + 1] else null)
    }

    /** The `i`-th context of the list is the `i`-th job of the abstract order, alive and unchanged. */
    ghost predicate Mirrored(i: nat)
      requires i < |contexts| == |model.order|
      reads this`contexts, this`freed, this`model, contexts
    {
      && contexts[i] !in freed
      && contexts[i].job == model.order[i] && model.order[i] in model.jobs
      && model.jobs[model.order[i]] == contexts[i].View()
    }

    /** The list is that of the abstract state. */
    ghost predicate Listed()
      reads this`sendList, this`contexts, this`freed, this`model, contexts
    {
      && Chained()
      && |contexts| == |model.order| && NoDup(model.order)
      && (forall i :: 0 <= i < |contexts| ==> Mirrored(i))
    }

    /** So are IRPs, packets and counters. */
    ghost predicate Linked()
      reads this, contexts
    {
      && Listed()
      && irps.Keys == model.irps.Keys
      && (forall id :: id in irps ==> SameIrp(irps[id], model.irps[id]))
      && completionId == model.nextId
      && devices == model.devices
      && Carries(channel, model.log)
    }

    /** The abstract state moves on, its list as it was. */
    ghost method MoveOn(next: State)
      requires Listed() && next.jobs == model.jobs && next.order == model.order
      modifies this`model
      ensures Listed() && model == next
    {
      model := next;
      assert forall i :: 0 <= i < |contexts| ==> old(Mirrored(i)) ==> Mirrored(i);
    }

    /** Between events also the ownership invariant holds, and every `user_data` is on the list. */
    ghost predicate Valid()
      reads this, contexts
    {
      Linked() && Inv(model) && forall id :: id in irps ==> irps[id].userData in contexts
    }

    constructor (firstId: nat)
      ensures Valid() && model == Initial(firstId) && contexts == []
    {
      sendList, completionId, irps, channel, devices := null, firstId, map[], [], {};
      contexts, freed, model := [], {}, Initial(firstId);
    }

    /** Distinct places of the list hold distinct contexts. */
    lemma {:induction false} Distinct()
      requires Linked()
      ensures forall i, n :: 0 <= i < n < |contexts| ==> contexts[i] != contexts[n]
    {
      forall i, n | 0 <= i < n < |contexts| ensures contexts[i] != contexts[n] {
        assert Mirrored(i) && Mirrored(n);
      }
    }

    /** The fields of one context change, and its job in the abstract state with them. */
    method Put(ctx: SendCtx, ghost k: nat, file: u32, id: nat, state: Phase, offset: u32, ghost next: State)
      requires Listed() && k < |contexts| && ctx == contexts[k]
      requires next.order == model.order && next.jobs == model.jobs[ctx.job := Job(ctx.deviceId, file, id, state, ctx.data, offset)]
      modifies this`model, ctx`fileId, ctx`completionId, ctx`state, ctx`dataOffset
      ensures Listed() && model == next
      ensures ctx.fileId == file && ctx.completionId == id && ctx.state == state && ctx.dataOffset == offset
    {
      assert Mirrored(k);
      ctx.fileId, ctx.completionId, ctx.state, ctx.dataOffset := file, id, state, offset;
      model := next;
      forall i | 0 <= i < |contexts| ensures Mirrored(i) {
        assert old(Mirrored(i));
        assert i != k ==> model.order[i] != model.order[k];
      }
    }

    /** Take a completion id, fill in the IRP and put the packet on the channel. */
    method Post(ctx: SendCtx, ghost k: nat, kind: Kind, fileId: u32, body: seq<byte>)
      requires Linked() && k < |contexts| && ctx == contexts[k]
      requires kind == WriteKind ==> InsideBuffer(ctx.View())
      requires fileId == IrpFor(kind, ctx.View(), ctx.job).file
      requires ReadPacket(Packet(kind, ctx.deviceId, fileId, completionId, body)) == Some(RequestFor(kind, ctx.View()))
      modifies this`completionId, this`irps, this`channel, this`model
      modifies ctx`fileId, ctx`completionId, ctx`state, ctx`dataOffset
      ensures Linked() && old(Mirrored(k)) && model == Issue(old(model), ctx.job, kind, true)
      ensures irps == old(irps)[old(completionId) := IrpRecord(kind, ctx.deviceId, fileId, ctx)]
    {
      assert Mirrored(k);
      var record := IrpRecord(kind, ctx.deviceId, fileId, ctx);
      assert SameIrp(record, IrpFor(kind, ctx.View(), ctx.job));
      var packet := Packet(kind, ctx.deviceId, fileId, completionId, body);
      CarriesSent(channel, model.log, packet, ctx.job, RequestFor(kind, ctx.View()));
      Put(ctx, k, ctx.fileId, completionId, WaitingFor(kind), ctx.dataOffset, Issue(model, ctx.job, kind, true));
      irps := irps[completionId := record];
      completionId := completionId + 1;
      channel := channel + [packet];
    }

    /** The client is asked for nothing if no IRP can be had. */
    method Starve(ctx: SendCtx, ghost k: nat, ghost kind: Kind)
      requires Linked() && k < |contexts| && ctx == contexts[k]
      modifies this`model
      ensures Linked() && old(Mirrored(k)) && model == Issue(old(model), ctx.job, kind, false)
    {
      assert Mirrored(k);
      CarriesQuiet(channel, model.log, Starved(ctx.job));
      MoveOn(Issue(model, ctx.job, kind, false));
    }

    /** `send_printer_create_request` */
    method SendCreateRequest(ctx: SendCtx, ghost k: nat, ok: bool) returns (rc: int)
      requires Linked() && k < |contexts| && ctx == contexts[k]
      modifies this`completionId, this`irps, this`channel, this`model
      modifies ctx`fileId, ctx`completionId, ctx`state, ctx`dataOffset
      ensures Linked() && old(Mirrored(k)) && model == Issue(old(model), ctx.job, CreateKind, ok)
      ensures rc == if ok then 0 else -1
      ensures AddsFor(old(irps), ctx)
    {
      if !ok {
        Starve(ctx, k, CreateKind);
        return -1;
      }
      var body := CreateBody();
      Post(ctx, k, CreateKind, 0, body);
      return 0;
    }

    /** `send_printer_write_request`: at most 65536 bytes from where the last acceptance ended. */
    method SendWriteRequest(ctx: SendCtx, ghost k: nat, ok: bool) returns (rc: int)
      requires Linked() && k < |contexts| && ctx == contexts[k] && InsideBuffer(ctx.View())
      modifies this`completionId, this`irps, this`channel, this`model
      modifies ctx`fileId, ctx`completionId, ctx`state, ctx`dataOffset
      ensures Linked() && old(Mirrored(k)) && model == Issue(old(model), ctx.job, WriteKind, ok)
      ensures rc == if ok then 0 else -1
      ensures AddsFor(old(irps), ctx)
    {
      var chunk := (|ctx.data| - ctx.dataOffset) % TWO32;
      if chunk > CHUNK {
        chunk := CHUNK;
      }
      if !ok {
        Starve(ctx, k, WriteKind);
        return -1;
      }
      var body := WriteBody(ctx.data, ctx.dataOffset, chunk);
      Post(ctx, k, WriteKind, ctx.fileId, body);
      return 0;
    }

    /** `send_printer_close_request` */
    method SendCloseRequest(ctx: SendCtx, ghost k: nat, ok: bool) returns (rc: int)
      requires Linked() && k < |contexts| && ctx == contexts[k]
      modifies this`completionId, this`irps, this`channel, this`model
      modifies ctx`fileId, ctx`completionId, ctx`state, ctx`dataOffset
      ensures Linked() && old(Mirrored(k)) && model == Issue(old(model), ctx.job, CloseKind, ok)
      ensures rc == if ok then 0 else -1
      ensures AddsFor(old(irps), ctx)
    {
      if !ok {
        Starve(ctx, k, CloseKind);
        return -1;
      }
      var body := CloseBody();
      Post(ctx, k, CloseKind, ctx.fileId, body);
      return 0;
    }

    /** Only IRPs of `ctx` are new. */
    ghost predicate AddsFor(before: map<nat, IrpRecord>, ctx: SendCtx)
      reads this
    {
      forall id :: id in irps ==> (id in before && irps[id] == before[id]) || irps[id].userData == ctx
    }

    /** The pointer half of `remove_send_ctx`: head, middle or tail, the rest stays linked in order. */
    method Unlink(target: SendCtx, ghost k: nat)
      requires Chained() && k < |contexts| && contexts[k] == target
      requires forall i, n :: 0 <= i < n < |contexts| ==> contexts[i] != contexts[n]
      modifies this`sendList, this`contexts, contexts`next
      ensures Chained() && contexts == old(contexts)[..k] + old(contexts)[k + 1..]
    {
      if sendList == target {
        sendList := target.next;
      } else {
        var ctx := sendList;
        ghost var i := 0;
        while ctx != null && ctx.next != target
          invariant 0 <= i < k && ctx == contexts[i]
          decreases k - i
        {
          ctx := ctx.next;
          i := i + 1;
        }
        if ctx != null {
          ctx.next := target.next;
        }
      }
      contexts := contexts[..k] + contexts[k + 1..];
    }

    /** `remove_send_ctx` */
    method RemoveSendCtx(target: SendCtx, ghost k: nat)
      requires Linked() && k < |contexts| && target == contexts[k]
      modifies this`sendList, this`contexts, this`freed, this`model, contexts`next
      ensures Linked() && model == Remove(old(model), target.job) && irps == old(irps)
      ensures contexts == old(contexts)[..k] + old(contexts)[k + 1..]
      ensures freed == old(freed) + {target} && target !in old(freed)
    {
      assert Mirrored(k);
      Distinct();
      WithoutAt(model.order, k);
      WithoutNoDup(model.order, target.job);
      ghost var order := model.order;
      CarriesQuiet(channel, model.log, Freed(target.job));
      Unlink(target, k);
      freed := freed + {target};
      model := Remove(model, target.job);
      forall i | 0 <= i < |contexts| ensures Mirrored(i) {
        ghost var n := if i < k then i else i + 1;
        assert old(Mirrored(n)) && order[n] != order[k];
      }
    }

    /** `devredir_irp_delete`, and the reply goes into the history. */
    method DeleteIrp(id: nat, status: u32, body: seq<byte>, ghost ok: bool)
      requires Linked() && id in irps
      modifies this`irps, this`model
      ensures Linked() && old(id in model.irps) && model == Heard(old(model), id, status, body, ok)
      ensures irps == old(irps) - {id}
    {
      CarriesQuiet(channel, model.log, Answered(model.irps[id].job, model.irps[id].kind, status, body, ok));
      irps := irps - {id};
      MoveOn(Heard(model, id, status, body, ok));
    }

    /** The writes of the callback into its context. */
    method Store(ctx: SendCtx, ghost k: nat, file: u32, state: Phase, offset: u32)
      requires Linked() && k < |contexts| && ctx == contexts[k]
      modifies this`model, ctx`fileId, ctx`completionId, ctx`state, ctx`dataOffset
      ensures Linked() && ctx.View() == old(ctx.View()).(file := file, phase := state, offset := offset)
      ensures model == Update(old(model), ctx.job, ctx.View())
    {
      assert Mirrored(k);
      Put(ctx, k, file, ctx.completionId, state, offset,
          Update(model, ctx.job, Job(ctx.deviceId, file, ctx.completionId, state, ctx.data, offset)));
    }

    /** A context that ends its job: state written, unlinked, freed. */
    method Finish(ctx: SendCtx, ghost k: nat, state: Phase)
      requires Linked() && k < |contexts| && ctx == contexts[k]
      requires forall id :: id in irps ==> irps[id].userData in contexts && irps[id].userData != ctx
      modifies this, contexts
      ensures Linked() && model == Remove(old(model), ctx.job)
      ensures forall id :: id in irps ==> irps[id].userData in contexts
      ensures ctx !in old(freed) && freed == old(freed) + {ctx}
      ensures contexts == old(contexts)[..k] + old(contexts)[k + 1..]
    {
      ghost var before, was := model, contexts;
      assert Mirrored(k);
      Store(ctx, k, ctx.fileId, state, ctx.dataOffset);
      assert model.jobs - {ctx.job} == before.jobs - {ctx.job};
      RemoveSendCtx(ctx, k);
      forall id | id in irps ensures irps[id].userData in contexts {
        var n :| 0 <= n < |was| && was[n] == irps[id].userData;
        assert contexts[if n < k then n else n - 1] == irps[id].userData;
      }
    }

    /** A context that goes on: written, then its next request. */
    method Proceed(ctx: SendCtx, ghost k: nat, file: u32, state: Phase, offset: u32, kind: Kind, ok: bool)
      requires Linked() && k < |contexts| && ctx == contexts[k]
      requires forall id :: id in irps ==> irps[id].userData in contexts
      requires Ready(ctx.View().(file := file, phase := state, offset := offset), kind)
      modifies this, contexts
      ensures Linked() && old(ctx.job in model.jobs) && contexts == old(contexts) && freed == old(freed)
      ensures model == Issue(Update(old(model), ctx.job,
                old(ctx.View()).(file := file, phase := state, offset := offset)), ctx.job, kind, ok)
      ensures forall id :: id in irps ==> irps[id].userData in contexts
    {
      assert Mirrored(k);
      Store(ctx, k, file, state, offset);
      match kind
      case CreateKind => var _ := SendCreateRequest(ctx, k, ok);
      case WriteKind => var _ := SendWriteRequest(ctx, k, ok);
      case CloseKind => var _ := SendCloseRequest(ctx, k, ok);
    }

    /** The opening of every case of the callback: find the context and delete the IRP. */
    method TakeIrp(id: nat, status: u32, body: seq<byte>, ghost ok: bool) returns (ctx: SendCtx, ghost k: nat)
      requires Valid() && id in irps
      modifies this`irps, this`model
      ensures Linked() && k < |contexts| && ctx == contexts[k] && ctx == old(irps)[id].userData
      ensures id in old(model).irps && old(model).irps[id].job == ctx.job && ctx.job in old(model).jobs
      ensures old(model).jobs[ctx.job] == ctx.View() && Matches(ctx.View(), id, old(model).irps[id])
      ensures model == Heard(old(model), id, status, body, ok)
      ensures forall i :: i in irps ==> irps[i].userData in contexts && irps[i].userData != ctx
    {
      ctx := irps[id].userData;
      k :| 0 <= k < |contexts| && contexts[k] == ctx;
      assert Mirrored(k) && SameIrp(irps[id], model.irps[id]) && IrpOk(model, id);
      OwnIrpOnly(id);
      DeleteIrp(id, status, body, ok);
    }

    /** `case CID_PRINTER_CREATE` */
    method CreateDone(id: nat, status: u32, body: seq<byte>, ok: bool)
      requires Valid() && id in irps && irps[id].kind == CreateKind
      modifies this, contexts
      ensures Linked() && model == Callback(old(model), id, status, body, ok)
      ensures freed == old(freed) + if Usable(status, body) then {} else {old(irps[id].userData)}
      ensures forall i :: i in irps ==> irps[i].userData in contexts
    {
      assert SameIrp(irps[id], model.irps[id]);
      CreateCallback(model, id, status, body, ok);
      var ctx, k := TakeIrp(id, status, body, ok);
      if !Usable(status, body) {
        Finish(ctx, k, Errored);
      } else {
        Proceed(ctx, k, ReadLe32(body), ctx.state, ctx.dataOffset, WriteKind, ok);
      }
    }

    /** `case CID_PRINTER_WRITE` */
    method WriteDone(id: nat, status: u32, body: seq<byte>, ok: bool)
      requires Valid() && id in irps && irps[id].kind == WriteKind
      modifies this, contexts
      ensures Linked() && model == Callback(old(model), id, status, body, ok) && freed == old(freed)
      ensures forall i :: i in irps ==> irps[i].userData in contexts
    {
      assert SameIrp(irps[id], model.irps[id]);
      WriteCallback(model, id, status, body, ok);
      var ctx, k := TakeIrp(id, status, body, ok);
      if !Usable(status, body) {
        Proceed(ctx, k, ctx.fileId, Errored, ctx.dataOffset, CloseKind, ok);
      } else {
        var offset := Add32(ctx.dataOffset, ReadLe32(body));
        var kind := if offset >= |ctx.data| then CloseKind else WriteKind;
        Proceed(ctx, k, ctx.fileId, ctx.state, offset, kind, ok);
      }
    }

    /** `case CID_PRINTER_CLOSE` */
    method CloseDone(id: nat, status: u32, body: seq<byte>, ghost ok: bool)
      requires Valid() && id in irps && irps[id].kind == CloseKind
      modifies this, contexts
      ensures Linked() && model == Callback(old(model), id, status, body, ok) && old(freed) <= freed
      ensures forall i :: i in irps ==> irps[i].userData in contexts
    {
      assert SameIrp(irps[id], model.irps[id]);
      ghost var before := model;
      CloseRemoves(before, id, status, body, ok);
      var ctx, k := TakeIrp(id, status, body, ok);
      Finish(ctx, k, Done);
    }

    /** `devredir_printer_irp_callback` */
    method IrpCallback(id: nat, status: u32, body: seq<byte>, ok: bool)
      requires Valid() && id in irps
      modifies this, contexts
      ensures Valid() && model == Callback(old(model), id, status, body, ok) && old(freed) <= freed
    {
      CallbackKeepsInv(model, id, status, body, ok);
      match irps[id].kind
      case CreateKind => CreateDone(id, status, body, ok);
      case WriteKind => WriteDone(id, status, body, ok);
      case CloseKind => CloseDone(id, status, body, ok);
    }

    /** No other IRP points at the context of an outstanding IRP. */
    lemma {:induction false} OwnIrpOnly(id: nat)
      requires Valid() && id in irps
      ensures forall i :: i in irps && i != id ==> irps[i].userData != irps[id].userData
    {
      assert IrpOk(model, id) && SameIrp(irps[id], model.irps[id]);
      forall i | i in irps && i != id ensures irps[i].userData != irps[id].userData {
        assert IrpOk(model, i) && SameIrp(irps[i], model.irps[i]);
      }
    }

    /** A response from the client: looked up by completion id, ignored if unknown. */
    method Respond(id: nat, status: u32, body: seq<byte>, ok: bool)
      requires Valid()
      modifies this, contexts
      ensures Valid() && model == Step(old(model), Response(id, status, body, ok))
    {
      if id in irps { IrpCallback(id, status, body, ok); }
    }

    /** `devredir_printer_send_job`; `memory` says whether the context and its copy of the data fit. */
    method SendJob(device: u32, data: Buffer, memory: bool, ok: bool) returns (rc: int)
      requires Valid()
      modifies this, contexts
      ensures Valid() && model == Step(old(model), Submit(device, data, memory, ok))
      ensures rc == if |data| > 0 && device in old(devices) && memory && ok then 0 else -1
      ensures var taken := |data| > 0 && device in old(devices) && memory;
        if taken then |contexts| > 0 && fresh(contexts[0]) && contexts[1..] == old(contexts)
        else contexts == old(contexts)
    {
      if |data| == 0 || device !in devices || !memory {
        return -1;
      }
      EnqueueKeepsInv(model, device, data, ok);
      rc := Start(device, data, ok);
    }

    /** The new context goes to the head of the list, and its CREATE to the client. */
    method Start(device: u32, data: Buffer, ok: bool) returns (rc: int)
      requires Valid()
      modifies this, contexts
      ensures Linked() && model == Enqueue(old(model), device, data, ok) && rc == if ok then 0 else -1
      ensures |contexts| > 0 && fresh(contexts[0]) && contexts[1..] == old(contexts)
      ensures forall id :: id in irps ==> irps[id].userData in contexts
    {
      Push(device, data, ok);
      rc := SendCreateRequest(sendList, 0, ok);
    }

    /** A new context at the head of the list. */
    method Prepend(device: u32, data: Buffer, ghost next: State)
      requires Listed() && NoDup(next.order) && (forall i :: 0 <= i < |model.order| ==> model.order[i] != model.nextJob)
      requires next.order == [model.nextJob] + model.order
      requires next.jobs == model.jobs[model.nextJob := Job(device, 0, 0, Idle, data, 0)]
      modifies this`sendList, this`contexts, this`model
      ensures Listed() && model == next && |contexts| > 0 && fresh(contexts[0]) && contexts == [contexts[0]] + old(contexts)
      ensures contexts[0].View() == Job(device, 0, 0, Idle, data, 0) && contexts[0].job == old(model).nextJob
    {
      ghost var job := model.nextJob;
      var ctx := new SendCtx(job, device, data, sendList);
      sendList := ctx;
      contexts := [ctx] + contexts;
      model := next;
      forall i | 0 <= i < |contexts| ensures Mirrored(i) {
        if i > 0 {
          assert old(Mirrored(i - 1));
          assert model.order[i] == old(model).order[i - 1] != job;
        }
      }
    }

    /** A new context becomes the head of the list. */
    method Push(device: u32, data: Buffer, ghost ok: bool)
      requires Valid()
      modifies this`sendList, this`contexts, this`model
      ensures Linked() && model == Link(old(model), device, data, ok) && irps == old(irps) && freed == old(freed)
      ensures |contexts| > 0 && fresh(contexts[0]) && contexts == [contexts[0]] + old(contexts)
      ensures contexts[0].View() == Job(device, 0, 0, Idle, data, 0) && contexts[0].job == old(model).nextJob
    {
      LinkKeepsOrder(model, device, data, ok);
      CarriesQuiet(channel, model.log, Queued(model.nextJob, device, data, ok));
      Prepend(device, data, Link(model, device, data, ok));
    }

    /** A printer leaves the table: its jobs keep their contexts and IRPs, new ones are refused. */
    method DeviceGone(device: u32)
      requires Valid()
      modifies this`devices, this`model
      ensures Valid() && model == Step(old(model), Removed(device)) && devices == old(devices) - {device}
      ensures contexts == old(contexts) && irps == old(irps)
    {
      StepKeepsInv(model, Removed(device));
      devices := devices - {device};
      MoveOn(Step(model, Removed(device)));
    }

    /** A printer has been added to the table. */
    method DeviceKnown(device: u32)
      requires Valid()
      modifies this`devices, this`model
      ensures Valid() && model == Step(old(model), Announced(device)) && devices == old(devices) + {device}
      ensures contexts == old(contexts) && irps == old(irps)
    {
      StepKeepsInv(model, Announced(device));
      devices := devices + {device};
      MoveOn(Step(model, Announced(device)));
    }

    /** Another part of the device redirector takes a completion id. */
    method TakeId() returns (id: nat)
      requires Valid()
      modifies this`completionId, this`model
      ensures Valid() && model == Step(old(model), Foreign) && id == old(completionId) && id !in irps
    {
      StepKeepsInv(model, Foreign);
      id := completionId;
      completionId := completionId + 1;
      MoveOn(Step(model, Foreign));
    }

    /** Any event: runs of this method are the runs of the abstract machine. */
    method Handle(e: Event)
      requires Valid()
      modifies this, contexts
      ensures Valid() && model == Step(old(model), e)
    {
      match e
      case Submit(device, data, memory, ok) => var _ := SendJob(device, data, memory, ok);
      case Response(id, status, body, ok) => Respond(id, status, body, ok);
      case Announced(device) => DeviceKnown(device);
      case Removed(device) => DeviceGone(device);
      case Foreign => var _ := TakeId();
    }
  }
}
