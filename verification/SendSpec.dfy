/**
 The IRP send engine as a state machine on values: what one event does to the
 contexts of `g_send_list`, to the outstanding IRPs and to the channel. The class
 `SendEngine` refines it; the modules beside it prove what every run keeps.
 */
module SendSpec {
  import opened Octets

  const CHUNK: nat := 65536      // PRINTER_WRITE_CHUNK_SIZE
  const STATUS_SUCCESS: u32 := 0

  datatype Phase = Idle | WaitCreate | WaitWrite | WaitClose | Done | Errored

  datatype Kind = CreateKind | WriteKind | CloseKind

  datatype Request =
    | CreateReq(device: u32)
    | WriteReq(device: u32, file: u32, offset: u32, payload: seq<byte>)
    | CloseReq(device: u32, file: u32)

  /** One `print_send_ctx`. */
  datatype Job = Job(device: u32, file: u32, completion: nat, phase: Phase,
                     data: Buffer, offset: u32)

  /** One outstanding IRP; `job` is its `user_data`, `req` the packet put on the channel for it. */
  datatype Irp = Irp(kind: Kind, device: u32, file: u32, job: nat, req: Request)

  /** The history. `ok` says whether an IRP could be allocated should this event need one. */
  datatype Effect =
    | Queued(job: nat, device: u32, data: Buffer, ok: bool)
    | Answered(job: nat, kind: Kind, status: u32, body: seq<byte>, ok: bool)
    | Sent(job: nat, id: nat, req: Request)
    | Starved(job: nat)
    | Freed(job: nat)

  /** `fault` records a use of a context that is not on the list, or of bytes outside its data. */
  datatype State = State(jobs: map<nat, Job>, order: seq<nat>, irps: map<nat, Irp>,
                         nextId: nat, nextJob: nat, devices: set<u32>,
                         log: seq<Effect>, fault: bool)

  datatype Event =
    | Submit(device: u32, data: Buffer, memory: bool, ok: bool)
    | Response(id: nat, status: u32, body: seq<byte>, ok: bool)
    | Announced(device: u32)
    | Removed(device: u32)
    | Foreign  // another part of the device redirector takes a completion id

  function Initial(firstId: nat): State
  {
    State(map[], [], map[], firstId, 0, {}, [], false)
  }

  function WaitingFor(k: Kind): Phase
  {
    match k
    case CreateKind => WaitCreate
    case WriteKind => WaitWrite
    case CloseKind => WaitClose
  }

  /** The bytes of the next WRITE; the subtraction is unsigned and wraps. */
  function ChunkSize(job: Job): nat
  {
    Min((|job.data| - job.offset) % TWO32, CHUNK)
  }

  predicate InsideBuffer(job: Job)
  {
    job.offset + ChunkSize(job) <= |job.data|
  }

  function RequestFor(k: Kind, job: Job): Request
    requires k == WriteKind ==> InsideBuffer(job)
  {
    match k
    case CreateKind => CreateReq(job.device)
    case WriteKind => WriteReq(job.device, job.file, job.offset,
                               job.data[job.offset..job.offset + ChunkSize(job)])
    case CloseKind => CloseReq(job.device, job.file)
  }

  function IrpFor(k: Kind, job: Job, j: nat): Irp
    requires k == WriteKind ==> InsideBuffer(job)
  {
    Irp(k, job.device, if k == CreateKind then 0 else job.file, j, RequestFor(k, job))
  }

  /** The three `send_printer_*_request` functions. */
  function Issue(s: State, j: nat, k: Kind, ok: bool): State
    requires j in s.jobs
  {
    var job := s.jobs[j];
    if !ok then
      s.(log := s.log + [Starved(j)])
    else if k == WriteKind && !InsideBuffer(job) then
      s.(fault := true)
    else
      s.(jobs := s.jobs[j := job.(completion := s.nextId, phase := WaitingFor(k))],
         irps := s.irps[s.nextId := IrpFor(k, job, j)],
         nextId := s.nextId + 1,
         log := s.log + [Sent(j, s.nextId, RequestFor(k, job))])
  }

  function Without(order: seq<nat>, j: nat): (r: seq<nat>)
    ensures forall x :: x in r <==> x in order && x != j
  {
    if order == [] then []
    else if order[0] == j then Without(order[1..], j)
    else [order[0]] + Without(order[1..], j)
  }

  /** `remove_send_ctx`: unlink and free. */
  function Remove(s: State, j: nat): State
  {
    if j !in s.jobs then s.(fault := true)
    else s.(jobs := s.jobs - {j}, order := Without(s.order, j), log := s.log + [Freed(j)])
  }

  function Update(s: State, j: nat, job: Job): State
  {
    s.(jobs := s.jobs[j := job])
  }

  /** The reply carries the four bytes every successful CREATE or WRITE response needs. */
  predicate Usable(status: u32, body: seq<byte>)
  {
    status == STATUS_SUCCESS && |body| >= 4
  }

  /** `devredir_printer_irp_callback` on the outstanding IRP `id`. */
  function Callback(s: State, id: nat, status: u32, body: seq<byte>, ok: bool): State
    requires id in s.irps
  {
    var irp := s.irps[id];
    var j := irp.job;
    if j !in s.jobs then s.(fault := true)
    else
      var job := s.jobs[j];
      var t := s.(irps := s.irps - {id}, log := s.log + [Answered(j, irp.kind, status, body, ok)]);
      match irp.kind
      case CreateKind =>
        if !Usable(status, body) then Remove(t, j)
        else Issue(Update(t, j, job.(file := ReadLe32(body))), j, WriteKind, ok)
      case WriteKind =>
        if !Usable(status, body) then
          Issue(Update(t, j, job.(phase := Errored)), j, CloseKind, ok)
        else
          var moved := job.(offset := Add32(job.offset, ReadLe32(body)));
          Issue(Update(t, j, moved), j,
                if moved.offset >= |job.data| then CloseKind else WriteKind, ok)
      case CloseKind => Remove(t, j)
  }

  /** A new context at the head of the list. */
  function Link(s: State, device: u32, data: Buffer, ok: bool): State
  {
    s.(jobs := s.jobs[s.nextJob := Job(device, 0, 0, Idle, data, 0)],
       order := [s.nextJob] + s.order,
       nextJob := s.nextJob + 1,
       log := s.log + [Queued(s.nextJob, device, data, ok)])
  }

  /** `devredir_printer_send_job` once the context has been allocated. */
  function Enqueue(s: State, device: u32, data: Buffer, ok: bool): State
  {
    Issue(Link(s, device, data, ok), s.nextJob, CreateKind, ok)
  }

  function Step(s: State, e: Event): State
  {
    match e
    case Submit(device, data, memory, ok) =>
      if |data| == 0 || device !in s.devices || !memory then s else Enqueue(s, device, data, ok)
    case Response(id, status, body, ok) =>
      if id in s.irps then Callback(s, id, status, body, ok) else s
    case Announced(device) => s.(devices := s.devices + {device})
    case Removed(device) => s.(devices := s.devices - {device})
    case Foreign => s.(nextId := s.nextId + 1)
  }

  function Run(s: State, events: seq<Event>): State
  {
    if events == [] then s else Step(Run(s, events[..|events| - 1]), events[|events| - 1])
  }
}
