# Printer redirection: a verified model

The repository redirects print jobs from an xrdp session to a printer of the RDP client. A job travels

1. from CUPS into the backend program `xrdp-printer`, which frames it for a Unix socket,
2. through one of eight connection slots in the channel server, where a buffer that grows by doubling collects it,
3. at its END message into the send engine, which opens, writes and closes a file on the client's printer with IRPs, many jobs interleaving,
4. to the client, as the packets of MS-RDPEFS sections 2.2.1.4.1, 2.2.1.4.2 and 2.2.1.4.4.

Around this path lie the announcement parser, the table of printers, the life of the setup helper, queue names, device URIs
and the expansion of configuration templates. This project models all of them and proves what each promises.

The main results:

- **Ownership.** In every interleaving of jobs, replies and device changes no context is used after it was freed, every
  outstanding IRP points at a listed context that waits for exactly it, and no context has two (`Ownership`). The linked list,
  the callback and the packets on the channel refine that abstract machine (`SendEngine`, `Packets`).
- **Non-interference.** What any interleaved run does for one job is a function of that job's data and its own replies (`Solo`),
  always of the form CREATE, WRITE\*, CLOSE with contiguous WRITEs of 1 to 65536 bytes; it ends after boundedly many replies,
  and with full acceptance after exactly ceil(n / 65536) + 2 (`Progress`).
- **Delivery.** A conforming client's file is always a prefix of the job, and the whole job when all replies were successes (`Delivery`).
- **Framing.** For any fragmentation, interruption or failure on either side the receiver dispatches a job whole or not at all (`Frames`,
  `Backend`, `Receiver`, `Connection`), eight connections in place as if each were alone (`Slots`).
- **End to end.** In one machine of any number of backends, all connections, the engine and the client, nothing is printed that no
  backend sent and nothing twice, different jobs coming from different backends by one map (`Relay`), an acknowledgement means that all of an input was dispatched (`Pipeline`), and every non-empty input of at most 256 MB has a run of it that prints that input whole (`Completion`, `Relay`).
- **Templates, queue names, announcements, buffer lengths, listening sockets**: where the code does not always do what one would
  expect, the exact condition under which it does, for all inputs, and an input on which it does not.
- **Buffer growth**, **URIs**, **device table** and **setup helper**: round trips, refinements and bounds over whole runs.

## How it is built

- Code that changes state is modelled by classes and methods with loops: `SendEngine.Engine`, `Backend.Outlet`,
  `Connection.BackendConn`, `Slots.ConnTable`, `DeviceTable.PrinterManager`, `Setup.Redirector`, `Announce.DecodeName`,
  `Placeholder.ReplacePlaceholder`. Their `ensures` tie the new state to a function of the old one, and the lemmas are about that function.
- Sockets, `poll`, `fork`, memory and IRP allocation are scripts or parameters: every theorem is for all their outcomes.
- 32-bit sums and differences wrap explicitly (`Octets.Add32`, `SendSpec.ChunkSize`). A use of freed memory or of bytes outside a buffer
  sets `fault` in `SendSpec.State`; that it never does is part of `Ownership.RunKeepsOwnership`.

## Where the code and its comments or expectations differ

- `src/printer/printer_socket.c:11` says the acknowledgement is sent after the job went to the client. The code sends it when JOB_END is
  handled, whether or not the job could be queued (lines 260-275). The model follows the code.
- `src/printer/printer_cups.c:46` describes the URI as holding the device id only. The code writes session and device (line 78).
- The announcement's comment cites MS-RDPEFS section 2.2.3.1; the layout is that of MS-RDPEPC section 2.2.2.1.
- The length check of the announcement parser adds in 32 bits. It accepts data shorter than the announced fields exactly if the sum wraps:
  `Announce.FieldsFit`. Even then the announcement may be parsed as it should be (`Announce.WrapAccepted`): a byte behind the data is read if
  and only if a name is not settled inside it, `Announce.StaysIff`, with the input in `Announce.WrapOverreads`.
- The sum of collected and announced bytes wraps in 32 bits. Bytes arrive behind the buffer exactly if it does and more of the payload
  arrives than there is room, which never happens with this backend (`Relay.NothingOverrun`): `Receiver.OverrunIff` and, over whole runs, `Receiver.OverrunAfter`, with the input in `Receiver.WrapOverruns`.
- The template loop ends if and only if value and placeholder differ or the line lacks the placeholder: `Placeholder.HaltsIff`. It is
  replace-all on every line that fits if and only if the value does not join the placeholder: `Expansion.LineReplaceAllIff`, with a user
  called S in `Expansion.UserNamedS`.
- A listening socket is left open and unknown if and only if a helper succeeds while the listener of an earlier success is in service:
  `Setup.LeakIff`, with the input in `Setup.HotPlugLeaksListener`.
- The sweep of stale queues removes its own session's queues and no other's if and only if it claims no other's name, and
  `QueueNames.PrefixClaims` says for all sessions which names it claims: `QueueNames.SweepIsExact`. After a failed private cupsd the code
  sweeps without a number (`src/devredir_printer.c:1236-1243`), which takes every numbered session's queue as well:
  `QueueNames.NumberlessSweep`, with the input in `QueueNames.FallbackTakesNumbered`.

## Model

| member | source | states |
|---|---|---|
| Ownership.StepKeepsInv | src/devredir_printer.c:703-861 | every event keeps the invariant: no fault, a list without repetition, each outstanding IRP the one request its listed context waits for; and, IRP allocation succeeding, every listed context keeps having one |
| Ownership.CallbackCases | src/devredir_printer.c:710-824 | a completion either frees its context or moves it and sends exactly the request that follows |
| Ownership.RunKeepsOwnership | src/devredir_printer.c:516-915 | over any run from the start nothing is used after its free, nothing is freed twice, and contexts and IRPs agree |
| Ownership.RunKeepsWaiting | src/devredir_printer.c:524-529 | if IRP allocation never fails, every listed context has its IRP outstanding after any run |
| Ownership.OneIrpPerJob | src/devredir_printer.c:516-691 | a context has at most one outstanding IRP, a freed one has none, and exactly one if allocation never fails |
| Ownership.IrpAsks | src/devredir_printer.c:516-691 | an outstanding IRP and its packet name the device and file of its context; a WRITE takes the data from the context's offset on, 65536 bytes at most and as many as remain |
| Ownership.CreateReplied | src/devredir_printer.c:721-753 | status 0 with at least four bytes stores the file id and leads to the first WRITE; any other reply to a CREATE ends the job; without an IRP the context only keeps the id |
| Ownership.WriteReplied | src/devredir_printer.c:755-802 | status 0 with at least four bytes moves the offset by the count modulo 2^32, to the next WRITE or at the end of the data to the CLOSE; without an IRP for that it only moves it |
| Ownership.WriteRefused | src/devredir_printer.c:755-778 | any other reply to a WRITE leads to the CLOSE from where the context is, or without an IRP marks it as failed |
| Ownership.CloseReplied | src/devredir_printer.c:804-818 | any reply to a CLOSE ends the job |
| Ownership.KnownIffPresent | src/devredir_printer.c:442-501 | after any run jobs are taken for a device if and only if its last announcement or removal was an announcement |
| Ownership.TakenIff | src/devredir_printer.c:867-915 | after any run a job is taken if and only if it has data, memory and a device announced and not removed since; it heads the list with its CREATE sent, and otherwise the engine is as it was |
| Solo.RunAgrees | src/devredir_printer.c:703-826 | after any run the engine's record of each job is the state of that job running alone on its own replies |
| Solo.NonInterference | src/devredir_printer.c:703-915 | the projection of an interleaved run onto a job is the single-job run of its data and replies, completion ids aside |
| Solo.SameRepliesSameActs | src/devredir_printer.c:703-915 | a job with the same data and replies is served the same in any two runs, whatever other jobs do |
| Solo.AloneIsReal | src/devredir_printer.c:703-915 | conversely, for any data and replies there is a run of the engine with that one job whose projection is the single-job run |
| Progress.AloneShaped | src/devredir_printer.c:577-583 | a job's requests are CREATE, then WRITEs inside its data, then CLOSE, each WRITE starting where the last reply left off |
| Progress.RequestForm | src/devredir_printer.c:577-817 | every job in every interleaved run has requests of that form, on one file |
| Progress.AloneEnds | src/devredir_printer.c:769-817 | if replies accept at least a byte, a job of n bytes is over within n + 2 replies |
| Progress.ExactExchanges | src/devredir_printer.c:577-583 | with full acceptance a job is over after ceil(n / 65536) WRITEs, one CREATE and one CLOSE, and not before |
| Progress.JobEnds | src/devredir_printer.c:769-817 | the same for a job among others: in any interleaved run it is off the list by its (n + 2)-th reply |
| Progress.JobExchanges | src/devredir_printer.c:577-817 | the same for a job among others: it leaves the list with its ceil(n / 65536) + 2-nd reply, neither earlier nor later, having made as many requests |
| Progress.StepWork | src/devredir_printer.c:703-915 | an event adds to the remaining work at most what a submitted job can need, and a reply takes some away |
| Progress.ReplyLowersWork | src/devredir_printer.c:755-817 | each productive reply lowers the remaining work of the whole list of jobs |
| Progress.EveryJobLeaves | src/devredir_printer.c:703-915 | productive replies cannot go on for ever, whatever is submitted, announced or removed between them; there is an IRP to answer as long as a job is listed, and without one the list is empty |
| Delivery.TakenIsPrefix | src/devredir_printer.c:787-796 | what a reply accepts extends the accepted bytes from one prefix of the data to a longer one, and the offset does not wrap |
| Delivery.CallbackHandles | src/devredir_printer.c:703-826 | a completion changes its own context and nothing of any other job |
| Delivery.AnswerKeepsApart | src/devredir_printer.c:724-752 | two jobs never share an open file of the client |
| Delivery.EndSettles | src/devredir_printer.c:804-817 | a job that leaves the list leaves a prefix of its data with the client, or all of it after successes only |
| Delivery.SysRunKeepsInv | src/devredir_printer.c:703-915 | in every run with a conforming client each open file holds exactly the bytes accepted so far |
| Delivery.WritesContinueTheFile | src/devredir_printer.c:577-636 | every outstanding WRITE starts at the end of its file, holds 1 to 65536 bytes inside the data and continues the file along the data |
| Delivery.Delivered | src/devredir_printer.c:755-817 | a closed file is a prefix of its job; a job that is over after successful replies only was printed whole |
| Completion.CooperationHelps | src/devredir_printer.c:703-826 | for a lone job with an outstanding IRP there is always a conforming answer, after which all is as before with less work left |
| Completion.RunsOut | src/devredir_printer.c:703-861 | answering on, a client that does all it is asked empties the list |
| Completion.EveryJobCanBePrinted | src/devredir_printer.c:867-915 | for any device and any non-empty data there is a run in which the job is over, all went well and the client holds the data |
| Packets.CreateBody | src/devredir_printer.c:547-554 | the eight words of MS-RDPEFS section 2.2.1.4.1: generic write access 0x40000000, disposition 1, and zero for allocation size, attributes, sharing, options and path length |
| Packets.WriteBody | src/devredir_printer.c:615-618 | the packet body is length, 64-bit offset, 20 bytes of padding and the data, and reads back, by MS-RDPEFS section 2.2.1.4.4, as a WRITE of those bytes at that offset, whatever the padding holds |
| Packets.CloseBody | src/devredir_printer.c:673-676 | 32 bytes, which read back as a CLOSE |
| SendEngine.SendCtx.constructor | src/devredir_printer.c:886-903 | a new context is idle, at offset 0, in front of the old head |
| SendEngine.Engine.constructor | src/devredir_printer.c:183-246 | no context, IRP or packet at the start |
| SendEngine.WithoutAt | src/devredir_printer.c:835-858 | cutting one place out of the list is filtering its context out, the others stay in order |
| SendEngine.Engine.Distinct | src/devredir_printer.c:905-907 | the list holds no context twice |
| SendEngine.Engine.OwnIrpOnly | src/devredir_printer.c:531-537 | no two outstanding IRPs point at one context |
| SendEngine.Engine.Unlink | src/devredir_printer.c:842-857 | head, middle or tail, the list stays acyclic and loses exactly the target |
| SendEngine.Engine.RemoveSendCtx | src/devredir_printer.c:835-861 | unlinks and frees a context not freed before, and does to the abstract state what removal means |
| SendEngine.Engine.Put | src/devredir_printer.c:710-802 | writing into one context changes that job of the abstract state and no other place of the list |
| SendEngine.Engine.Post | src/devredir_printer.c:531-560 | IRP, completion id, packet and state together are one abstract request |
| SendEngine.Engine.SendCreateRequest | src/devredir_printer.c:516-572 | refines the abstract CREATE, and changes nothing but the history if no IRP can be had |
| SendEngine.Engine.SendWriteRequest | src/devredir_printer.c:577-636 | refines the abstract WRITE of the next chunk, computed with the unsigned difference |
| SendEngine.Engine.SendCloseRequest | src/devredir_printer.c:641-691 | refines the abstract CLOSE |
| SendEngine.Engine.CreateDone | src/devredir_printer.c:721-753 | the CREATE case of the callback refines the abstract callback, keeping every IRP's context on the list |
| SendEngine.Engine.WriteDone | src/devredir_printer.c:755-802 | the WRITE case does, with a wrapping offset and the close after a failure |
| SendEngine.Engine.CloseDone | src/devredir_printer.c:804-818 | the CLOSE case does, whatever the status |
| SendEngine.Engine.IrpCallback | src/devredir_printer.c:703-826 | the callback keeps list, IRPs, packets and ownership consistent and never frees twice |
| SendEngine.Engine.Push | src/devredir_printer.c:905-907 | head insertion prepends to the list |
| SendEngine.Engine.SendJob | src/devredir_printer.c:867-915 | refuses empty data, unknown devices and failed allocations without a trace; else the new job heads the list with its CREATE requested |
| SendEngine.Engine.DeviceGone | src/devredir_printer.c:482-501 | removing a printer takes its id, and no other, from those jobs are taken for, and leaves running jobs and IRPs alone |
| SendEngine.Engine.Handle | src/devredir_printer.c:516-915 | runs of the imperative engine are runs of the abstract machine |
| Frames.HeaderRoundTrip | src/printer/printer_socket.c:211-219 | a header is read back from the front of any bytes |
| Frames.WireFormat | src/printer/printer_socket.h:29-44 | the bytes of each kind of frame: type 1 to 4, device, length, job, little-endian, then the payload |
| Frames.FirstOfEncoded | src/printer/printer_socket.c:218-252 | the first frame of a stream is what was put there first |
| Frames.FrontIff | src/printer/printer_socket.c:218-287 | types 1 and 3 are whole frames by their header, type 2 with all of its payload, and nothing else is a frame |
| Frames.DecodeEncoded | src/printer/printer_socket.c:209-287 | decoding a sequence of encoded messages gives the messages |
| Frames.DecodeCut | src/printer/printer_socket.c:120-151 | a stream cut anywhere decodes to a prefix of its messages |
| Frames.DecodeSizes | src/printer/printer_socket.c:218-252 | the messages of a stream account for no more bytes than it has |
| Frames.EncodeSizes | src/cups/xrdp-printer.c:152-194 | encoded messages take exactly the bytes of their frames |
| Backend.SendPayload | src/cups/xrdp-printer.c:173-190 | for every schedule of short and interrupted writes, all of the payload or a proper prefix goes out, and all of it if no write fails |
| Backend.SendMsg | src/cups/xrdp-printer.c:152-194 | all of the frame goes out exactly if it succeeds, else a proper prefix |
| Backend.ForwardBlocks | src/cups/xrdp-printer.c:238-248 | one DATA message for each block read, in order; after a failure a prefix |
| Backend.ProcessJob | src/cups/xrdp-printer.c:223-270 | the wire carries a prefix of the job's stream, all of it and an acknowledgement on success, and no END after an input error |
| Growth.LeastCapIsLeast | src/printer/printer_socket.c:179-193 | the capacity chosen is the least 65536 * 2^k that fits |
| Growth.LeastCapIsTight | src/printer/printer_socket.c:179-193 | the capacity chosen holds what is asked for and is 65536 or less than twice that |
| Growth.LeastCapFrom | src/printer/printer_socket.c:185-193 | doubling on from a capacity that is too small gives the same result as from the start |
| Growth.FitKeepsThrifty | src/printer/printer_socket.c:173-177 | a request that fits raises the high-water mark and needs no new capacity |
| Growth.GrowthKeepsThrifty | src/printer/printer_socket.c:179-203 | after a growth the bytes ever copied are still fewer than the capacity, and the capacity the least for the mark |
| Growth.FewReallocations | src/printer/printer_socket.c:179-203 | at most 13 reallocations, copying less in all than the final capacity of at most 256 MB |
| Receiver.ServeKeepsOk | src/printer/printer_socket.c:209-287 | a handled message keeps data within capacity and capacity least for the high-water mark |
| Receiver.ServedIff | src/printer/printer_socket.c:171-287 | a call succeeds if and only if a whole known frame is there and, for a payload, all collected bytes fit the buffer or, with memory, 256 MB |
| Receiver.ReceiveIsFaithful | src/printer/printer_socket.c:209-287 | after any calls the collected bytes, owner and effects are those the handled messages mean, and these are the front of the stream |
| Receiver.AllOrNothing | src/printer/printer_socket.c:209-287 | whatever fails and when, dispatches are exactly those of whole handled jobs |
| Receiver.UnfinishedIsSilent | src/printer/printer_socket.c:235-253 | DATA not followed by an END has no effect |
| Receiver.OneAckPerEnd | src/printer/printer_socket.c:255-279 | as many acknowledgements as ENDs, and each dispatch is followed at once by one |
| Receiver.GrowthIsBounded | src/printer/printer_socket.c:171-204 | the growth bounds hold over every run of a connection |
| Receiver.ShortGrantIff | src/printer/printer_socket.c:171-177 | room is granted that is too small for the payload if and only if the 32-bit sum wraps |
| Receiver.OverrunIff | src/printer/printer_socket.c:235-252 | bytes arrive behind the buffer if and only if a DATA header's length wraps the sum and more of the payload arrives than there is room |
| Receiver.OverrunAfter | src/printer/printer_socket.c:235-252 | after any calls, that happens in the next one if and only if its header announces DATA that, with the payloads since the last START or END, makes 2^32 bytes or more, and more arrive than the capacity holds |
| Receiver.WrapOverruns | src/printer/printer_socket.c:235-252 | one byte collected, a header announcing 2^32 - 1 more, and any 65536 bytes behind it are such a case |
| Receiver.SmallNeverOverruns | src/printer/printer_socket.c:235-252 | from a stream whose DATA headers announce at most 65536 bytes, no bytes ever arrive behind the buffer |
| Connection.Source.ReadExact | src/printer/printer_socket.c:120-151 | for every schedule of reads, exactly the next bytes of the stream arrive in place, or it fails with fewer taken; bytes arrive behind the buffer only if it is shorter than what is asked for and what comes |
| Connection.GrownCapacity | src/printer/printer_socket.c:179-193 | the doubling loop ends, succeeds exactly up to 256 MB and returns the least capacity |
| Connection.BackendConn.constructor | src/printer/printer_socket.c:105-110 | a slot starts empty without a buffer |
| Connection.BackendConn.Realloc | src/printer/printer_socket.c:195-202 | the new buffer holds the old bytes |
| Connection.BackendConn.EnsureCapacity | src/printer/printer_socket.c:171-204 | granted exactly if the 32-bit sum fits, or with memory and within the limit; the data is preserved, also when the sum wraps |
| Connection.BackendConn.Fill | src/printer/printer_socket.c:243-251 | the payload lands behind the collected bytes; a failure leaves those alone |
| Connection.BackendConn.EndJob | src/printer/printer_socket.c:255-279 | dispatch of what was collected, if anything, then the acknowledgement, then a fresh start |
| Connection.BackendConn.HandleData | src/printer/printer_socket.c:209-287 | the in-place handler refines the reading of one frame off the stream, a failed call has no effect, and bytes arrive behind the buffer only where the specification says |
| Slots.ShapeReplaced | src/printer/printer_socket.c:339-344 | serving a slot keeps the table's shape: count, distinct connections, none lost |
| Slots.ShapeFreed | src/printer/printer_socket.c:292-303 | closing a slot keeps it, with one connection fewer |
| Slots.ShapeAdded | src/printer/printer_socket.c:105-111 | accepting into a free slot keeps it, with one connection more |
| Slots.HistoriesServed | src/printer/printer_socket.c:324-351 | serving one connection leaves the histories of all others untouched |
| Slots.OpenedOk | src/printer/printer_socket.c:105-111 | an accepted connection keeps the table consistent, with one slot more in use |
| Slots.ServedOk | src/printer/printer_socket.c:337-344 | a call that succeeds keeps the table consistent and every other connection's history |
| Slots.OverOk | src/printer/printer_socket.c:292-303 | a connection that is closed keeps its history, and the table one slot fewer in use |
| Slots.EachAsIfAlone | src/printer/printer_socket.c:324-351 | every dispatch and acknowledgement of every connection ever accepted is what its own stream calls for |
| Slots.OwnTurn | src/printer/printer_socket.c:324-351 | a pass leaves free and quiet slots as they are, frees those that hung up or whose call fails, and gives those whose call succeeds one more round of their own session, whatever happens to the others |
| Slots.ConnTable.constructor | src/printer/printer_socket.c:50-54 | eight connections in place, all free |
| Slots.ConnTable.FindFree | src/printer/printer_socket.c:59-69 | the first free slot, and none exactly if all eight are taken |
| Slots.ConnTable.OpenInPlace | src/printer/printer_socket.c:105-111 | the connection in place starts fresh; nothing of another slot changes and nothing is shared |
| Slots.ConnTable.Accept | src/printer/printer_socket.c:74-115 | a new connection enters the first free slot fresh; a ninth is turned away without a trace; -1 exactly if accept fails |
| Slots.ConnTable.Clear | src/printer/printer_socket.c:299-302 | the connection in place is wiped; the other seven with their buffers are as they were |
| Slots.ServeConn | src/printer/printer_socket.c:209-287 | a call on one connection that succeeds leaves it as the specification's session, and without read failures it fails only where that does |
| Slots.ConnTable.CallInPlace | src/printer/printer_socket.c:209-287 | a call on one connection in place touches its own buffer and socket only, and refines a call on its session |
| Slots.ConnTable.CloseConn | src/printer/printer_socket.c:292-303 | frees exactly that slot |
| Slots.ConnTable.HandleSlot | src/printer/printer_socket.c:337-344 | the connection is served if the call succeeds and closed if it fails, which without read failures is what its session says |
| Slots.ConnTable.CheckAll | src/printer/printer_socket.c:324-351 | the loop over the connections in place refines a pass over the table and does to each of the eight slots what its own poll and call say; a readable connection stays open only if its session's next call succeeds, and if its reads do not fail, exactly then |
| Slots.ConnTable.GetFds | src/printer/printer_socket.c:308-319 | the descriptors of the active slots in order, as many as there are and fit |
| Slots.FdsAt | src/printer/printer_socket.c:308-319 | the descriptor of each active slot stands behind those of the active slots before it, if there is room |
| Pipeline.JobEffects | src/printer/printer_socket.c:255-279 | no prefix of a job's messages has effects before its END, and all of them dispatch the whole input |
| Pipeline.Relayed | src/printer/printer_socket.c:209-287 | of a backend's stream cut anywhere, the job is dispatched whole to the right device or not at all, and only if all arrived |
| Pipeline.NothingLost | src/cups/xrdp-printer.c:223-270 | an undisturbed job of at most 256 MB is dispatched and acknowledged |
| Pipeline.AckIffDispatched | src/cups/xrdp-printer.c:199-218 | the acknowledgement the backend waits for comes if and only if all of its stream arrived and the whole input was dispatched |
| Pipeline.BackendNeverOverruns | src/cups/xrdp-printer.c:226-248 | no part of the stream of a backend that reads at most 64 KB at a time makes the receiver write behind its buffer |
| Relay.CallEffects | src/printer/printer_socket.c:255-279 | a call brings at most one dispatch, of data whose length 32 bits hold |
| Relay.RunKeepsOk | src/printer/printer_socket.c:260-266 | in every run of all connections and the engine together, the engine is given exactly the jobs the connections dispatch, each as often |
| Relay.StepTail | src/devredir_printer.c:703-915 | an event adds at most two entries to the history, and a job only for a submission |
| Relay.RunKeepsKnown | src/devredir_printer.c:867-915 | the engine queues no job more often than it was given, and every job number is some queued job's |
| Relay.PrintedIsJob | src/devredir_printer.c:804-817 | whatever the client holds after a close belongs to a job of the engine |
| Relay.NothingInvented | src/printer/printer_socket.c:255-279 | with any number of backends, cut off anywhere, and everything in any order, every job is the input of a backend that named its device; the client holds a prefix of it, and all of it once the job is over after successes only |
| Relay.QueuedAsSent | src/printer/printer_socket.c:255-279 | in every run the engine queues no job more often than backends sent it |
| Relay.NothingTwice | src/printer/printer_socket.c:255-279 | in every run there is one map from the queued jobs to backends that sent them, and it gives no two jobs the same backend |
| Relay.NothingOverrun | src/cups/xrdp-printer.c:226-248 | in every run, backends that read at most 64 KB at a time make no connection write behind its buffer |
| Relay.EveryInputIsPrinted | src/cups/xrdp-printer.c:223-270 | every non-empty input of at most 256 MB has a run of the whole machine that ends with the client holding it |
| Announce.RestIsName | src/devredir_printer.c:400-414 | decoding byte by byte is decoding unit by unit: printable units before the first zero unit, cut to the room left |
| Announce.StaysIff | src/devredir_printer.c:400-402 | the loop reads no byte behind the data if and only if the name is settled there: all units of the field, a zero unit or 255 characters lie inside |
| Announce.DecodeName | src/devredir_printer.c:396-416 | the loop stays inside the data exactly if the name is settled there, and then leaves it, terminated, in its 256-character buffer |
| Announce.BufferIsName | src/devredir_printer.c:415-416 | read as a C string the buffer is that name, which has no zero inside |
| Announce.ParseHeader | src/devredir_printer.c:355-390 | accepts exactly what passes the 32-bit length check |
| Announce.Parse | src/devredir_printer.c:337-440 | rejected exactly if the check fails; accepted exactly if it passes and both names are settled inside the data, with flags and names cut out by their lengths, whether or not the sum wraps |
| Announce.FieldsFit | src/devredir_printer.c:381-390 | past the check the fields lie inside the data if and only if the sum does not wrap |
| Announce.NamesInside | src/devredir_printer.c:381-440 | names that lie inside the data, as they do if the sum does not wrap, are settled and read off it whole |
| Announce.WrapOverreads | src/devredir_printer.c:381-402 | a bare header whose lengths wrap the sum to 24 passes the check, and the driver name is read behind the data |
| Announce.WrapAccepted | src/devredir_printer.c:381-440 | a bare header whose cached length wraps the sum to 23 passes the check and is accepted with empty names |
| Announce.NameRoundTrip | tests/test_device_announce.c:136-195 | a printable name survives UTF-16 encoding and decoding up to 255 characters |
| Announce.NameSample | src/devredir_printer.c:400-414 | A, two units outside printable ASCII, B, a zero unit and C are read as AB |
| Announce.Utf16Bytes | tests/test_device_announce.c:136-195 | a name is encoded low byte first and ends with a zero unit |
| Announce.AnnounceRoundTrip | tests/test_device_announce.c:136-195 | flags, code page, the four lengths, PnP field, driver name, printer name and cached fields in this order parse to the flags and both names, whatever the other fields hold |
| Placeholder.FindFrom | src/printer/printer_cups_session.c:97-98 | the first occurrence, or none anywhere |
| Placeholder.SpliceAt | src/printer/printer_cups_session.c:112-113 | moving the tail and copying the value leaves prefix, value and suffix, terminated |
| Placeholder.ReplacePlaceholder | src/printer/printer_cups_session.c:93-115 | replaces the first occurrence exactly if there is one and the result fits; else the buffer is untouched |
| Placeholder.MeasureFalls | src/printer/printer_cups_session.c:148-155 | each successful replacement lowers a measure, whatever the value contains, unless it is the placeholder itself |
| Placeholder.Expand | src/printer/printer_cups_session.c:148-155 | the loop stops within the buffer where no placeholder is left or one more would not fit |
| Placeholder.ExpandAll | src/printer/printer_cups_session.c:148-149 | wherever the loop ends it leaves the expanded string in the buffer |
| Placeholder.HaltsIff | src/printer/printer_cups_session.c:148-155 | the loop ends if and only if value and placeholder differ or the line lacks the placeholder |
| Placeholder.MarksFall | src/printer/printer_cups_session.c:93-115 | each replacement changes the count of any character by that of the value less that of the placeholder, so '@' falls by two for a value without it |
| Expansion.PlainValue | src/printer/printer_cups_session.c:148-155 | a value without '@' can make up a placeholder exactly if it is part of one |
| Expansion.OneMarkIsQuiet | src/printer/printer_cups_session.c:148-155 | a value with one '@' that is not next to what a placeholder has next to its own joins nothing |
| Expansion.DomainUser | src/printer/printer_cups_session.c:152-153 | a user of a domain joins none of the four placeholders |
| Expansion.AcrossJoins | src/printer/printer_cups_session.c:112-113 | an occurrence that takes in some of a value put in place of the first occurrence shows that the value joins |
| Expansion.StaysClosed | src/printer/printer_cups_session.c:148-155 | what lies behind the loop is never touched again, for values that do not join |
| Expansion.ExpandIsReplaceAll | src/printer/printer_cups_session.c:148-155 | for a value that does not join, the loop in the buffer is leftmost replace-all if and only if that fits |
| Expansion.FilledIn | src/printer/printer_cups_session.c:148-155 | replace-all of a text cut at its placeholders is the same pieces with the value between them |
| Expansion.JoiningLine | src/printer/printer_cups_session.c:148-155 | for every value that joins and every buffer with room for it and the placeholder twice there is a line on which the loop and replace-all differ |
| Expansion.ReplaceAllIff | src/printer/printer_cups_session.c:148-155 | for a placeholder like '@USER@' and such a buffer, the loop is leftmost replace-all on every line that fits if and only if the value does not join it: is no part of it, does not hold it, does not end with a beginning of it nor begin with an end of it |
| Expansion.LineReplaceAllIff | src/printer/printer_cups_session.c:141-155 | the same for the four placeholders and the buffer of 1024 characters |
| Expansion.UserNamedS | src/printer/printer_cups_session.c:152-153 | a user called S and a line on which the two differ |
| Expansion.ExpandMakesNone | src/printer/printer_cups_session.c:148-155 | a value that does not join a placeholder brings none of it into a line without it |
| Expansion.LineIsComplete | src/printer/printer_cups_session.c:141-155 | with values that join none of the four placeholders and enough room a line comes out with all placeholders replaced and none left |
| Expansion.LineReplaces | src/printer/printer_cups_session.c:148-155 | such a line is the template's with @SOCKET_PATH@, @STATE_DIR@, @USER@ and @GROUP@ replaced, in this order, by socket path, state directory, user and group |
| Expansion.ExpandLine | src/printer/printer_cups_session.c:141-155 | a line goes through the four loops, each with its placeholder and its value, in their order and in a buffer of 1024 characters, wherever these end |
| Numerals.AtoiOfPrintInt | src/printer/printer_cups.c:78 | reading undoes decimal printing for every integer, if no digit follows |
| Numerals.StrtoulOfPrint | src/cups/xrdp-printer.c:112 | reading undoes hexadecimal printing for every 32-bit number |
| DeviceUri.ParseDeviceUri | src/cups/xrdp-printer.c:88-115 | result and out-parameters for URIs that are absent, foreign, without a device, or complete |
| DeviceUri.UriRoundTrip | src/printer/printer_cups.c:76-82 | the backend reads back the session and device that the queue's creator wrote, for every pair |
| DeviceUri.UriSample | src/printer/printer_cups.c:76-82 | session 10 and device 255 make xrdp-printer://10/ff |
| QueueNames.PutClean | src/printer/printer.c:138-149 | the loop writes the cleaned name and nothing else |
| QueueNames.SanitizeName | src/printer/printer.c:104-153 | the buffer holds "xrdp_", for a numbered session the number and an underscore, then the name with every character that is no letter, digit or hyphen turned into an underscore, or "printer", and one terminator at its end; no buffer exactly if there is no memory |
| QueueNames.NameChars | src/printer/printer.c:138-149 | queue names consist of letters, digits, hyphens and underscores, so hold no colon |
| QueueNames.NumberPrefix | src/printer/printer.c:106-116 | a decimal number ended by an underscore begins another only if they are equal |
| QueueNames.PrefixClaims | src/printer/printer.c:104-153 | for all session ids: a name carries a session's prefix if and only if the prefix has no number, or both numbers are the same, or the name was given without one and begins with that number and an underscore |
| QueueNames.NameRecovered | src/printer/printer_cups.c:217-236 | a name without colon behind the first "device for " of a line and before a colon is read back exactly if shorter than 256 characters, else skipped |
| QueueNames.NameIsThere | src/printer/printer_cups.c:217-236 | what the sweep takes for a name stands in the line between "device for " and a colon and is shorter than 256 characters |
| QueueNames.CleanupStaleQueues | src/printer/printer_cups.c:184-248 | the removals are the prefixed names found in the lines, in order |
| QueueNames.SweepTakes | src/printer/printer_cups.c:184-248 | among queues of any sessions and naming modes the sweep removes exactly those whose names it claims and can hold, in order |
| QueueNames.SweepIsExact | src/printer/printer_cups.c:184-248 | the sweep removes its own session's queues and nothing else if and only if it claims no other's |
| QueueNames.NumberedSweep | src/printer/printer_cups.c:184-248 | among queues of numbered sessions the sweep of a number is exact |
| QueueNames.NumberlessSweep | src/devredir_printer.c:1236-1243 | the sweep without a number is exact if and only if every numbered session's queue has a name too long for it |
| QueueNames.FallbackTakesNumbered | src/devredir_printer.c:1236-1243 | the fallback sweep after a failed private cupsd takes session 10's queue |
| DeviceTable.IndexOf | src/printer/printer.c:227-245 | the first device with the id, or none has it |
| DeviceTable.AddedRefines | src/printer/printer.c:158-222 | a new id enters the map, at the end, unless known or the table is full; ids stay unique |
| DeviceTable.RemovedAt | src/printer/printer.c:276-305 | removing an id is cutting out one place |
| DeviceTable.RemovedRefines | src/printer/printer.c:276-305 | a removed id leaves the map, all others keep their device |
| DeviceTable.MarkedRefines | src/devredir_printer.c:1200-1208 | marking changes only the creation flag, and only of devices that have a queue name |
| DeviceTable.PrinterManager.Find | src/printer/printer.c:227-245 | the device of an id, or null exactly if there is none |
| DeviceTable.PrinterManager.Add | src/printer/printer.c:158-222 | refines adding: null and no change exactly if full, known or without memory for the device; else the last device has the announced id, flags and names, each name absent that could not be copied, the DOS name cut to 8, no queue yet, and the queue name of its printer or DOS name for the session, or for none with a private cupsd |
| DeviceTable.PrinterManager.ShiftDown | src/printer/printer.c:292-299 | the shift keeps the array a prefix without gaps, in order, without the removed place |
| DeviceTable.PrinterManager.Remove | src/printer/printer.c:276-305 | refines removal for known and unknown ids |
| DeviceTable.PrinterManager.MarkAll | src/devredir_printer.c:1200-1208 | refines marking |
| Setup.StepKeepsOk | src/devredir_printer.c:1253-1297 | every event keeps table and lifecycle consistent: waiting iff the pipe is open iff a child is tracked, idle iff not triggered |
| Setup.RunKeepsOk | src/devredir_printer.c:1253-1297 | after any interleaving the table is compact with unique ids, and every helper but the awaited one is reaped |
| Setup.OneHelperAtATime | src/devredir_printer.c:1265-1269 | a helper is launched only with printers announced and none tracked or unreaped |
| Setup.LatePrinterIsServed | src/devredir_printer.c:458-474 | a printer announced after a finished helper makes the next pass launch another |
| Setup.AnnouncedMeans | src/devredir_printer.c:442-476 | an announcement is appended if there is memory, room among 16 and no device of that id, and rearms the setup after a finished helper; else nothing changes |
| Setup.GoneMeans | src/devredir_printer.c:482-501 | after a removal the id is not known, every other as before, and the setup goes on |
| Setup.PassMeans | src/devredir_printer.c:1165-1275 | after any run, a pass launches exactly if idle with printers and the launch succeeds, and finishes and reaps a helper exactly if one is waited for and readable, whatever it says |
| Setup.PassServes | src/devredir_printer.c:1198-1297 | after any run, a pass marks the table and takes the new listener exactly on a helper's success, and gives the listener up exactly on a failing accept |
| Setup.ListedIff | src/devredir_printer.c:337-501 | after any run a printer is in the table if and only if it was announced with memory while there was room and has not been removed since |
| Setup.ListenersOverRuns | src/devredir_printer.c:1227-1228 | after any run a listener is known exactly if the last success opened one and no accept has failed since |
| Setup.LeakIff | src/devredir_printer.c:1227-1228 | over any run a listening socket stays open and unknown if and only if some helper succeeds while the listener of an earlier success is in service |
| Setup.HotPlugLeaksListener | src/devredir_printer.c:458-474 | two printers announced apart are enough: sockets 7 and 9 are open, and 7 is lost |
| Setup.Redirector.AddPrinter | src/devredir_printer.c:442-476 | refines the abstract announcement, rearming the setup after a finished helper |
| Setup.Redirector.DeviceAnnounce | src/devredir_printer.c:337-477 | bytes to table and return code: rejected data changes nothing; accepted data, wrapped sum or not, enters the table if there is room |
| Setup.Redirector.DeviceRemove | src/devredir_printer.c:482-501 | the device leaves the table and every other stays, and its queue is removed exactly if it counts as created |
| Setup.Redirector.LaunchSetupHelper | src/devredir_printer.c:1165-1176 | a failed launch changes nothing; a launch records pipe and child and waits |
| Setup.Redirector.HandleSetupComplete | src/devredir_printer.c:1182-1246 | refines completion: pipe closed, child reaped, finished whatever the result, queues marked on success only, and after a failure the sweep of the session or, with a private cupsd, of no number |
| Setup.Redirector.CheckWaitObjs | src/devredir_printer.c:1253-1297 | one pass refines the abstract one, in the order launch, completion, accept, and says which sweep it starts and whether connections are served |

## Left out

- SendSpec.Step: completion ids are natural numbers; the model assumes that fewer than 2^32 are issued in a session.
- SendSpec.Initial: claims run from initialisation up to cleanup, which frees contexts while IRPs may be outstanding.
- Packets.ReadPacket: the bytes of the DeviceIoRequest header are written by xrdp's `devredir_insert_DeviceIoRequest`, which is not part of this model; its fields are.
- Ownership.KnownIffPresent: the engine's `Announced` stands for an announcement that entered the table; which ones do is `Setup.ListedIff`.
- SendEngine.SendCtx: a context's copy of the job data is a sequence, not a block of memory of its own.
- Delivery.Legal: a conforming client reports no more bytes written than it was sent, opens files under handles not in use, and stores nothing for a failed WRITE.
- Receiver.Serve: where bytes arrive behind the buffer, the model's run of that connection ends (`Overrun`), because what follows is not defined; `Receiver.OverrunIff` says exactly when that is.
- Announce.Parse: where a name loop reads a byte behind the data the result is `Overread`, because what it finds there is not defined; `Announce.Settles` is the exact condition for the rest.
- Setup.Redirector.DeviceAnnounce: for `Overread` data it states nothing but that the invariant holds.
- Connection.BackendConn.HandleData: an acknowledgement counts as sent when `write` is called; whether it arrives is the backend's `AckRead`.
- Backend.ProcessJob: the reads of the input are given as blocks of any size; the 64 KB input buffer and copies count of `main` are not modelled.
- Expansion.LineReplaceAllIff: values so long that they and the placeholder do not fit the buffer twice are left to `Expansion.ExpandIsReplaceAll` and `Placeholder.HaltsIff`.
- Placeholder.ExpandAll: requires that the loop ends, which `Placeholder.HaltsIff` says exactly when it does; a method that may run for ever has no result to state.
- Expansion.ExpandLine: takes the pieces `fgets` hands over, shorter than 1024 characters, and requires that its loops end; files are not modelled.
- QueueNames.CleanupStaleQueues: lines are as `fgets` hands them over; the removals it calls are recorded, not carried out.
- QueueNames.SweepIsExact: a listing line is assumed to arrive in one piece; uniqueness of sanitised names within a session is not claimed, because the code does not have it.
- QueueNames.SanitizeName: `isalnum` is that of the C locale.
- Numerals.Atoi: the overflow of `int` is not modelled; printing and reading back never meets it.
- DeviceUri.Format: the truncation of the shell command to 512 bytes is not modelled.
- Setup.Redirector.HandleSetupComplete: says whose queues are swept after a failed helper; the sweep itself is `QueueNames.CleanupStaleQueues`. `CUPS_SERVER` is left out.
- Setup.Redirector.CheckWaitObjs: says whether the connections are served; serving them is `Slots.ConnTable.CheckAll`.
- Setup.LeakIff: a new listening socket gets a descriptor that is not open, as the kernel guarantees.
- Relay.NothingInvented: each connection's backend is given by how much of its stream arrived; that a backend puts only such a part on the wire is `Backend.ProcessJob`.
- `cups_queue_created` being true of the printing system is not claimed: the code sets it for printers announced while the helper ran.
- Real sockets, `poll`, `fork`, pipes, signals and the timing of `read_exact`'s 100 ms wait are outcomes in scripts.
- XPS conversion, format detection, spool jobs, `lpadmin` and `cupsd` commands, session lookup, shell scripts, patches and packaging are left out: they are wrappers around foreign programs, or not on the path of a job.
