# EXN ground segment: a verified model

The ground segment has a daemon, `exn_gsd`, between client programs and one device, and a
simulator that stands in for the device. Clients speak a framed IPC protocol over TCP. The
daemon checks each outgoing CCSDS Space Packet, writes it to a serial port or TCP link, cuts
what comes back into packets again, and keeps every client informed of the link and of traffic.

This project models that machinery in Dafny and proves what holds in every run of it.

| file | what it models |
|---|---|
| `Bytes.dfy` | octets, concatenation, big-endian integers |
| `Incremental.dfy` | a scanner fed in pieces, and why the pieces do not matter |
| `SpacePacket.dfy` | the primary header, the declared size and the `decode_meta` gate |
| `Framer.dfy` | `CcsdsFramer`: accumulate, resynchronise, emit |
| `IpcCodec.dfy`, `IpcServer.dfy` | IPC frames, packet notifications, sessions, the server |
| `LinkModel.dfy`, `LinkHistory.dfy`, `LinkProtocol.dfy`, `SerialLink.dfy` | the device link: steps, ledger of written buffers, whole-run properties, and the class |
| `StateStore.dfy` | counters, recent packets, last-seen times |
| `Router.dfy`, `RouterInvariant.dfy`, `App.dfy` | the daemon as a state machine, its invariant, and the objects of `App::run` |
| `Outcomes.dfy` | what becomes of each command, callback and completion, and who hears what |
| `Reception.dfy` | from the octets the device sends to what is recorded and every client is told |
| `Delivery.dfy` | from a client's octets to the packets at the device |
| `Ring.dfy`, `RingQueue.dfy` | the lock-free ring queue, per memory access and as a class |
| `Dispatch.dfy`, `Pipeline.dfy` | the simulator's dispatch task, and its three threads interleaved |
| `CucTime.dfy` | the telemetry time stamp |

How the pieces are put together:

- The code that changes objects in place (`SerialLink`, `CcsdsFramer`, `StateStore`, `IpcSession`,
  `IpcServer`, `App`, `RingQueue`, the loop body of `tc_dispatch_task`) is modelled by classes and
  methods. Each method is proved equal to a step of a state machine over values; the main results
  are about runs of those machines.
- The I/O library is the environment. A link holds a bag of outstanding operations (resolve, connect,
  read, write), each tagged with the generation that issued it. The environment may complete any of
  them at any time, in any order, with success or failure. Posted writes run in the order they were
  posted. The daemon runs one thread, so a handler is one step.
- Callbacks a link method makes are returned as a list and handed to `App` in that order. The proofs
  show that no callback reaches back into the link (`RouterInvariant.LinkOfStep`), so this is the
  same as calling them on the spot.
- In the ring queue each load, slot access and store is a step of its own, and the load of the other
  side's index may return any value published since the last one seen.

Main results:

- **Exact delivery.** From any reachable daemon with an open link, for any number of clients and any
  chunking: until somebody ends the session, the device gets exactly what was in line and what clients
  sent since, in order, and each client's share is exactly what its octets say. All writes can always
  complete. And in *every* run, calm or not, what the device gets in one session is whole packets in
  order plus at most the beginning of the next (`Delivery`).
- **Exact reception.** In every run the daemon takes in exactly the octets that the device's successful
  reads brought, records exactly the packets they spell, and tells every client that stays of exactly
  these, in order (`Reception`).
- **Link protocol.** At most one connection attempt, one read and one write of the current generation
  are outstanding, the write carrying the front of the queue; every call to `write_bytes` is accounted
  for; stale completions cannot be observed (`LinkModel`, `LinkHistory`, `LinkProtocol`).
- **One view.** In every reachable daemon the bookkeeping says Connected exactly when the link is
  open, the last link report in every client's log is the present state, and every received octet is
  in a packet, counted as a framing error, or still held (`RouterInvariant`). For each command, callback
  and completion it is stated what the link becomes and what exactly every client is sent (`Outcomes`).
- **Framing.** Chunking never matters, noise costs exactly its own octets, a packet appears with its
  last octet (`Framer`).
- **Pipeline.** Under every interleaving and every stale load the ring queues are FIFO queues, the
  simulator's output is what could be built of the telemetry its telecommands demand, report by report
  and in order, and it can always be drained (`Ring`, `Dispatch`, `Pipeline`).

Where the code does less than one might expect, the exact limit is proved:

- An I/O error closes the link but keeps the generation. The link is silent from then on if and only if
  the error ended a connection attempt, or a read while nothing was queued
  (`LinkProtocol.FailureSilencesIff`); octets can still be handed up if and only if what failed was a
  write (`OctetsAfterFailureIff`). Stopping the link always silences it (`StopSilences`).
- The posted half of `write_bytes` looks at the link as it is when it runs. A session therefore gets
  exactly the payloads that are posted when it opens, and those handed over later; when a serial link is
  stopped and started again, a payload of the old session crosses over if and only if its write was
  still posted at the stop (`PostedWriteCrossesReconnect`).
- A frame that has arrived as a whole is read back if and only if its payload is shorter than 2^32 - 2
  octets (`IpcCodec.RoundTripExactly`). It can also arrive in pieces if and only if the payload is
  shorter than 2^32 - 6 octets, since beyond that the size test wraps (`IpcCodec.SafeInPiecesIff`). The text
  of a packet notification survives if and only if it is shorter than 65536 octets
  (`IpcCodec.MetaRoundTrip`).
- The simulator masks its sequence counter only at the end of a telecommand. The counts of a round stay
  within 14 bits if and only if the round ends within them (`Dispatch.OutOfRangeIff`); with a packet
  builder that refuses larger counts, exactly the replies that fit are queued
  (`Dispatch.OnlyFittingCountsSurvive`).
- The size test `total < 7 || total > 65542` in the framer can never fire (`Framer.ResidueBound`).

## Model

| member | source | states |
|---|---|---|
| `Incremental.ParseSplit` | shared/src/framer.cpp:7-36 | For any scanner that never takes back a decision, reading a stream in two pieces with the residue kept in between gives the items, drop count and residue of reading it whole. |
| `Incremental.ChunkingInvariance` | shared/src/framer.cpp:7-36 | The same for any number of pieces: feeding them one by one equals one parse of the concatenation. |
| `Incremental.ItemsGrow` | shared/src/framer.cpp:31-34 | What a prefix of a stream produced is a prefix of what the whole produces; drop counts never fall. |
| `Incremental.RestWaits` | shared/src/framer.cpp:12-29 | When a parse ends, its residue allows no further action. |
| `SpacePacket.HeaderRoundTrip` | shared/src/ccsds.cpp:46-54 | The decoded primary header fields are within their bit widths, and laying them out by section 4.1.3 of CCSDS 133.0-B-2 gives the six octets back. |
| `SpacePacket.DeclaredByHeader` | shared/src/framer.cpp:14-22 | The declared size exists if and only if the six header octets are there with version 0, and then is 7 more than the length field; with HeaderRoundTrip this fixes every octet (section 4.1.3 of CCSDS 133.0-B-2). |
| `SpacePacket.GateIsStructural` | shared/src/ccsds.cpp:203-218 | The gate lets exactly the whole packets of the framer through. |
| `SpacePacket.GateByHeader` | shared/src/ccsds.cpp:203-256 | The gate succeeds if and only if the packet's own header has version 0 and its length field fits its size; it then returns that very header, with service and subservice zero unless a secondary header is flagged; otherwise it says which of the two tests failed. |
| `Framer.ScanLawful` | shared/src/framer.cpp:12-32 | Every decision of the framing loop consumes octets that are there, and octets arriving later never change it. |
| `Framer.CcsdsFramer.PushBytes` | shared/src/framer.cpp:7-36 | One push emits exactly the packets, adds exactly the error count and leaves exactly the residue of a recursive parse of the old accumulator followed by the new octets; the loop terminates. |
| `Framer.ChunksAreOneStream` | daemon/src/app.cpp:143-145 | From any earlier state, pushes in any partition, over any number of link sessions, equal one parse of everything seen. |
| `Framer.PartOfStream` | shared/src/framer.cpp:7-36 | A fresh framer that has read part of a stream has a prefix of its packets and no more errors than the whole gives; having read all of it, it has exactly the whole parse. |
| `Framer.ResidueBound` | shared/src/framer.cpp:12-29 | Between pushes the accumulator is shorter than a header, or is a version-0 header with an incomplete body; it never exceeds 65541 octets; every declared size is within 7..65542, so the explicit size check is dead. |
| `Framer.Accounting` | shared/src/framer.cpp:14-34 | Octets in == octets in packets + framing errors + octets held, and every emitted packet has exactly its declared length. |
| `Framer.EmittedOnLastOctet` | shared/src/framer.cpp:29-34 | Packet i has been emitted after k octets if and only if its last octet is among them. |
| `Framer.SkipNoise` | shared/src/framer.cpp:15-20 | Octets that cannot start a version-0 header are dropped one by one, one error each, and what follows them is parsed as if they were not there. |
| `Framer.Recovery` | shared/src/framer.cpp:11-35 | A stream of noise and whole packets in turn gives exactly those packets, one error per noise octet given up; at most five trailing octets stay held. |
| `Framer.RecoveryUnderAnyChunking` | shared/src/framer.cpp:7-36 | The same at a fresh framer for every partition into pushes. |
| `Framer.ExactPackets` | shared/src/framer.cpp:29-34 | Back-to-back packets and an unfinished tail give exactly the packets, no error, and the tail as residue. |
| `Framer.UnfinishedWaits` | shared/src/framer.cpp:12-29 | No proper prefix of a whole packet makes the framer act. |
| `IpcCodec.DecodeParts` | shared/src/protocol.cpp:47-58 | What any length field, type and following octets decode to, with the 32-bit wrap of 4 + length: octets that are all there give the type and exactly length - 2 octets; if some are missing the decoder waits, or, when the wrapped sum passes the size test, runs past them. |
| `IpcCodec.FrameLayout` | shared/src/protocol.cpp:37-45 | An encoded frame octet by octet: 2 + payload size in four octets, the type in two, most significant first, then the payload. |
| `IpcCodec.RoundTripExactly` | shared/src/protocol.cpp:37-58 | Decoding an encoded frame that is there as a whole, whatever follows it, gives the frame back and consumes exactly its octets, if and only if payload + 2 < 2^32. |
| `IpcCodec.SafeInPiecesIff` | shared/src/protocol.cpp:47-58 | Every proper prefix of an encoded frame makes the decoder wait and the whole gives the frame back, if and only if payload + 6 < 2^32. |
| `IpcCodec.FramesStep` | daemon/src/ipc_server.cpp:100-108 | The drain loop takes frames off the front; every success removes at least six octets, so the loop ends. |
| `IpcCodec.HandledAppend` | daemon/src/ipc_server.cpp:103-107 | Selecting Command, Query and PacketSend frames commutes with concatenation: the handler sees the selection of the whole stream. |
| `IpcCodec.HandledKinds` | shared/include/exn/shared/protocol.hpp:8-23 | A frame is handed over exactly if its type is 10, 11 or 13. |
| `IpcCodec.UnfinishedWaits` | shared/src/protocol.cpp:48-51 | No proper prefix of an encoded frame decodes. |
| `IpcCodec.DecodesExactly` | shared/src/protocol.cpp:37-58 | Concatenated encoded frames and something undecodable decode to exactly those frames and leave exactly the rest. |
| `IpcCodec.DecodesUnderAnyChunking` | daemon/src/ipc_server.cpp:98-108 | A fresh session that reads concatenated frames and the beginning of another, cut anywhere, gets exactly the frames and keeps exactly the beginning. |
| `IpcCodec.HandedOverIsHandled` | daemon/src/ipc_server.cpp:98-108 | From any buffer left by earlier reads, reads in any pieces hand over the selection of the whole stream. |
| `IpcCodec.HandsOverExactly` | daemon/src/ipc_server.cpp:98-108 | A fresh session that reads concatenated frames and the beginning of another, cut anywhere, hands over exactly the Command, Query and PacketSend frames among them, in order. |
| `IpcCodec.MetaLayout` | shared/src/protocol.cpp:76-93 | A packet notification octet by octet. |
| `IpcCodec.MetaRoundTrip` | shared/src/protocol.cpp:76-118 | All fields of a packet notification survive packing and unpacking; the text is cut to its length modulo 65536 and so survives exactly when it is shorter than that. |
| `Ipc.IpcSession.TryDecode` | shared/src/protocol.cpp:47-58 | On success the frame at the front is returned and exactly its octets are removed; otherwise nothing changes. The one case excluded is a size test passed by 32-bit wrap while octets are missing, where the program reads past its buffer. |
| `Ipc.IpcSession.OnRead` | daemon/src/ipc_server.cpp:98-108 | One read hands over exactly the handled frames of the whole parse of old buffer and new octets, in order, and leaves exactly its residue; the same one case is excluded. |
| `Ipc.IpcServer.Accept` | daemon/src/ipc_server.cpp:20-34 | A new session is added to the live ones and greeted before anything else. |
| `Ipc.IpcServer.Broadcast` | daemon/src/ipc_server.cpp:36-46 | Every live session is told once, and afterwards exactly the live sessions are listed, although the loop erases entries as it goes. |
| `LinkModel.LifecycleStart` | daemon/src/serial_link.cpp:28-91 | Starting keeps the protocol invariant on every branch: already open or connecting, TCP, no port, failed open, failed baud rate, success. |
| `LinkModel.LifecycleStop` | daemon/src/serial_link.cpp:93-112 | Stopping keeps the protocol invariant and leaves no operation of the new generation. |
| `LinkModel.LifecycleRunPosted` | daemon/src/serial_link.cpp:118-123 | Running a posted write keeps the invariant: on an open link a write is outstanding exactly when something is queued, and it is the only one. |
| `LinkModel.ConnectIsAlone` | daemon/src/serial_link.cpp:37-60 | While the link is connecting, its resolve or connect is the only outstanding operation of its generation. |
| `LinkModel.LifecycleFail` | daemon/src/serial_link.cpp:178-200 | Closing after a failed read or write keeps the invariant although the generation stays. |
| `LinkModel.LifecycleComplete` | daemon/src/serial_link.cpp:37-60 | Any completion of any outstanding operation, of any generation, with success or failure, keeps the invariant. |
| `LinkModel.LifecycleStep` | daemon/include/exn/daemon/serial_link.hpp:27 | Every step keeps: no operation of a later generation; connecting iff exactly one current resolve or connect; open implies one current read, and exactly one current write iff the queue is not empty, of its front; closed implies an empty queue. |
| `LinkModel.LifecycleAlways` | daemon/src/serial_link.cpp:28-200 | That invariant holds after every run, with completions in any order. |
| `LinkHistory.LedgerExtend` | daemon/src/serial_link.cpp:117-118 | A new call extends the ledger of buffers at its end. |
| `LinkHistory.LedgerLose` | daemon/src/serial_link.cpp:183-185 | Discarding queued buffers moves exactly those from the ledger to the lost ones; the order of the others stays. |
| `LinkHistory.HistoryWriteBytes` | daemon/src/serial_link.cpp:114-124 | Handing over a payload keeps the ledger, an empty one is ignored. |
| `LinkHistory.HistoryRunPosted` | daemon/src/serial_link.cpp:118-123 | Running a posted write keeps the ledger: queued in call order on an open link, lost on a closed one. |
| `LinkHistory.HistoryTransfer` | daemon/src/serial_link.cpp:129-145 | Octets the device takes of the front buffer keep wire == completed payloads + the part of the front already taken. |
| `LinkHistory.HistoryComplete` | daemon/src/serial_link.cpp:130-139 | A completion keeps: accepted == completed + queue, and wire == completed payloads + the part of the front already taken. |
| `LinkHistory.HistoryStop` | daemon/src/serial_link.cpp:93-112 | Stopping keeps the ledger: the queue joins the lost calls, and the session's wire stays its completed payloads and possibly part of the next. |
| `LinkHistory.HistoryAlways` | daemon/src/serial_link.cpp:28-200 | After every run: the protocol invariant; every call is completed, queued, posted or lost, in order and once; every session's wire is its completed payloads and possibly part of the next; on an open link, accepted == completed + queue. |
| `LinkProtocol.InvariantOfEveryRun` | daemon/src/serial_link.cpp:28-200 | All of that holds after every run of a newly constructed link. |
| `LinkProtocol.EveryCallAccounted` | daemon/src/serial_link.cpp:114-146 | Number of calls == completed + queued + still posted + dropped, and the completed payloads, across all sessions, are an order-preserving subsequence of the calls. |
| `LinkProtocol.TwinStep` | daemon/src/serial_link.cpp:126-137 | A link that has extra stale operations outstanding does and reports exactly what the one without them does. |
| `LinkProtocol.StaleCompletionsAreInvisible` | daemon/src/serial_link.cpp:29-59 | Every run reports exactly what the run without its stale completions reports and ends in the same state but for leftover operations. |
| `LinkProtocol.StopSilences` | daemon/src/serial_link.cpp:93-112 | After a stop nothing is ever reported and the link stays closed, until the next start or stop. |
| `LinkProtocol.SilentIff` | daemon/src/serial_link.cpp:178-200 | A closed link is silent in every continuation without start or stop if and only if no operation of its generation is outstanding (what a caller can know of that: next row). |
| `LinkProtocol.FailureSilencesIff` | daemon/src/serial_link.cpp:178-200 | When an operation fails on an open or connecting link, nothing is reported in any continuation without start or stop, if and only if the link was connecting, or the operation was the read and nothing was queued. |
| `LinkProtocol.OctetsAfterFailureIff` | daemon/src/serial_link.cpp:151-159 | After a failure on an open link some continuation without start or stop still hands up given octets, if and only if the failed operation was a write. |
| `LinkProtocol.CalmRun` | daemon/src/serial_link.cpp:114-139 | In every run without a stop and without failures of the present generation, an open link stays in its session, loses nothing in line, and every call joins the end of the line. |
| `LinkProtocol.SessionGetsWhatIsPosted` | daemon/src/serial_link.cpp:117-123 | The same for every way a session opens, serial or TCP: it gets exactly what is posted at that moment, and what is handed over later. |
| `LinkProtocol.PostedWriteCrossesReconnect` | daemon/src/serial_link.cpp:93-124 | When an open serial link is stopped and started again, then in every run that does not end the new session its line is exactly the payloads posted at the stop and those handed over later, in order; an earlier payload is in it if and only if it was still posted, none is if and only if none was posted, and what was queued is lost. |
| `DeviceLink.SerialLink.Start` | daemon/src/serial_link.cpp:28-91 | The new state and the callbacks are those of the machine's start step, on every branch. |
| `DeviceLink.SerialLink.Stop` | daemon/src/serial_link.cpp:93-112 | The generation moves on, the link is closed, its queue is discarded, and that is reported even if it was closed already. |
| `DeviceLink.SerialLink.WriteBytes` | daemon/src/serial_link.cpp:114-124 | An empty payload is ignored; any other is posted as a new buffer behind those posted before. |
| `DeviceLink.SerialLink.RunPosted` | daemon/src/serial_link.cpp:118-123 | The posted buffer is queued if the link is open now, and written at once exactly if nothing was queued; else it is dropped. |
| `DeviceLink.SerialLink.DoWrite` | daemon/src/serial_link.cpp:126-146 | A write of the front buffer is issued exactly if the generation is current, the link open and the queue not empty. |
| `DeviceLink.SerialLink.DoRead` | daemon/src/serial_link.cpp:148-176 | A read is issued exactly if the generation is current and the link open. |
| `DeviceLink.SerialLink.HandleIoError` | daemon/src/serial_link.cpp:178-200 | For the current generation the link closes, loses its queue and reports the problem, keeping the generation; otherwise nothing happens. |
| `DeviceLink.SerialLink.OnResolved` | daemon/src/serial_link.cpp:37-46 | A stale resolution is ignored, a failed one closes the link, a good one issues a connect of the same generation. |
| `DeviceLink.SerialLink.OnConnected` | daemon/src/serial_link.cpp:46-59 | A stale connection is ignored, a failed one closes the link, a good one opens it. |
| `DeviceLink.SerialLink.OnRead` | daemon/src/serial_link.cpp:151-160 | A stale read is ignored, a failed one closes the link, a good one hands up its octets if there are any (all of them: Reception.ReadTells) and reads on if the link is open. |
| `DeviceLink.SerialLink.OnWritten` | daemon/src/serial_link.cpp:130-139 | A stale write is ignored, a failed one closes the link, a good one takes the front off the queue and issues the next. |
| `History.StateStore.OnPacket` | daemon/src/state.cpp:13-21 | The full history grows by the record; the packet and octet counters, the bounded ring and the last-seen times remain what that history says they should be. |
| `History.StateStore.LastPackets` | daemon/src/state.cpp:44-48 | The answer is the last min(n, cap) records of the full history, however many were evicted. |
| `History.LastSnoc` | daemon/src/state.cpp:19-20 | Evicting step by step keeps the same records as cutting the whole history. |
| `History.SeenSnoc` | daemon/src/state.cpp:17 | The map has exactly the services of the history, each with the time of its latest record, evicted or not. |
| `RouterInvariant.BroadcastOther` | daemon/src/app.cpp:130-139 | Telling everybody something that is not a link report leaves every view of the link as it was. |
| `RouterInvariant.BroadcastReport` | daemon/src/app.cpp:97-113 | Publishing the link state makes it the last link report in every live session's log. |
| `RouterInvariant.AcceptedOk` | daemon/src/app.cpp:101-103 | A new session's log is Hello, then the present link state, and the daemon's invariant holds with it. |
| `RouterInvariant.PacketsOk` | daemon/src/app.cpp:115-141 | Emitted packets are recorded in order, none counts as a decode error, the link and the framer are untouched, and every client's view of the link still agrees (what clients are sent: Reception.PacketsTell). |
| `RouterInvariant.ReceivedOk` | daemon/src/app.cpp:143-145 | Octets handed up keep the reception invariant: the records, framing errors and residue are the parse of everything ever received. |
| `RouterInvariant.UpcallMatches` | daemon/src/serial_link.cpp:55-57 | Each step of the link makes at most one callback, and it tells what the link then is. |
| `RouterInvariant.UpcallNames` | daemon/src/serial_link.cpp:86-89 | A link that opens names its endpoint. |
| `RouterInvariant.LinkOfStep` | daemon/src/app.cpp:105-113 | Callbacks never change the link that makes them. |
| `RouterInvariant.LinkStepOk` | daemon/src/app.cpp:105-145 | A step of the link with its callbacks keeps the daemon's whole invariant. |
| `RouterInvariant.PacketSendOk` | daemon/src/app.cpp:148-165 | So does a client's packet, and only whole packets reach the link. |
| `RouterInvariant.CommandOk` | daemon/src/app.cpp:167-201 | So does every command. |
| `RouterInvariant.DaemonAlwaysOk` | daemon/src/app.cpp:79-215 | After every run, whatever clients send and however the device behaves: Connected iff open, and then with the endpoint as detail; every session greeted, then told the link state, its last link report the present one; reception and transmission counters exact; no decode error; the link's ledger intact. |
| `RouterInvariant.ReceptionAccounts` | daemon/src/app.cpp:115-145 | Octets handed up == octets in recorded packets + framing errors + residue; every record is a whole packet; the residue is bounded. |
| `Outcomes.RoutedIff` | daemon/src/app.cpp:147-165 | A packet is posted to the link, counted, and announced to everybody with its decoded fields, if and only if it is one whole packet and the link is open; otherwise nothing changes anywhere but one error to its sender, which names the decoding problem or the closed link. |
| `Outcomes.ConnectOutcome` | daemon/src/app.cpp:174-178 | CONNECT with an open link tells only the asker the present state; on a connecting link it does nothing; on a closed one, one generation later the link is open with only its read, resolving with only its resolve, or closed with an error, as endpoint and answer decide, and every client is sent exactly that report. |
| `Outcomes.DisconnectCloses` | daemon/src/app.cpp:179-182 | DISCONNECT leaves the link closed, its queue empty and nothing outstanding that could be heard; every client is sent exactly one link report, which says so. |
| `Outcomes.ReconnectOutcome` | daemon/src/app.cpp:183-187 | RECONNECT from any state, with any device and any outcome: two generations later the link is open in a fresh session with only its read outstanding, connecting with only its resolve, or closed with nothing; every client is sent exactly the report of the stop and the report of what came of the start; posted payloads stay. |
| `Outcomes.QueryOutcome` | daemon/src/app.cpp:167-201 | PING, STATUS, STATS, malformed and unknown commands send one answer to the asker and change nothing else; the statistics are the numbers of packets and octets ever received and ever handed to the link, and no decode error. |
| `Outcomes.CommandsByWord` | daemon/src/app.cpp:172-201 | Each command is recognised if and only if the text spells its word, in letters of either case. |
| `Outcomes.PackedCommand` | shared/src/protocol.cpp:60-74 | A command string of any length that fits its field is unpacked whole and compared in upper case. |
| `Outcomes.UnpackedExactly` | shared/src/protocol.cpp:68-74 | A string is unpacked exactly if all its octets are there, and refused if some are missing or it has no size field, except where the size test wraps in 32 bits. |
| `Outcomes.FramesAreServed` | daemon/src/ipc_server.cpp:98-108 | A read serves exactly the frames it completes, in order (type 13 routed, 10 and 11 run as commands, others skipped), and keeps the rest. |
| `Outcomes.CommandByFrame` | daemon/src/app.cpp:167-172 | A client that sends an encoded Command or Query frame with a packed string has exactly that command run, in upper case. |
| `Outcomes.BootOutcome` | daemon/src/app.cpp:206-212 | The daemon starts disconnected and opens the device exactly if one is configured, with the outcome of a start. |
| `Outcomes.StaleOutcome` | daemon/src/serial_link.cpp:130-131 | A completion of an earlier generation changes nothing in the daemon but that it is no longer outstanding. |
| `Outcomes.FailureOutcome` | daemon/src/serial_link.cpp:178-200 | A failed completion closes the link, keeps its generation and the other operations, and every client is sent exactly one error report with the cause that belongs to the operation and the reason. |
| `Outcomes.ConnectionOutcome` | daemon/src/serial_link.cpp:37-60 | A successful resolve is followed by a connect, unheard; a successful connect opens a fresh session with one read, and every client is sent exactly one report with the endpoint. |
| `Outcomes.ClosedDropOutcome` | daemon/src/serial_link.cpp:118-119 | A posted write that runs on a closed link loses its payload, and nobody hears of it. |
| `Application.App.SendPacket` | daemon/src/app.cpp:148-165 | Gate first, then the link's state, then write, count and announce, as the machine's step says. |
| `Application.App.RunCommand` | daemon/src/app.cpp:174-201 | Each command does what the machine's step does; what that is: Outcomes.ConnectOutcome, DisconnectCloses, ReconnectOutcome and QueryOutcome. |
| `Application.App.HandleFrame` | daemon/src/app.cpp:147-202 | PacketSend is routed, Command and Query are run. |
| `Application.App.OnAccept` | daemon/src/app.cpp:101-103 | The new client's log is Hello, then the present link state; nobody else notices. |
| `Application.App.OnClientRead` | daemon/src/ipc_server.cpp:98-108 | One read of a client is one input of the daemon's machine: its frames are decoded first, then handled in order. |
| `Application.App.OnDeviceRead` | daemon/src/serial_link.cpp:151-160 | A finished read, down to the packets and announcements it causes, is one input of the daemon's machine. |
| `Application.App.Begin` | daemon/src/app.cpp:204-212 | Before the event loop the state is published and the device opened if one is configured. |
| `Delivery.DeviceSeesWholePackets` | daemon/src/serial_link.cpp:114-146 | The octets of one link session parse without error into a prefix of the packets accepted in it, including all completed ones. |
| `Delivery.DeviceNeverLosesFraming` | shared/src/framer.cpp:7-36 | In every reachable daemon, for every past or present session, a framer that started with it and has read any part of it, in any pieces, has seen no error and only accepted packets, in order. |
| `Delivery.InboxesAlwaysWait` | daemon/src/ipc_server.cpp:98-110 | In every run no session keeps a frame it could hand over. |
| `Delivery.SentIsArrived` | daemon/src/ipc_server.cpp:98-108 | In every run, whatever other clients and the device do: the packets a client asks to be sent are those its octets spell, in order, however they are cut, and its unfinished rest is kept. |
| `Delivery.RequestsJoin` | daemon/src/app.cpp:147-202 | On an open link, requests of any kind that do not cycle it put exactly their whole packets in line, in order, and leave the session as it is. |
| `Delivery.KeepsUp` | daemon/src/app.cpp:147-165 | Until somebody ends the session the line is what it was, followed by everything any client sent since, in the order the daemon heard of it. |
| `Delivery.ExactDelivery` | daemon/src/serial_link.cpp:114-146 | From any reachable daemon with an open link, for any clients: as long as nobody cycles the link and nothing of its generation fails, the device has whole packets of that list, in order, and no error; when all writes completed it has exactly the list and no residue. |
| `Delivery.ClientShare` | shared/src/protocol.cpp:37-58 | Frames a client writes, cut in any way, contribute a prefix of their packets while they arrive, and exactly their packets once they have arrived. |
| `Delivery.ExactDeliveryToAnyFramer` | shared/src/framer.cpp:7-36 | The same at a fresh framer reading the session's octets in any pieces. |
| `Delivery.EndToEnd` | daemon/src/app.cpp:143-165 | A session that just opened, one client's frames, no packets of others (but any other frames that do not cycle the link): once all octets arrived and all writes completed, a framer at the device has exactly the frames' packets, in order, no error, and nothing left over, for every chunking at both ends. |
| `Delivery.CanFinish` | daemon/src/serial_link.cpp:118-139 | From every reachable daemon with an open link there is a run in which all writes complete, and then the device has exactly what was in line. |
| `Delivery.ReadyToDeliver` | daemon/src/app.cpp:204-214 | A daemon with a serial or TCP device that answers gets to an open session, with a client connected and nothing unread from it. |
| `Reception.AnnouncedHeader` | shared/src/ccsds.cpp:203-228 | A notification of a received packet carries that packet's own first six octets, field by field. |
| `Reception.PacketsTell` | daemon/src/app.cpp:115-141 | For every emitted packet, in order, one record with its octets, direction, identifiers and time is stored, and every client is sent exactly one notification with its header; no inbox and nothing else changes. |
| `Reception.BadPacketTells` | daemon/src/app.cpp:127-137 | Anything that does not decode is recorded with the complaint, counted, and reported to everybody. |
| `Reception.ReceivedTells` | daemon/src/app.cpp:143-145 | Octets handed up by the link go through the framer, and exactly the packets they complete are recorded and announced to everybody. |
| `Reception.ReadTells` | daemon/src/serial_link.cpp:151-160 | A successful read of the present generation hands up all its octets, and only those. |
| `Reception.NoOthersRead` | daemon/src/serial_link.cpp:151-159 | No other step of the link hands octets up. |
| `Reception.TakeTakes` | daemon/src/app.cpp:79-215 | Every input of the daemon takes in exactly the octets it reads, and everybody who stays hears of exactly the packets they complete. |
| `Reception.RunTakes` | daemon/src/serial_link.cpp:148-176 | In every run, from any reachable state, the octets taken in are exactly those of the successful reads, in order; records, framing errors and residue are their parse after what was held. |
| `Reception.RunTells` | daemon/src/app.cpp:139 | In every run every client that stays hears of exactly the packets which the octets read complete, in order, whatever else it is told in between. |
| `Reception.ExactReception` | shared/src/framer.cpp:7-36 | From the start of the daemon, in every run: records, framing errors and residue are the parse of all octets ever read from the device, over all its sessions. |
| `Ring.SlotAhead` | sim/src/main.cpp:29-31 | Index arithmetic modulo the size, up to one lap ahead. |
| `Ring.SlotsDiffer` | sim/src/main.cpp:29-38 | Two counts at most one lap apart share a slot if and only if they are equal or a whole lap apart. |
| `Ring.SeeTailMeaning` | sim/src/main.cpp:28-29 | A push is refused exactly when the queue is full by the tail actually seen, stale or not. |
| `Ring.SeeHeadMeaning` | sim/src/main.cpp:37-38 | A pop is refused exactly when the queue is empty by the head actually seen, stale or not. |
| `Ring.DoOk` | sim/src/main.cpp:26-42 | Every single memory access of either side keeps the queue invariant. |
| `Ring.NeverTheSameSlot` | sim/src/main.cpp:30-39 | The two sides are never at the same slot. |
| `Ring.QueueAlways` | sim/src/main.cpp:23-56 | Under every interleaving: popped followed by contents == pushed, at most n - 1 items are held, and item i is in its slot. |
| `Queues.PushBurstMeaning` | sim/src/main.cpp:26-33 | An undisturbed push fails exactly on a full queue and else appends, changing one slot and the head. |
| `Queues.PopBurstMeaning` | sim/src/main.cpp:35-42 | An undisturbed pop fails exactly on an empty queue and else takes the oldest item, changing the tail only. |
| `Queues.RingQueue.TryPush` | sim/src/main.cpp:26-33 | The method is the burst of atomic steps; it says yes exactly when there is room, and then the item is last. |
| `Queues.RingQueue.TryPop` | sim/src/main.cpp:35-42 | The method is the burst of atomic steps; it gives the oldest item, or nothing exactly when there is none. |
| `Dispatch.DispatchOne` | sim/src/main.cpp:269-322 | One round of the loop queues exactly the telemetry of the telecommand's plan (in numbers: Dispatch.RoundIsDemanded), in order, and leaves the counter advanced by the plan's length modulo 2^14. |
| `Dispatch.RoundIsDemanded` | sim/src/main.cpp:276-318 | The builds of a round are, in order and with consecutive counts, exactly the reports the telecommand demands: TM[1,1] with the request ID (TM[1,2] with code 1 if unsupported) for flag 8, TM[1,3] for flag 4, TM[3,25] for TC[3,27] or TM[3,129] beginning with the request ID for TC[3,128], TM[1,7] for flag 1, all to the telecommand's source. |
| `Dispatch.RunIsDemanded` | sim/src/main.cpp:269-322 | The builds of a whole run are exactly what its telecommands demand, in order. |
| `Dispatch.AnswersAreBuilt` | sim/src/main.cpp:282-317 | The telemetry of a run is what could be built of its attempts, in order. |
| `Dispatch.BuiltAll` | sim/src/main.cpp:284-317 | If everything can be built, it is one packet for each attempt, in order. |
| `Dispatch.PlanShape` | sim/src/main.cpp:276-318 | Each report is in the plan exactly when it is due (acceptance, start, completion when their flag is set, the last two only for supported requests; one housekeeping report for each supported request), once, in protocol order; an unsupported request gets at most one answer. |
| `Dispatch.AttemptAt` | sim/src/main.cpp:282-316 | The i-th build of a round uses the i-th count after the round's first. |
| `Dispatch.VerificationNamesRequest` | sim/src/main.cpp:114-130 | Every verification payload begins with its telecommand's request ID and goes to its source; the only answer to an unsupported request is an acceptance failure with code 1. |
| `Dispatch.AnswersSnoc` | sim/src/main.cpp:272-275 | Answering one more telecommand appends its answers, from the counter the others left. |
| `Dispatch.SequenceOfRun` | sim/src/main.cpp:269-322 | The j-th build of a whole run uses a raw count congruent to first + j modulo 2^14 and never above 0x4002. |
| `Dispatch.OutOfRangeIff` | sim/src/main.cpp:293-320 | All counts of a round are within 14 bits if and only if the round's start and length together are at most 2^14; a round that starts below 0x3FFD never leaves them. |
| `Dispatch.OnlyFittingCountsSurvive` | sim/src/main.cpp:284-317 | With any builder that refuses counts beyond 14 bits, a round queues exactly what it would queue of the replies whose counts fit. |
| `Dispatch.LostAtWrapAround` | sim/src/main.cpp:284-317 | If the builder refuses exactly the counts that do not fit 14 bits, a round queues its whole plan if and only if it ends within the range. |
| `Pipeline.MakeOk` | sim/src/main.cpp:269-327 | Every move of every thread keeps both queues' invariants and: queued telemetry + telemetry to come == the answers to the telecommands taken, with the counter where they leave it. |
| `Pipeline.PlayOk` | sim/src/main.cpp:269-327 | That holds after every interleaving, and no telecommand is lost, repeated or reordered. |
| `Pipeline.PlanStep` | sim/src/main.cpp:276-318 | Walking the loop body stage by stage performs the plan reply by reply. |
| `Pipeline.Deterministic` | sim/src/main.cpp:71-72 | Under every interleaving and however stale the loads, what the transmit task popped is a prefix of the answers to the telecommands in arrival order. |
| `Pipeline.OutputIsDemanded` | sim/src/main.cpp:269-327 | Under every interleaving the transmit task has popped a prefix of what could be built of the demanded reports, whose counts go on from 100 modulo 2^14. |
| `Pipeline.WorkFalls` | sim/src/main.cpp:44-50 | Failed tries leave the remaining work as it is; every other step reduces it. |
| `Pipeline.BoundedSteps` | sim/src/main.cpp:269-327 | A run has at most as many non-spinning steps as there was work at its beginning. |
| `Pipeline.NeverStuck` | sim/src/main.cpp:44-50 | In every reachable state with work left some thread gets work done within two moves. |
| `Pipeline.MaximalRunsDrain` | sim/src/main.cpp:269-327 | Under every interleaving from the start: no thread can get on if and only if no work is left, and then both queues are empty and the transmit task has popped exactly all answers. |
| `Pipeline.DrainedOutput` | sim/src/main.cpp:324-327 | When no work is left both queues are empty and the transmit task has popped exactly all answers. |
| `Pipeline.CanAlwaysDrain` | sim/src/main.cpp:269-327 | From every reachable state there is a run to that end. |
| `CucTime.StampIsExact` | shared/src/ccsds.cpp:68-76 | Coarse and fine together are the exact quotient floor(ns * 65536 / 10^9), fine is below 65536, and no intermediate leaves 64 bits. |
| `CucTime.StampError` | shared/src/ccsds.cpp:72-74 | The stamp is never ahead of true time and less than one tick behind it. |
| `CucTime.StampOrder` | shared/src/ccsds.cpp:72-74 | Stamps are monotone, and instants at least 15259 ns apart have different ones. |
| `CucTime.StampsMayCoincide` | shared/src/ccsds.cpp:72-74 | Instants 15258 ns apart can share a stamp, so that bound is the least. |
| `CucTime.StampFits` | shared/src/ccsds.cpp:59-63 | The stamp fits its 4 + 2 octets (section 3.2 of CCSDS 301.0-B-4) if and only if ns < 2^32 * 10^9. |

Constructors, plain setters and the handlers not listed are proved equal to their steps in the same way.

## Left out

- Ipc.IpcSession.TryDecode: does not say what happens when the size test passes because 4 + length wraps in 32 bits although octets are missing; the program then reads past its buffer, which has no defined behaviour. OnRead and the daemon's inputs exclude that case and its like in `unpack_string`, and nothing else.
- Ipc.IpcSession.OnRead: a failed read, which ends the session, is the client leaving (`App.OnClientGone`).
- Ipc.IpcSession.Send: appends to a log; the session's own write queue, whose completions pop without an emptiness test, and lost connections are not modelled.
- Outcomes.PackedCommand: octets stand for characters, and upper case is that of the C locale.
- Delivery.DeviceNeverLosesFraming: a write operation of the I/O library goes on in several steps, and the model ends an operation's transfers with its session. If a step of an old write is already on its way when the same port or socket object is closed and opened again, its remaining octets can reach the new session; that is not modelled, here or in the other results about a session's octets.
- Dispatch.LostAtWrapAround: that the packet library refuses exactly the counts above 14 bits is a hypothesis, since the library is not part of this model.
- Dispatch.AnswersSnoc: building a telemetry packet is an arbitrary function of its arguments; the time of day it also contains is held fixed.
- `RingQueue`: needs at least two slots; the program's queues have 64.
- Boost.Asio, sockets, serial ports and name resolution: their completions are steps of the environment. A closed device makes no further progress on a write (but see `DeviceNeverLosesFraming` above), and a composed connect that would open a socket again after a stop is not modelled.
- `parse_tcp_uri`: an endpoint is given as TCP with its normalised text, or as a serial path.
- The 64-bit wrap of the generation, of counters and of nanosecond sums beyond the time stamp.
- The packet library: secondary headers, packet error control, `build_pus_c_tm` and `parse_pus_c_tc`. What `decode_meta` learns from a secondary header is an arbitrary function of the packet; reading a version-0 primary header always succeeds.
- Texts of notices, and their packing into frame payloads other than packet notifications; notices are values of a datatype, and their timestamps are dropped.
- `StateSnapshot.framing_errors`: the daemon never feeds it, so nothing is claimed of it; `framing errors` above are the framer's own.
- The JSON-lines logger, console output, command-line arguments, the terminal user interface and the control program.
- Mutexes in the daemon: it runs one thread.
- What the simulator does after popping telemetry: it drops it when disconnected and otherwise starts a socket write without a queue.
- The fixed contents of the two housekeeping reports, but for the request ID in front of the second.
- `Task::sleep` between failed tries of the ring queue: a failed try is a step that changes nothing else.
