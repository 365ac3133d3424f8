# A verified model of the protocol stack

The repository implements the same layered protocol stack twice: once with a process for every protocol, joined by
pipes (`ppp.h`), and once with a thread for every message (`ppm.h`). Both stand on a segmented message buffer
(`message.h`), and the threads on a hand-made pool (`threadpool.h`), which an event scheduler also uses
(`eventscheduler.h`). This project models the five files in Dafny and proves what they can be relied on for.

`dafny verify dfyconfig.toml` checks everything.

## The files

- `Bytes.dfy`, `Layers.dfy`, `FrameBytes.dfy`: the little-endian `int` fields, the header layouts, the frames of both
  implementations, byte by byte, and the walk of received bytes up the layers, with a receive buffer of 2048 bytes.
- `Rope.dfy`, `RopeRuns.dfy`: class `Message` over shared buffers, and the refinement of any run of its operations to
  plain byte strings.
- `Ppm.dfy`, `PpmRuns.dfy`, `PpmCounts.dfy`: the send and deliver chains as methods on messages; then all interleavings
  of the threads, over a wire that loses and reorders datagrams, with counters that are loaded and stored without a
  lock; and exactly when those counters are right and the completion is reported. `PpmLedger.dfy` accounts for every
  thread and datagram by the actions of a run, and `PpmOutcomes.dfy` shows that every outcome these books allow
  happens. `Counting.dfy` counts list elements.
- `PppNetwork.dfy`: the four polling loops, the eight send processes of one peer, the wire, and the eight deliver
  processes of the other, as a transition system whose steps are single `select`, `sem_wait`, `read`, `sem_post`,
  header and `write` operations. A process is deterministic, so a run is the sequence of process names that a
  scheduler picks; a state is reachable if it is in every set of states that contains the initial one and that no step
  leaves, or, equivalently, if some schedule leads to it. `PppInvariant.dfy` proves what every step keeps,
  `PppDiscipline.dfy` reads it off state by state, `PppConservation.dfy` shows that nothing is lost, doubled or
  reordered, `PppTermination.dfy` bounds every run, `PppProgress.dfy` and `PppDeadlock.dfy` say exactly when the network
  can deadlock, `PppCompletion.dfy` that it never has to, and `PppReport.dfy` and `PppFourReports.dfy` when and how often
  completion is reported. `PppSteps.dfy` says what a process waits for, which input it prefers, and what the deliver
  processes do with any bytes. `Interop.dfy` compares the two receivers.
- `ThreadPool.dfy`, `PoolRuns.dfy`, `PoolProgress.dfy`: the pool as a class, and as a transition system of dispatchers,
  workers and joiners: what it never does, and that every slot comes back.
- `EventScheduler.dfy`, `SchedulerRuns.dfy`, `SchedulerProgress.dfy`: the scheduler as a class, and its runs on top of
  the concurrent pool, again with what always stays true and what happens in the end.

## Where the code differs from what one would expect

- `msgStripHdr` of exactly the whole message reads the front of an empty list (`message.h:58-65`); the same happens to
  `msgSplit` at 0 (`message.h:90-99`). `PopFrontDrops` and `PopBackCuts` prove that nothing else leaves the domain.
- `msgSplit` assigns the length of the second message instead of adding to it (`message.h:111`). The second message is
  consistent afterwards exactly if it was empty.
- The transport processes of `ppp.h` measure a fresh, empty message before they read (`ppp.h:125-128`, `244-247`), so
  that field is always 0. Nothing reads it, so either implementation can receive the other's frames.
- Empty payloads crash the receiver: its last strip asks for everything. `RoundTrip` states the condition in both
  directions for a frame, `ProcessAdvances` for the processes of `ppp.h`, and `CrashIff` for whole runs of `ppm.h`. The
  runs of `ppp.h` plan non-empty payloads.
- A writer waits for room in a pipe while it holds the semaphore its reader needs. The network is free of deadlock
  exactly when the messages of all protocols together fit into one pipe; the limit is not per protocol. Some schedule
  always completes (`CompletableIff`), one message at a time.
- The completion test is separate from the increment. In `ppp.h` each deliver process can report, so there can be up
  to four reports, and at least one. In `ppm.h` a counter never runs ahead of its deliveries, but increments can be
  lost: a counter is right exactly if no handler stores over an increment it has not seen (`CountExactIff`), which is so
  if handlers of one protocol never overlap there (`ExactIffSerial`). With exactly the total delivered the completion is
  reported exactly if nothing was lost (`CompletionIff`), so it can be missed for good (`CompletionMissed`).
- Testing and clearing a slot flag are two critical sections (`threadpool.h:83-91`). The pool is sound exactly when one
  thread dispatches, and only then is a dispatch after a positive answer never dropped (`RefusedIff`). The pool of
  `ppm.h` has five: the four polling threads of `application.h:213-226` dispatch in
  `ppm::send` (`ppm.h:96-132`), and so does `eth_deliver` (`ppm.h:258-260`).

## Assumptions

- The wire of `ppp.h` is a queue; loss and reordering are modelled for `ppm.h` only, duplication by the network for
  neither.
- Memory is sequentially consistent. A slot flag, a pipe operation and a semaphore operation are single steps; so is
  the scheduler's scan and erasure of the cancel queue, for which the code takes no lock (`eventscheduler.h:26-33`),
  and so is its append.
- One thread calls `eventSchedule`. Any thread cancels, and a timeout may end at any moment.
- `int` header fields are four bytes, little-endian; counters and lengths elsewhere are unbounded.
- Pipe capacity is counted in messages and is a parameter of the theorems.

## Model

| member | source | states |
|---|---|---|
| `Bytes.IntRoundTrip` | structs.h:18-22 | an `int` header field written as four little-endian bytes is read back as the same number, reduced modulo 2^32 into two's complement |
| `Bytes.EncodeIntInjective` | structs.h:18-22 | two numbers have the same four bytes exactly when they are equal modulo 2^32 |
| `Rope.PopFrontDrops` | message.h:58-77 | the strip loop is defined exactly when it is asked for less than everything, and then drops exactly the first `rem` addresses, whatever the segmentation and however many segments are empty; the number of segments does not grow |
| `Rope.PopFrontComposes` | message.h:53-80 | stripping `a` and then `b` leaves the very same segments as stripping `a + b` |
| `Rope.PopBackCuts` | message.h:89-109 | the split loop is defined exactly when something is left behind; then it cuts off exactly the last `rem` addresses, puts them before the second message, and adds at most one segment in all |
| `Rope.SplitAt` | message.h:82-113 | splitting at `k` into an empty message leaves the first `k` addresses in one and the adjacent rest in the other |
| `Rope.SplitThenJoin` | message.h:82-123 | splitting at any `k` and joining again views the original addresses |
| `Rope.SplitsCommute` | message.h:82-113 | splitting at `k + j` and then the front at `k` gives the three pieces of splitting at `k` and then the back at `j` |
| `Rope.Message.Empty` | message.h:24-29 | an empty message |
| `Rope.Message.constructor` | message.h:31-38 | a message viewing exactly the given range, without copying it |
| `Rope.Message.MsgAddHdr` | message.h:46-51 | the header's addresses and bytes come before the old ones, and both lists and the length stay consistent |
| `Rope.Message.MsgStripHdr` | message.h:53-80 | NULL and no change for zero, negative and too large lengths; otherwise a fresh copy of exactly the first `len` bytes, and the message is left with exactly the rest |
| `Rope.Message.StripWhole` | message.h:58-65 | the loop copies and drops whole segments until the front segment is longer than what remains |
| `Rope.Message.CutSegment` | message.h:66-77 | the partial segment is copied out and its pointer moved past the bytes taken |
| `Rope.Message.MsgSplit` | message.h:82-113 | 0 and no change if `len` is too large; otherwise the first `len` bytes stay, the second message views the rest before what it viewed, and its length field is right exactly if it was empty |
| `Rope.Message.MoveTail` | message.h:90-109 | the loop and the step after it compute the specified pair of segment lists |
| `Rope.Message.MsgJoin` | message.h:115-123 | the views and bytes of the second message are appended, and the second message is unchanged |
| `Rope.Message.MsgLen` | message.h:125-128 | the length of the flattened content |
| `Rope.Message.MsgFlat` | message.h:130-140 | exactly the content is written to a buffer the message does not view, and nothing after it |
| `RopeRuns.Execute` | message.h:46-140 | one operation on a population of messages that share buffers has on every message exactly the effect of the operation on plain byte strings: its targets change as strings do, all others not at all; a header may lie at any address, also in a buffer that messages already view, and flattening may fill a buffer of the caller that no message views |
| `RopeRuns.Run` | message.h:46-140 | any sequence of legal operations gives the answers, the contents and the caller's buffers of the same sequence on plain byte strings |
| `RopeRuns.StripLegalIff` | message.h:53-65 | a strip is among the legal operations exactly if the code does not read the front of an empty list, whatever the segmentation |
| `RopeRuns.SplitLegalIff` | message.h:82-99 | a split is legal exactly if it is refused, or the code does not read the back of an empty list and the second message views nothing |
| `RopeRuns.OthersLegal` | message.h:46-140 | all other operations are legal on any messages, but for joining a message with itself and flattening into a buffer that is too small or in use |
| `Layers.HeaderFields` | structs.h:18-64 | the `hlp` and `datalength` fields of a header are read back from its first and last four bytes, and what lies between is zero |
| `Layers.FrameLayout` | ppm.h:269-372 | where the four headers and the payload of a frame lie, and which identifiers and lengths the headers carry |
| `Layers.FrameInjective` | ppm.h:269-372 | equal frames have the same protocol and the same payload, even across the two implementations |
| `Layers.NestedLengths` | ppm.h:269-372 | every `datalength` of a ppm frame counts the bytes after its header, and the overhead is 64 bytes, 68 for RDP |
| `Layers.FramesAgree` | ppp.h:125-141 | ppp and ppm frames are equally long and agree outside bytes 44 to 47, and there too exactly when the segment body is 0 modulo 2^32 |
| `Layers.ClippedLayout` | ppm.h:250-253 | what the receive buffer leaves of a frame: all headers, and a prefix of the payload |
| `Layers.RoundTrip` | ppm.h:135-268 | any frame of either implementation reaches the handler of its own protocol with the payload received; it faults exactly if the payload is empty |
| `Layers.WalkByOffsets` | ppm.h:135-268 | for arbitrary bytes the deliver chain depends on the length and two fields only; when it faults, when it discards, and what it hands over otherwise |
| `FrameBytes.FrameIs` | structs.h:18-64 | every byte of every frame of either implementation in plain numbers: the identifiers as single low bytes, zero padding at 4 to 11, 20 to 31, 40 to 43 and inside the application header, little-endian lengths, and then the payload |
| `FrameBytes.TransportLength` | ppp.h:125-128 | the transport length is the length of the packet in `ppm.h`, and four zero bytes in `ppp.h` |
| `FrameBytes.WholeIff` | ppm.h:250-253 | a payload arrives whole exactly up to 1984 bytes, 1980 for RDP; of a longer one that much arrives |
| `Ppm.AddLayer` | ppm.h:269-277 | a header with the identifier set by the layer above and the length of the message comes before the message |
| `Ppm.EthSend` | ppm.h:366-382 | exactly one datagram is sent, the message with the Ethernet header |
| `Ppm.IpSend` | ppm.h:353-365 | one datagram with IP and Ethernet headers, each measuring what follows it |
| `Ppm.TcpSend` | ppm.h:325-337 | the same with a TCP header inside |
| `Ppm.UdpSend` | ppm.h:339-351 | the same with a UDP header inside |
| `Ppm.FtpSend` | ppm.h:269-281 | the datagram sent is the FTP frame of the content |
| `Ppm.TelnetSend` | ppm.h:283-295 | the datagram sent is the TELNET frame of the content |
| `Ppm.RdpSend` | ppm.h:297-309 | the datagram sent is the RDP frame of the content |
| `Ppm.DnsSend` | ppm.h:311-323 | the datagram sent is the DNS frame of the content |
| `Ppm.Send` | ppm.h:79-134 | one frame of the right protocol if a thread is free and the identifier is known, and nothing otherwise; the message then contains that frame, or what it contained before |
| `Ppm.ReportedOnce` | ppm.h:142-151 | with handlers running one after the other there is at most one report, and it comes exactly if some prefix of the deliveries has the total of each protocol |
| `Ppm.FtpDeliver` | ppm.h:135-152 | strips, counts one FTP delivery with the remaining content, and reports if that completes the total |
| `Ppm.TelnetDeliver` | ppm.h:154-171 | the same for TELNET |
| `Ppm.RdpDeliver` | ppm.h:184-201 | the same for RDP |
| `Ppm.DnsDeliver` | ppm.h:203-220 | the same for DNS |
| `Ppm.TcpDeliver` | ppm.h:173-182 | dispatches on the stripped header to FTP or TELNET, or discards |
| `Ppm.UdpDeliver` | ppm.h:222-231 | dispatches on the stripped header to RDP or DNS, or discards |
| `Ppm.IpDeliver` | ppm.h:233-242 | dispatches on the stripped header to TCP or UDP, or discards |
| `Ppm.Receive` | ppm.h:249-260 | one datagram, cut off by the buffer, is walked up if a thread is free, and dropped otherwise |
| `Ppm.EthDeliver` | ppm.h:244-268 | the loop hands over exactly what the deliver chain makes of the datagrams for which a thread was free, in order |
| `Ppm.EndToEnd` | ppm.h:244-382 | the frames of non-empty payloads that fit, each received with a free thread, are handed over with their own protocols and payloads, in order |
| `Ppm.SendAll` | ppm.h:79-134 | a list of messages sent one after the other puts exactly their frames on the wire, in order |
| `Ppm.SendAndDeliver` | ppm.h:79-382 | any list of messages with non-empty payloads that fit, sent and then received with free threads, reaches the handlers of their own protocols with their own payloads, in order |
| `PpmRuns.SentAtMostOnce` | ppm.h:366-382 | in every interleaving what goes out is a sub-multiset of the frames submitted, and at most one thread is in `sendto` |
| `PpmRuns.DeliveredAtMostOnce` | ppm.h:244-268 | in every interleaving, with loss, reordering and crashes, what the handlers get is a sub-multiset of the non-empty payloads submitted, as received, each for its own protocol, and at most `tot` of them |
| `PpmRuns.ReceivedAtMostTot` | ppm.h:250-266 | in every run the receiving loop takes at most `tot` datagrams, with at most one handler for each |
| `PpmRuns.Pass` | ppm.h:374-381 | a waiting thread can always go through `sendto` on its own: its frame is on the wire if that succeeds, nothing is if it fails, and the semaphore is free again |
| `PpmLedger.ThreadsAccounted` | ppm.h:79-134 | in every run the submissions are the calls with a known protocol, and there is exactly one thread, with the frame of the call, for each that found a free one |
| `PpmLedger.DatagramsAccounted` | ppm.h:366-382 | in every run each datagram sent comes from one thread that succeeded in `sendto`, none from a thread twice, and each copy is on the wire, was lost, or was received |
| `PpmLedger.ReceiptsAccounted` | ppm.h:244-268 | in every run the loop has taken as many datagrams as were received, at most `tot`; there is exactly one handler for each that found a free thread and a protocol, in order, with what the deliver chain makes of it; a thread has crashed exactly if the chain did |
| `PpmLedger.ReceivableIff` | ppm.h:250-266 | while no thread has crashed, a datagram on the wire can be received exactly as long as fewer than `tot` were |
| `PpmOutcomes.SubmitAnyTime` | ppm.h:79-134 | a message can be submitted at any time, and gets a thread exactly if one is free and the identifier is one of 5 to 8 |
| `PpmOutcomes.LoseAnyTime` | ppm.h:252 | a datagram on the wire can be lost at any time |
| `PpmOutcomes.HandlerAlone` | ppm.h:135-152 | a handler that nobody interrupts counts one delivery of its protocol and reports exactly if all four counters then stand at 100 |
| `PpmOutcomes.OutcomeIff` | ppm.h:79-382 | for any list of submissions: the lists of deliveries that complete runs can end with are exactly those that take each non-empty payload at most once, in any order, up to `tot` of them |
| `PpmRuns.CrashIff` | ppm.h:135-268 | for any list of submissions: some interleaving crashes a thread exactly if one of the payloads is empty and the receiving loop takes anything |
| `PpmCounts.NoPrematureReport` | ppm.h:135-220 | with unprotected increments no counter exceeds the handlers that have stored, and a report implies at least the total for each protocol |
| `PpmCounts.CountExactIff` | ppm.h:140 | in every run a counter equals the number of handlers that have incremented it exactly if none of them stored over an increment it had not seen |
| `PpmCounts.ExactIffSerial` | ppm.h:140 | a run in which two handlers of a protocol are never both between load and store loses no increment of it; once no handler is in between, the counter is exact only then |
| `PpmCounts.CompletionIff` | ppm.h:142-151 | with exactly the total of each protocol delivered and every handler done, the completion was reported exactly if no increment of any protocol was lost |
| `PpmCounts.CompletionMissed` | ppm.h:135-220 | the total of every protocol can be delivered and handled to the end without any report |
| `PppNetwork.ReachableIff` | ppp.h:35-86 | a state is in every set that contains the initial state and that no step leaves exactly if some schedule leads to it |
| `PppSteps.FirstReadyIsFirst` | ppp.h:129-140 | `select` followed by the chain of `FD_ISSET` tests takes the first input with a message, in the order of the tests |
| `PppSteps.SelectOrder` | ppp.h:129-291 | at the top of its loop the TCP process takes an FTP message if there is one and a TELNET message only otherwise, UDP the same with RDP before DNS, and IP with TCP before UDP |
| `PppSteps.BlockedIff` | ppp.h:88-593 | in every reachable state, at any capacity, a process cannot take a step exactly if it waits for a message, for a semaphore that is 0, or for room in a full pipe |
| `PppSteps.DeliverAlone` | ppp.h:446-456 | a deliver process that nobody interrupts counts its message and reports exactly if all four counters then stand at 100 |
| `PppSteps.EthDeliverStep` | ppp.h:339-360 | in any state, reachable or not, the Ethernet process passes on what follows its header, or what is too short for it, and crashes on a bare header |
| `PppSteps.IpDeliverStep` | ppp.h:362-394 | in any state the IP process crashes on 20 bytes or fewer, passes TCP and UDP on to their pipes, and drops everything else |
| `PppSteps.TransDeliverStep` | ppp.h:396-423 | in any state a transport process crashes on 12 bytes or fewer, passes its two protocols on to their pipes, and drops everything else |
| `PppSteps.AppDeliverStep` | ppp.h:425-458 | in any state an application process counts what follows its header, or what is too short for it, and crashes on a bare header |
| `PppInvariant.ReaderIsNext` | ppp.h:88-593 | each pipe is read by the process whose turn comes next on every path through it |
| `PppInvariant.WriterIsBefore` | ppp.h:88-593 | each pipe is written by the process just before it on every path through it |
| `PppInvariant.OneReader` | ppp.h:88-593 | a process waits on a pipe exactly if it is the one reader of the pipe |
| `PppInvariant.ProcessAdvances` | ppp.h:88-593 | each process adds or strips its header correctly and forwards the message to the next pipe of its own protocol, for every payload; only the last strip fails, and exactly for an empty payload |
| `PppInvariant.ActSound` | ppp.h:88-593 | from a state with the invariant, the next operation of any process is one of the sound kinds |
| `PppInvariant.LayeredKept` | ppp.h:88-593 | every step keeps the contents of all messages equal to what their place prescribes |
| `PppInvariant.OwnedKept` | ppp.h:88-593 | every step keeps every message in exactly one place |
| `PppInvariant.SemaphoresKept` | ppp.h:98-111 | every step keeps each semaphore at 1, or at 0 with exactly one holder |
| `PppInvariant.ReadyKept` | ppp.h:94-100 | every step keeps the pipe of a reader past `select` non-empty |
| `PppInvariant.StepKeepsInv` | ppp.h:88-593 | every step of every process keeps the whole invariant, for any capacity |
| `Interop.DeliversAgree` | ppp.h:339-593 | on every sequence of received bytes the deliver processes of `ppp.h`, one after the other, and the deliver chain of `ppm.h` have the same outcome |
| `Interop.FramesInterchange` | ppp.h:125-141 | for every non-empty payload either receiver takes a frame of either sender to the same protocol and payload |
| `PppDiscipline.SemaphoreDiscipline` | ppp.h:98-111 | in every reachable state a semaphore is 0 exactly while its reader or its writer, and not both, holds it |
| `PppDiscipline.HoldersAreUsers` | ppp.h:98-111 | only the reader and the writer of a pipe ever hold its semaphore |
| `PppDiscipline.HoldsOne` | ppp.h:98-111 | in every run a process posts the semaphore it took before it takes another |
| `PppDiscipline.HoldsIffTaken` | ppp.h:98-111 | in every run a process holds a semaphore exactly while its last operation on that semaphore was to take it |
| `PppDiscipline.ReadsNeverBlock` | ppp.h:94-100 | a reader past `select` finds its pipe non-empty, so a read never blocks while it holds the semaphore |
| `PppDiscipline.MessagesLayered` | ppp.h:88-593 | in every reachable state a message is on the path of its protocol, carries exactly the headers passed and not left again, and shares its buffer with no other |
| `PppDiscipline.EveryStripSucceeds` | ppp.h:381-392 | no process reads through a null header, and every header added or stripped leads on |
| `PppConservation.AdvanceKeepsTransit` | ppp.h:98-111 | moving a message one stage on leaves the sequence in transit of every protocol unchanged, through merges and demultiplexing |
| `PppConservation.ReachableSafe` | ppp.h:88-593 | invariants and ledger hold in every reachable state |
| `PppConservation.OrderedConservation` | ppp.h:88-593 | in every reachable state, for each protocol, delivered, in transit and still planned make up the plan in its order, and what was delivered is the received form of that prefix |
| `PppTermination.StepDrops` | ppp.h:88-593 | every step lowers the measure |
| `PppTermination.RunsAreFinite` | ppp.h:88-593 | no run takes more than 180 steps per planned message and 40 more, whatever the scheduling |
| `PppProgress.RoomToWrite` | ppp.h:107-111 | a process about to write finds fewer messages in its pipe than are in flight, which are at most those planned |
| `PppProgress.HolderBlocked` | ppp.h:98-111 | a holder of a semaphore is blocked only while it writes into a full pipe |
| `PppProgress.DeadMeansDone` | ppp.h:88-593 | a reachable state without a step, with no more messages in flight than fit into a pipe, has everything delivered, every pipe empty, every semaphore at 1 and every counter right; this holds in particular if the whole plan fits |
| `PppProgress.MaximalRunsComplete` | ppp.h:88-593 | if the plan fits, a run cannot be continued exactly when it has reached that final state, and its length is bounded |
| `PppDeadlock.StuckToDead` | ppp.h:107-111 | a full pipe whose writer holds the semaphore its reader waits for stays so, up to a state in which nothing can move |
| `PppDeadlock.DeadlockReachable` | ppp.h:93-112 | with one message more than fits, some scheduling ends with messages undelivered and no step possible |
| `PppDeadlock.DeadlockFreeIff` | ppp.h:88-593 | the network is free of deadlock exactly when the planned messages of all protocols together fit into one pipe |
| `PppCompletion.OneAtATime` | ppp.h:88-593 | from every reachable state with at most one message in flight, at any capacity of at least one, some schedule delivers everything |
| `PppCompletion.CompletableIff` | ppp.h:88-593 | for every plan, some schedule delivers everything exactly if pipes have room for a message or nothing is planned: a deadlock can always be avoided |
| `PppReport.StepIsEvent` | ppp.h:446-456 | every step of the network is one event of counters, tests and reports |
| `PppReport.ReportsAreSound` | ppp.h:446-456 | each deliver process reports at most once, and only after at least the total of every protocol was delivered |
| `PppReport.ReportNotMissed` | ppp.h:446-456 | once all counters stand at the total and no test is under way, some process has reported |
| `PppReport.CompletionReported` | ppp.h:446-456 | with exactly the total planned for each protocol, and room, every completed run has at least one report and at most four |
| `PppFourReports.FourReports` | ppp.h:446-456 | four reports do occur, for every such plan |
| `ThreadPool.FirstFree` | threadpool.h:81-86 | the lowest slot whose flag is true, if any |
| `ThreadPool.Pool.constructor` | threadpool.h:59-71 | all slots free, nothing started |
| `ThreadPool.Pool.ThreadAvail` | threadpool.h:122-133 | true exactly if some flag is true |
| `ThreadPool.Pool.DispatchThread` | threadpool.h:80-120 | starts the work on the lowest free slot with a joiner for it, drops it silently if there is none, and gives the slot back if the thread cannot be created |
| `ThreadPool.Pool.AskAndDispatch` | ppm.h:96-104 | asking first and then dispatching starts the work, on the lowest free slot with a joiner for it, exactly if a slot is free, and changes nothing otherwise |
| `PoolRuns.StepKeepsInv` | threadpool.h:31-133 | with at most one dispatcher every step of every thread keeps the slot invariant |
| `PoolRuns.ReachableIff` | threadpool.h:31-133 | a state of the pool is in every set that contains the initial state and that no step leaves exactly if some interleaving leads to it |
| `PoolRuns.OneDispatcherSound` | threadpool.h:31-133 | in every reachable state: a slot is free with all its work ended and joined once, or busy with exactly one; no thread is joined twice or by the wrong joiner; live threads never exceed the slots; a dispatch after a positive answer always starts |
| `PoolRuns.CallsAccounted` | threadpool.h:80-120 | whatever the number of dispatchers, each call has become one thread, has found no slot, or is under way |
| `PoolRuns.DoubleClaim` | threadpool.h:83-91 | two dispatchers can start work on one slot |
| `PoolRuns.UninterruptedDispatch` | threadpool.h:80-120 | the steps of one dispatcher on its own have the effect stated for the method |
| `PoolRuns.UninterruptedAsk` | threadpool.h:122-133 | the steps of `thread_avail` on its own find the lowest free slot, or none |
| `PoolRuns.PoolSoundIff` | threadpool.h:83-91 | the pool keeps its promises in every reachable state exactly when at most one thread dispatches, or there are no slots |
| `PoolProgress.UninterruptedJoin` | threadpool.h:31-37 | from every reachable state, for any number of dispatchers, a joiner whose task has ended joins it once more and raises the flag of its slot, and nothing else changes |
| `PoolProgress.AskAfterJoin` | threadpool.h:122-133 | whoever asks after that finds a slot |
| `PoolProgress.QuietMeansFree` | threadpool.h:31-133 | in every reachable state in which only a new call is possible, all slots are free, all tasks ended, all joiners done, and every call is a task or found no slot, whatever the number of dispatchers |
| `PoolProgress.StepDrops` | threadpool.h:31-133 | every step that is not a call lowers a measure, so without new calls every run ends |
| `PoolProgress.AllComeBack` | threadpool.h:31-133 | from every reachable state some run without new calls ends with all slots free |
| `PoolProgress.RefusedIff` | threadpool.h:80-133 | a dispatch right after a positive answer can be dropped exactly if more than one thread dispatches and there are slots |
| `EventScheduler.RemoveFirstCounts` | eventscheduler.h:26-32 | erasing an id takes one entry of that id and of no other |
| `EventScheduler.EraseIsRemoveFirst` | eventscheduler.h:26-32 | erasing the position the scan stops at is removing the first occurrence |
| `EventScheduler.Scheduler.constructor` | eventscheduler.h:58-64 | one slot more than the events asked for, all free, no ids given out, nothing cancelled |
| `EventScheduler.Scheduler.EventSchedule` | eventscheduler.h:72-85 | with a free slot the next id and a thread for exactly this event on the lowest free slot, with its joiner; otherwise -1 and no change |
| `EventScheduler.Scheduler.EventWrapper` | eventscheduler.h:24-35 | the event fires exactly if its id is not in the queue, and otherwise one entry for it is erased |
| `SchedulerRuns.StepKeepsInv` | eventscheduler.h:15-93 | every step of every thread keeps ids, queue and resolutions consistent, on top of the concurrent pool |
| `SchedulerRuns.FiresIff` | eventscheduler.h:14-35 | in every run the timeout of a sleeping event can end, and it then fires exactly if no cancel for its own id came before |
| `SchedulerRuns.ResolvedOnce` | eventscheduler.h:24-35 | what an event was resolved to never changes |
| `SchedulerRuns.CancelsAccounted` | eventscheduler.h:24-93 | in every run the queue entries for an id are its cancels, less one if its event was suppressed |
| `SchedulerRuns.IdsIncrease` | eventscheduler.h:72-85 | ids given out are unique and increasing, and each has the thread of its event |
| `SchedulerRuns.InFlightBounded` | eventscheduler.h:58-64 | events in flight never exceed `maxEvents + 1` |
| `SchedulerRuns.ScheduleAlone` | eventscheduler.h:72-85 | from every reachable state a call can be completed, with the next id and a sleeping event if a slot is free, and with -1 and no effect otherwise |
| `SchedulerProgress.Timeout` | eventscheduler.h:14-35 | from every reachable state the timeout of any sleeping event can end: fired if its id was never cancelled, suppressed with one queue entry used up otherwise, and nothing else changes |
| `SchedulerProgress.CancelAnyTime` | eventscheduler.h:86-93 | any id can be cancelled in any reachable state; a positive one is queued at the end |
| `SchedulerProgress.SlotComesBack` | threadpool.h:31-37 | from every reachable state the joiner of an ended event gives its slot back, joined once, and nothing else changes |
| `SchedulerProgress.EventRunsOut` | eventscheduler.h:14-35 | from every reachable state a sleeping event with its joiner can run to its end: resolved, ended, joined once, its slot free |
| `SchedulerProgress.QuietMeansOver` | eventscheduler.h:14-93 | in every reachable state in which only a new call is possible, every event is resolved and over, every slot is free, and every id was returned |
| `SchedulerProgress.StepDrops` | eventscheduler.h:14-93 | every step that is not a call lowers a measure, so without new calls every run ends |
| `SchedulerProgress.AllEnd` | eventscheduler.h:14-93 | from every reachable state some run without new calls ends with every event over |

## Left out

- Sockets, the handshake and name resolution of `application.h`; its polling loops appear as the plan of payloads each
  of them writes, without their delays.
- Errors of foreign calls: end of file and errors from pipes and `select`, `exit` paths, descriptor limits. Failure of
  `sendto` is a possible step in `PpmRuns`, and failure of thread creation a parameter of `DispatchThread`; neither is
  part of the runs of `ppp.h`, the pool or the scheduler.
- Elapsed-time arithmetic, console output and the commented-out debug code; a completion report is a counted event.
- Memory reclamation, destructors, leaked joiner handles, and the constructors of `ThreadPool` and `EventScheduler`
  without arguments, which build a temporary.
- Overflow of `size_t` lengths, loop counters, message counters and event ids.
- Splitting a message into itself and joining it with itself.
- Payload lifetime: the polling loops point messages at a stack buffer; here payload bytes do not change after a
  message was created. `MsgFlat` into a buffer the message itself views is outside its precondition.
- The unused pipes and semaphores `ftp_up`, `telnet_up`, `rdp_up` and `dns_up`; the other direction of `ppp.h`, which is
  an identical copy of the one modelled.
- The pool that starts the sixteen processes of `ppp.h` and its sharing between five dispatchers in `ppm.h`: in `PpmRuns`
  the answer of `thread_avail` is a free choice of the environment.
- Ppm.Send: runs the dispatched thread to its end; the interleavings are those of `PpmRuns`, where the send chain of a
  thread, which touches only its own message, is one step.
- Ppm.EthDeliver: runs each handler to its end before the next datagram, for the same reason.
- Ppm.Receive: requires a datagram on which the code is defined; `WalkByOffsets` says exactly which those are.
- Ppm.ReportedOnce: speaks of handlers that run one after the other; interleaved handlers are those of `PpmCounts`.
- PppDiscipline.EveryStripSucceeds: plans non-empty payloads, like all runs of `ppp.h`; which process fails on an empty
  one is said by `ProcessAdvances`, and that some schedule gets there is not.
- PppSteps.FirstReadyIsFirst: `select` and the tests after it are one step.
- ThreadPool.Pool.DispatchThread: runs without interruption; the interleavings are those of `PoolRuns`.
- EventScheduler.Scheduler.EventWrapper: starts after the timeout, whose length is not modelled, and returns whether
  the event's function is called instead of calling it.
