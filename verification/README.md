# SwitchML aggregation, verified

A Dafny model of in-network aggregation as SwitchML implements it: the registers and tables of the P4 program, the
recirculation of packets between pipes, the RDMA client that streams chunks through slots and retransmits them, and
the client's threads. The central result is that, whatever is lost, repeated or delayed, every client receives the
sums of chunks 0, 1, 2, ... once each and in order, and that no loss can block a job for good. It is proved for all runs
with 256-byte packets. With 1024-byte packets it is proved for the runs in which no client accepts an answer that the
switch gave too early. There are other runs, and what a client gets from such an answer is proved, too. For both sizes
the result leaves out the last 128 bytes of a retransmitted reply, and for 1024 bytes the first exponent of a broadcast:
these have exact conditions of their own.

Verify everything with `dafny verify dfyconfig.toml`.

## How the model is organised

- `Words`, `Jobs`: 32-bit significands, 128-byte slices of a packet, and a job: for each worker, chunk and position an
  arbitrary word. `Job.Sum` is the plain, unbounded sum over workers that all results are measured against.
- `SwitchTables`, `SwitchPass`: the `next_step` table row by row (first match wins), and one pass of a packet through
  one pipe for the slot it addresses: bitmaps, count, exponents, sums, next step, sticky status flags, and the payload
  before and after parser and deparser. A `Pass` is a pure function of registers and packet.
- `Bitmaps`, `IngressPipes`: the same passes as the code performs them, on register arrays with 32-bit worker masks.
  Each control is a method; a pass is proved to be the pure one on its slot, and to leave every other slot alone.
- `Protocol`: clients, lossy order-preserving links, one set of registers per pipe, the harvest queue and the reply
  links as a state machine for one slot, for 1 to 32 workers and an unbounded stream of chunks. The two packet sizes
  are one machine with one pipe (256 bytes) or four (1024 bytes). Packets and replies carry tags that nothing reads: the
  round, whether the answer was queued too early, the workers that pipe 0 had counted, and those in each slice.
- `PipeInvariant`, `ProtocolInvariant`, `HarvestInvariant`, `ConsumeInvariant`: the inductive invariant and its proof
  for every event. `ProtocolSafety`, `EarlyAnswers`, `Replies`, `SlotReuse`, `Journeys`, `Recovery`,
  `Conservation`, `Streaming`: what follows for whole runs. `Scenarios`, `WrongBroadcasts`, `OwnTails`: runs from the start of a job to the cases listed below.
- `Receivers`, `TimeoutQueues`, `Barriers`, `Reductions`, `Partitions`, `ThreadSlots`, `ClientThreads`, `BitMasks`,
  `PoolIndices`, `PowerChecks`: message reception in the switch, and the client's data structures, threads and
  arithmetic.

Links, recirculation ports and reply links may lose any packet at any time but keep order; duplicates come from
retransmissions. Timers fire at any time. Packets of different workers overtake each other freely between pipes. The
simulated drops of the switch are losses like any other.

## Where the code does not do what one would expect

Each of these is proved: a concrete case, and the exact condition under which the expected property holds.

- The last 128 bytes of a reply whose last consume pass was a retransmission are the worker's own data, not the sum. With
  256-byte packets these are all retransmitted replies; with 1024-byte packets the packet of one may have been new in the
  last pipe. They agree with the sum exactly when the other workers' contributions add up to zero modulo 2^32
  (`Replies.RetransmittedTail`, `EarlyAnswers.EarlyTailIff`). After the loss of a broadcast a client accepts such a reply
  (`OwnTails.OwnTailAccepted`).
- With 1024-byte packets a retransmission can be answered for a round that the last pipe has not completed. This happens
  exactly when it already carries the first flag and finds one worker missing there (`Replies.TooEarlyIff`); a run
  answers complete rounds only if and only if it never meets this case (`Replies.AnswersCompleteIffClean`). Runs that
  never meet it are called clean, runs in which no client accepts such an answer are called sound. All runs with
  256-byte packets are both. A client that is handed such an answer always accepts it, and it has the sums exactly if the
  workers still missing in each slice add up to zero there (`EarlyAnswers.EarlyAnswerIff`). So every run is sound, or it
  delivers the right results until a client first accepts such an answer (`EarlyAnswers.EveryRun`). Without any loss a client
  gets to accept wrong sums in this way (`Scenarios.WrongReplyAccepted`), and if it goes on, another one gets to accept
  a wrong broadcast (`WrongBroadcasts.WrongBroadcastAccepted`).
- With 1024-byte packets the packet that completes a round is broadcast exactly when no pipe marked it as first or as a
  retransmission (`Replies.NewPacket`). Otherwise the clients get the result by retransmitting. A comment in the table
  calls one of these rows unreachable; that is true for 256-byte packets (`Replies.SmallRowUnreachable`), but with 1024
  bytes a run leads there and the completing packet is dropped (`Scenarios.CompletingIsDropped`).
- The first exponent of a reply is read in the first pass. In a retransmission it is the maximum over all workers. In a
  1024-byte broadcast it is, exactly when no worker that came to pipe 0 later has a greater one
  (`ProtocolSafety.BroadcastExponent`); a run leads to a broadcast in which it is too small (`Scenarios.WrongExponent`).
- A thread's end pointer is counted from the thread's own start. It is right exactly for the first and the last interval
  (`Partitions.EndPointerIff`). For an empty buffer one message is waited for that is never posted
  (`ClientThreads.AvailableIff`), although a comment says it is sent.
- The length of a message is computed in 32 bits (`Partitions.MessageBytesIff`).
- After a slot's last message its set bit stays, so a repeated reply is counted again and a thread can finish too early
  (`ClientThreads.FinishesTooEarly`). The count reaches zero with the last missing reply if and only if no slot keeps its
  last reply again (`ThreadSlots.CountsDownIff`).
- Pool indices are cut to 15 bits. They are distinct exactly if 14 bits are enough to number all packets
  (`PoolIndices.UniqueIff`), and have registers exactly if there are two entries for each packet
  (`PoolIndices.HasRegistersIff`): with the 16384 entries of the configuration, for 8192 packets.

## Model

| member | source | states |
|---|---|---|
| `ProtocolSafety.AllReduce` | RDMAExampleClient/ClientThread.cpp:289-358 | In every run from the start of a job, for any number of workers, losses, timeouts and interleavings (1024 bytes: every run in which no client accepts an answer marked too early), the k-th reply a client accepts is the result of chunk k: each word is the sum of all workers' words modulo 2^32 in the original order (of a retransmission without the last slice), the exponents are maxima, the first one of a 1024-byte broadcast over the workers that pipe 0 had counted; and the client's chunk number is the number of replies it accepted. |
| `ProtocolSafety.CleanAllReduce` | p4/NextStep.p4:466-474 | Runs that never queue an answer too early are a special case of these runs. |
| `ProtocolSafety.BroadcastExponent` | p4/ExponentMax.p4:88-97 | Over any such run: the first exponent of the k-th reply a client accepts is the maximum over all workers if and only if no worker that pipe 0 counted after the packet had passed has a greater one; only 1024-byte broadcasts have such workers. |
| `ProtocolSafety.RunDeliversSums` | RDMAExampleClient/ClientThread.cpp:191-255 | The same from any state that satisfies the invariant, by induction over the run. |
| `ProtocolSafety.SmallIsSound` | p4/NextStep.p4:328-344 | With 256-byte packets no answer is ever too early, so the safety results hold for all runs. |
| `ProtocolSafety.ReachableInv` | p4/switchml.p4:102-227 | Every state reached from the start of a job, without a client accepting an answer too early, satisfies the inductive invariant. |
| `ProtocolSafety.StepInv` | p4/switchml.p4:128-212 | Every event, whether timer, consume pass, harvest pass, reply or loss, keeps the invariant, unless a client accepts an answer that was too early. |
| `ProtocolInvariant.InitInv` | p4/UpdateAndCheckWorkerBitmap.p4:89-89 | The invariant holds when bitmaps and counts are clear and each client has posted chunk 0, whatever sums and exponents hold. |
| `ProtocolInvariant.LossInv` | p4/UpdateAndCheckWorkerBitmap.p4:145-147 | Losing any packet or reply anywhere keeps the invariant. |
| `ProtocolInvariant.PostInv` | RDMAExampleClient/ClientThread.cpp:258-286 | Posting the outstanding chunk again keeps the invariant. |
| `ProtocolInvariant.DeliverInv` | RDMAExampleClient/ClientThread.cpp:346-355 | Handling a reply, accepted or discarded, keeps the invariant, unless it was too early and is accepted. |
| `ProtocolInvariant.AcceptMeansOwnChunk` | RDMAExampleClient/ClientThread.cpp:303-306 | A reply carries the client's set bit if and only if it answers the client's outstanding chunk: one bit is enough. |
| `ConsumeInvariant.ConsumeInv` | p4/switchml.p4:137-148 | A consume pass in any pipe keeps the invariant, also if it queues an answer too early. |
| `ConsumeInvariant.ConsumeRow` | p4/NextStep.p4:369-474 | What the table decides after each consume pass, with the port of the next pipe, for both packet sizes. |
| `ConsumeInvariant.VerdictByFlags` | p4/NextStep.p4:567-577 | The last harvest pass broadcasts, retransmits or drops by the bridged flags alone; the first flag has priority; a worker of any other type gets nothing. |
| `ConsumeInvariant.LastIffComplete` | p4/CountWorkers.p4:14-37 | A newly counted worker sees the last flag if and only if it is the one that completes the set, for one worker or many. |
| `HarvestInvariant.HarvestInv` | p4/NextStep.p4:476-577 | A harvest pass keeps the invariant. |
| `HarvestInvariant.LeavingHolds` | p4/SignificandSum.p4:106-114 | While a packet that will be answered is harvested, every pipe still holds the complete sums of the round that queued it. |
| `HarvestInvariant.HarvestRow` | p4/NextStep.p4:476-557 | Each harvest pass of a 1024-byte packet keeps the half it read and leads to the listed recirculation port, which is one of the pipe that stores the next slice. |
| `HarvestInvariant.HarvestSlice` | p4/SignificandSum.p4:107-114 | The half that harvest type t reads is slice 15 - t of the sum. |
| `PipeInvariant.ConsumeNew` | p4/SignificandSum.p4:90-100 | A packet not counted before is added exactly once: bitmap, count, sums and exponents move from the workers K to K and w, and the packet reads back the second half of the new sum. |
| `PipeInvariant.ConsumeOld` | p4/CountWorkers.p4:93-97 | A packet counted before, of this round or the previous one, changes no register, and sees count zero exactly when its round is complete in the pipe. |
| `PipeInvariant.Rollover` | p4/UpdateAndCheckWorkerBitmap.p4:91-105 | The registers of a complete round are those of the next round's start: both sets of a slot alternate without being cleared. |
| `Jobs.Job.PartAdd` | p4/SignificandSum.p4:38-44 | Adding a worker's slice to a partial sum, word by word modulo 2^32, gives the partial sum over one worker more. |
| `Jobs.Job.MaxBelowAdd` | p4/ExponentMax.p4:36-42 | The same for the maximum of exponents. |
| `SlotReuse.RegistersInEveryState` | p4/UpdateAndCheckWorkerBitmap.p4:91-130 | In every reachable state and pipe: the bitmaps are disjoint and cover all workers after the first round, the count is the number of missing workers, the open set holds the sums (and, in pipe 0, the maxima) of exactly the workers in its bitmap, the other set the complete previous round. |
| `SlotReuse.HarvestReadsItsRound` | p4/NextStep.p4:132-151 | Split-phase consistency, word by word: the set that a packet reads, whenever it is finally processed, holds the sum over all workers of the round that queued it, in every pipe. For 1024 bytes this is the cross-pipe completeness of every broadcast and of every other answer not marked too early. |
| `SlotReuse.OverwriteIsSafe` | p4/SignificandSum.p4:92-95 | A set is overwritten only by its client's outstanding chunk r, when every client has accepted chunk r - 2, no answer for it is being collected, in time or too early, and everybody has been counted for chunk r - 1. |
| `SlotReuse.ClientsInLockstep` | RDMAExampleClient/ClientThread.cpp:201-210 | Clients are never more than one chunk apart, and the set bit is the parity of the chunk. |
| `Replies.NewPacket` | p4/NextStep.p4:452-464 | A packet new in the last pipe queues an answer and advances the round exactly when it completes the set, and will be broadcast exactly if no earlier pipe flagged it as first or repeated. |
| `Replies.OldPacket` | p4/NextStep.p4:466-474 | A retransmission changes no register, is never broadcast, and is answered exactly when its round is complete, or when it is too early, and the answer is marked exactly then. |
| `Replies.TooEarlyIff` | p4/NextStep.p4:633-637 | A pass queues an answer for an incomplete round if and only if the packet belongs to the failing family, which can be read off packet and registers before the pass. |
| `Replies.AnswersCompleteIffClean` | p4/UpdateAndCheckWorkerBitmap.p4:73-77 | A run from the start of a job answers only complete rounds if and only if it is clean; with 256-byte packets every run does. |
| `Replies.CleanRunIff` | p4/NextStep.p4:633-637 | The same from any state that satisfies the invariant and has no early answer on its way. |
| `Replies.SmallCompletingIsBroadcast` | p4/NextStep.p4:328-328 | With 256-byte packets the packet that completes a round is always queued as a broadcast. |
| `Replies.OneMissingIsDropped` | p4/NextStep.p4:328-344 | With 256-byte packets a retransmission that finds one worker missing is recirculated and then dropped, whatever the registers hold. |
| `Replies.SmallRowUnreachable` | p4/NextStep.p4:571-572 | With 256-byte packets the row for a first packet that is no retransmission is unreachable. |
| `Replies.HarvestEffect` | p4/NextStep.p4:207-257 | A harvest pass moves the packet on with its verdict unchanged, or ends as the verdict says; a broadcast is of a complete round not replied to before. |
| `Replies.ReplyReaches` | p4/NextStep.p4:207-257 | The last pass of a broadcast puts one and the same reply, which is the result of its round, on the link of every client; that of a retransmission puts it on the link of its worker only; no other pass puts anything on any link. For both packet sizes. |
| `Replies.BroadcastOnceInOrder` | p4/NextStep.p4:566-568 | Over any run in which no client accepts an answer too early, the rounds broadcast are strictly increasing and complete: at most one broadcast per round. |
| `Replies.RoundsAreBroadcast` | p4/NextStep.p4:328-344 | With 256-byte packets, over any run, rounds completed are broadcasts sent plus broadcasts lost plus broadcasts on their way. |
| `Conservation.Accounted` | p4/NextStep.p4:207-217 | Over any run from the start in which nobody accepts an answer too early, for each client: every broadcast and every retransmission to it was handled or lost or is on its link, and packets posted are packets received by the switch, lost, or on their way. |
| `Conservation.Conserves` | RDMAExampleClient/ClientThread.cpp:258-286 | The same conservation from any state that satisfies the invariant. |
| `Streaming.Streams` | p4/NextStep.p4:207-217 | For any number of workers and chunks and both packet sizes, there is a run from the start, without any loss and any timer, in which every client accepts the results of all chunks: broadcasts alone keep the stream going. |
| `Streaming.CanStart` | p4/UpdateAndCheckWorkerBitmap.p4:89-89 | A job can start from any registers whose bitmaps and counts are clear. |
| `Replies.SmallConservesBroadcasts` | p4/NextStep.p4:566-568 | The same conservation from any state that satisfies the invariant. |
| `Replies.RetransmittedTail` | p4/SignificandSum.p4:101-105 | A word of the last slice of a reply is the sum if and only if the packet was not a retransmission in its last consume pass, or the other workers' words add up to zero modulo 2^32; no broadcast is of this kind, and with 256-byte packets every retransmitted reply is. |
| `OwnTails.OwnTailAccepted` | p4/NextStep.p4:132-151 | In every 256-byte job of two workers, a run from the start in which one broadcast is lost ends with client 0 accepting a reply whose last slice is its own, and not the sum wherever worker 1 has anything but zero. |
| `Journeys.ReplyExponent` | p4/ExponentMax.p4:88-97 | The first exponent of a reply is the one its packet read in the first pass. |
| `Jobs.Job.MaxOfSome` | p4/ExponentMax.p4:35-46 | The maximum over some workers is the one over all if and only if none of the others is above it. |
| `Jobs.Job.SumSplit` | p4/SignificandSum.p4:38-44 | The sum over all workers is the sum over some and the sum over the others. |
| `EarlyAnswers.ReachableEarly` | p4/NextStep.p4:466-474 | In every such state, each answer that is too early belongs to its client's outstanding chunk, each of its slices but the last is the sum over the workers that had been counted in that pipe when it was read, and the last one is the worker's own. |
| `EarlyAnswers.EarlyAnswerIff` | RDMAExampleClient/ClientThread.cpp:346-355 | A client that is handed an answer that was too early accepts it, and gets the sums if and only if, in each word, the workers that were still missing when the slice was read add up to zero modulo 2^32; the last slice is its own. |
| `EarlyAnswers.EarlyTailIff` | p4/SignificandSum.p4:101-105 | A word of the last slice of such an answer is the sum if and only if the other workers' words add up to zero modulo 2^32. |
| `EarlyAnswers.EveryRun` | RDMAExampleClient/ClientThread.cpp:289-358 | Every run from the start of a job delivers the results of chunks 0, 1, 2, ... to every client, either to its end, always so with 256-byte packets, or up to the event in which a client first accepts an answer that was too early, and then EarlyAnswerIff holds of that answer. |
| `Scenarios.WrongReplyAccepted` | p4/NextStep.p4:455-473 | In every 1024-byte job of two workers, a run from the start without losses ends with client 0 accepting a reply whose sums are wrong, if worker 1 has anything but zero in slices 2 to 6. |
| `Scenarios.CompletingIsDropped` | p4/NextStep.p4:571-572 | In every 1024-byte job of two workers, a run from the start without losses completes the round with a packet that its last pass drops, and leaves no answer on its way. |
| `Scenarios.WrongExponent` | p4/ExponentMax.p4:35-46 | In every 1024-byte job of three workers whose third one has the greatest first exponent, a run from the start without losses ends with a client accepting a broadcast with the right sums and a first exponent that is too small. |
| `WrongBroadcasts.WrongBroadcastAccepted` | p4/UpdateAndCheckWorkerBitmap.p4:91-105 | In every 1024-byte job of two workers, a run from the start without losses, in which client 0 accepts an answer too early and goes on, ends with client 1 accepting a broadcast whose sums are wrong, if worker 0 has anything but zero in slices 2 to 7. |
| `Journeys.JourneyEnds` | p4/NextStep.p4:80-205 | Whatever the registers hold, a packet makes at most 2 passes (256 bytes) or 11 (1024 bytes), each port it is sent to is parsed as recirculation and leads to the pipe that stores the slices of that pass. |
| `Journeys.ReplyAfterWholeJourney` | p4/parsers.p4:65-117 | A reply leaves only from the last possible pass, after all slices have been collected. |
| `Journeys.OtherSizesAreDropped` | p4/NextStep.p4:313-351 | Packets of 128 or 512 bytes are dropped in every pass, whatever the registers hold. |
| `Journeys.WorkersAreParsed` | p4/parsers.p4:49-62 | Packets from the front panel of pipe 0 and from the CPU port are not taken for recirculated ones. |
| `Recovery.Recovers` | RDMAExampleClient/ClientThread.cpp:258-286 | From every reachable state a finite continuation exists in which every client receives the result of its outstanding chunk, and of every chunk up to the round being collected. It loses nothing but answers that are too early, and nothing at all if there are none. |
| `Recovery.CatchUp` | p4/NextStep.p4:333-341 | A worker that is one round behind gets its reply after a timeout, without disturbing the others. |
| `Recovery.FillFrom` | p4/CountWorkers.p4:86-97 | When all clients have the same chunk outstanding, timeouts complete the round in every pipe. |
| `Bitmaps.BitOfWorker` | p4/UpdateAndCheckWorkerBitmap.p4:14-55 | Setting or clearing the mask of a worker adds or removes that worker and no other. |
| `Bitmaps.EmptyBitmap` | p4/SignificandSum.p4:92-95 | A 32-bit bitmap is zero if and only if no worker is in it. |
| `IngressPipes.IngressPipe.UpdateAndCheckWorkerBitmap` | p4/UpdateAndCheckWorkerBitmap.p4:91-130 | On the register arrays: the worker moves into this set and out of the other, the results tell whether the set was untouched and the packet a retransmission, and no other slot changes. |
| `IngressPipes.IngressPipe.CountWorkers` | p4/CountWorkers.p4:14-98 | The count register and flag after a packet, with the rows for single-worker jobs and the 8-bit wrap-around; no other slot changes. |
| `IngressPipes.IngressPipe.ConsumeExponents` | p4/ExponentMax.p4:23-94 | Exponents are written, maximised or read by CONSUME0 only; no other slot changes. |
| `IngressPipes.IngressPipe.ConsumeSignificands` | p4/SignificandSum.p4:25-105 | Sums are written, added to or read, and which half is read back; no other slot changes. |
| `IngressPipes.IngressPipe.Consume` | p4/switchml.p4:137-212 | The controls in order on the register arrays are exactly the pure consume pass on the addressed slot, and leave all other slots alone. |
| `IngressPipes.IngressPipe.Harvest` | p4/SignificandSum.p4:106-114 | A harvest pass reads the registers as the pure pass does and changes none. |
| `Receivers.Receiver.Receive` | p4/RDMAReceiver.p4:50-106 | Reset on the first or only packet of a message, which is never dropped and gets its own rkey; check and saturating increment on later ones, error bit on a mismatch, drop by the error bit; other queue pairs are unchanged. |
| `Receivers.StartIsAccepted` | p4/RDMAReceiver.p4:231-281 | The packet that starts a message of any length is accepted with its own rkey, whatever the register holds, and the register then predicts the next packet. |
| `Receivers.RegisterTracks` | p4/RDMAReceiver.p4:67-106 | Over any subsequence of a stream of messages of any lengths: while all packets of the message so far have arrived the register predicts the next sequence number, across its 24-bit wrap-around, and the pool index; otherwise the error bit is set. |
| `Receivers.AcceptedIffPrefixArrived` | p4/RDMAReceiver.p4:167-255 | A packet is accepted if and only if every earlier packet of its message arrived, and then gets pool index rkey + 2 * offset. |
| `Receivers.AcceptedAfterGap` | p4/RDMAReceiver.p4:71-91 | Without a bound on losses: after an accepted packet, a later one is accepted if and only if a multiple of 2^24 packets were lost in between. |
| `Receivers.ColdRegister` | p4/RDMAReceiver.p4:41-41 | A register that was never reset accepts a packet that does not start a message exactly if its sequence number is 0. |
| `TimeoutQueues.TimeoutQueue.Push` | RDMAExampleClient/TimeoutQueue.hpp:36-68 | On the linked arrays: the entry moves to the front of the abstract sequence, and an index that is not an entry changes nothing. |
| `TimeoutQueues.TimeoutQueue.Remove` | RDMAExampleClient/TimeoutQueue.hpp:71-101 | The entry leaves the abstract sequence and the links stay mutually inverse with the tail entry last. |
| `TimeoutQueues.TimeoutQueue.Pop` | RDMAExampleClient/TimeoutQueue.hpp:104-106 | Drops the newest entry, or nothing if there is none. |
| `TimeoutQueues.TimeoutQueue.Top` | RDMAExampleClient/TimeoutQueue.hpp:109-112 | Returns the newest entry, or the tail entry with timestamp 0. |
| `TimeoutQueues.TimeoutQueue.Bottom` | RDMAExampleClient/TimeoutQueue.hpp:115-126 | Returns the oldest entry, or -1. |
| `TimeoutQueues.TimeoutQueue.CheckForTimeouts` | RDMAExampleClient/ClientThread.cpp:387-408 | The oldest entry is returned exactly if it has expired on the 64-bit clock; if the queue is sorted and the clock has not wrapped, this is so if and only if any queued entry has expired. |
| `TimeoutQueues.Unlink` | RDMAExampleClient/TimeoutQueue.hpp:75-97 | Taking out the entry at any position keeps next and previous links describing the remaining sequence. |
| `TimeoutQueues.LinkInFront` | RDMAExampleClient/TimeoutQueue.hpp:54-63 | So does putting an entry in front. |
| `TimeoutQueues.PushKeepsSortedIff` | RDMAExampleClient/TimeoutQueue.hpp:41-49 | A push keeps the queue sorted if and only if the newest other entry is not younger. |
| `TimeoutQueues.RunStaysSorted` | RDMAExampleClient/TimeoutQueue.hpp:34-36 | Any run of pushes with non-decreasing timestamps and arbitrary removals keeps the queue sorted. |
| `Barriers.Barrier.Enter` | RDMAExampleClient/Barrier.hpp:30-51 | The critical section of an arrival: count down, or flip the flag and reset the count. |
| `Reductions.BarrierSafety` | RDMAExampleClient/Barrier.hpp:30-52 | In every interleaving, with spurious wake-ups and threads racing into the next round: nobody leaves round k before everybody has entered it, nobody gets two rounds ahead, and the flag flips at most once while a thread is blocked, which it can then tell. |
| `Reductions.SpuriousWake` | RDMAExampleClient/Barrier.hpp:42-44 | A blocked thread may be woken at any time, and a wake-up before the flip changes nothing. |
| `Reductions.NoOverlap` | RDMAExampleClient/Reducer.cpp:40-49 | The main thread stores a reduction's parameters only while no worker is between its start and finish barriers. |
| `Reductions.EachReductionOnce` | RDMAExampleClient/ClientThread.cpp:142-180 | Every worker performs reductions 0, 1, 2, ... once each, each with its own parameters. |
| `Reductions.ReturnsAfterAll` | RDMAExampleClient/Reducer.cpp:48-55 | `allreduce_inplace` returns only after every worker has performed the reduction. |
| `Reductions.NoDeadlock` | RDMAExampleClient/Reducer.cpp:29-38 | Until all reductions are performed and all workers have exited, some thread can make a step other than a spurious wake-up. |
| `Reductions.Terminates` | RDMAExampleClient/Reducer.cpp:29-38 | Each such step adds to a bounded amount of work. |
| `Reductions.ReachesDone` | RDMAExampleClient/Reducer.cpp:29-38 | From every reachable state some run, without spurious wake-ups, leads to the state in which all reductions are performed and all workers have exited. |
| `Reductions.RunsEnd` | RDMAExampleClient/Reducer.cpp:29-38 | Every run without spurious wake-ups is no longer than the work left, so that with NoDeadlock it cannot but end there. |
| `Partitions.TotalIsEnough` | RDMAExampleClient/ClientThread.cpp:505-505 | The messages cover the buffer, the last one is not empty, and an empty buffer counts as one message. |
| `Partitions.ThreadsPartition` | RDMAExampleClient/ClientThread.cpp:512-527 | Every message belongs to exactly one thread, shares differ by at most one, and no thread has more than an earlier one: the first threads get the extra messages. |
| `Partitions.EndPointerIff` | RDMAExampleClient/ClientThread.cpp:535-537 | A thread stops at the end of its interval if and only if that interval is the first or the last one. |
| `Partitions.EndPointerFails` | RDMAExampleClient/ClientThread.cpp:535-537 | Three messages on three threads: the second thread's end pointer lies one message too far. |
| `Partitions.MessageBytesIff` | RDMAExampleClient/ClientThread.cpp:197-199 | The message length is right if and only if the remaining bytes fit in 32 bits or do not wrap below a full message; otherwise it is what 32 bits leave of them. |
| `Partitions.MessageBytesFails` | RDMAExampleClient/ClientThread.cpp:197-199 | With 4 GiB remaining the message is empty. |
| `ThreadSlots.OnePlace` | RDMAExampleClient/ClientThread.cpp:242-245 | Every message has exactly one slot and one position in that slot's sequence. |
| `ThreadSlots.QuotasAddUp` | RDMAExampleClient/ClientThread.cpp:242-245 | The slots' shares add up to the thread's messages. |
| `ClientThreads.MessagesTile` | RDMAExampleClient/ClientThread.cpp:191-199 | With one thread, every float of the buffer is in exactly one posted message, the truncated last one included. |
| `ClientThreads.AvailableIff` | RDMAExampleClient/ClientThread.cpp:502-562 | A thread can post exactly as many messages as it waits for if and only if its interval is the first or the last one and the buffer is not empty, or it has no message. |
| `ThreadSlots.OutstandingIs` | RDMAExampleClient/ClientThread.cpp:560-562 | The outstanding count is the number of sends and replies still missing less the number of replies kept beyond a slot's last one, and nothing is missing if and only if every message was sent and answered. |
| `ThreadSlots.EndsTooEarlyIff` | RDMAExampleClient/ClientThread.cpp:419-419 | The loop ends with a reply missing if and only if at least as many replies were kept twice as are missing. |
| `ThreadSlots.ExceedsIff` | RDMAExampleClient/ClientThread.cpp:346-355 | A slot counts more replies than it sent messages exactly by keeping a repeated reply to its last message. |
| `ThreadSlots.CountsDownIff` | RDMAExampleClient/ClientThread.cpp:411-465 | Over any sequence of replies up to the one that makes everything received, the count is positive before it and zero after it if and only if no slot keeps its last reply again. |
| `ClientThreads.FinishesTooEarly` | RDMAExampleClient/ClientThread.cpp:346-355 | On a thread constructed with two slots: after posting two messages and handling the first one's reply twice, nothing is outstanding and the second reply is missing. |
| `ClientThreads.ClientThread.ComputeThreadPointers` | RDMAExampleClient/ClientThread.cpp:502-562 | The thread's interval, the slots' first messages, the end pointer and the outstanding count at the start of a reduction. |
| `ClientThreads.ClientThread.PostNext` | RDMAExampleClient/ClientThread.cpp:191-255 | Posts the slot's next message, with its offset and length, exactly if the slot has one left, flips the set bit only then, and leaves the other slots alone. |
| `ClientThreads.ClientThread.PostInitialWrites` | RDMAExampleClient/ClientThread.cpp:183-189 | Posts one message for every slot that has one, and no slot has another one than the message it waits for. |
| `ClientThreads.ClientThread.HandleReceive` | RDMAExampleClient/ClientThread.cpp:289-358 | Bits, messages sent and replies kept of all slots after a reply, which is kept exactly if it carries the slot's set bit; a repetition of it is kept again exactly if the slot had no next message. |
| `ClientThreads.ClientThread.Run` | RDMAExampleClient/ClientThread.cpp:411-465 | The loop over batches of replies: it stops after the first number of batches after which nothing is outstanding, the slots are those after all replies handled, the count is what is missing if and only if no slot kept its last reply again, and then nothing is outstanding if and only if all is received. |
| `PoolIndices.UniqueIff` | RDMAExampleClient/ClientThread.cpp:116-119 | The 15-bit pool indices of all packets, over threads, slots, places in a message and sets, are distinct if and only if 14 bits are enough to number the packets. |
| `PoolIndices.HasRegistersIff` | p4/configuration.p4:20-36 | For any register size up to 2^15: all indices are distinct and below it if and only if it has two entries for each packet. |
| `PoolIndices.PacketIndex` | p4/RDMAReceiver.p4:74-76 | Messages of any thread and slot start at a multiple of their length, and adding two per packet places the packet's number between message start and set bit. |
| `PoolIndices.MaskGivesRkey` | RDMAExampleClient/ClientThread.cpp:51-52 | For a power of two of packets per message, masking the index of any packet of any thread and slot gives back the rkey with its set bit. |
| `PoolIndices.MaskNeedsPowerOfTwo` | RDMAExampleClient/ClientThread.cpp:51-52 | The message that starts at packet number ppm gets its rkey back if and only if ppm is a power of two. |
| `PoolIndices.MaskIffPowerOfTwo` | RDMAExampleClient/ClientThread.cpp:51-52 | The mask gives back the rkey for every thread, slot, packet and set if and only if the message length is a power of two. |
| `PoolIndices.ImmediateCarriesIndex` | p4/RDMASender.p4:285-291 | The first exponent is the lowest byte of the immediate of a reply, the second one the next byte, the pool index is above them, and the top bit is clear. |
| `PoolIndices.ReplyRoundTrip` | RDMAExampleClient/ClientThread.cpp:298-306 | From the rkey of a thread's slot to packet index, to immediate and back: the client recognises the reply to any packet of its message, and both exponents can be read from it. |
| `PoolIndices.RecognisedIff` | RDMAExampleClient/ClientThread.cpp:346-355 | A reply is taken for the rkey of a slot if and only if its packet is from this thread, slot and set. |
| `PoolIndices.KeyIsRkey` | py/RDMASender.py:250-251 | The table key, the queue pair's number shifted by the logarithm of the packets per message and one, is the rkey of its slot in the first set. |
| `PoolIndices.EntryOfOwnSlot` | py/RDMASender.py:223-264 | The index of a packet of any thread and slot matches the table entry of its own queue pair, for either set, and no other one. |
| `PowerChecks.Multiplier` | RDMAExampleClient/client.cpp:59-68 | The square-and-multiply loop computes size ^ exponent modulo 2^32. |
| `PowerChecks.ReductionMultiplies` | RDMAExampleClient/client.cpp:96-97 | A reduction of equal buffers multiplies each element by the number of workers. |
| `PowerChecks.ReductionsMultiply` | RDMAExampleClient/client.cpp:96-97 | Multiplying by n modulo 2^32 k times multiplies by n^k modulo 2^32. |
| `PowerChecks.InPlaceReductions` | RDMAExampleClient/client.cpp:96-97 | In a job whose chunks are the sums of the chunk before, and whose first chunks are equal, chunk k of every worker is the first one times n^k modulo 2^32. |
| `PowerChecks.Initialize` | RDMAExampleClient/client.cpp:33-53 | Fills a buffer with a marker at the start of each packet and the negative of the position elsewhere. |
| `PowerChecks.Check` | RDMAExampleClient/client.cpp:55-130 | The check counts the elements that differ from that, and finds none if and only if all agree. |
| `PowerChecks.CheckPasses` | RDMAExampleClient/client.cpp:55-130 | If every worker's buffer was filled by Initialize, the check finds no error in any worker's buffer after k reductions in place. |

## Left out

- Timeouts in the loop of `ClientThreads.ClientThread.Run`, and error completions, which end the process: retransmission is an event of `Protocol`.
- The control plane's table management, ports, multicast groups and gRPC, apart from the queue pair entries: thin wrappers over a runtime that is not part of the repository.
- RDMA verbs, MPI and connection setup: calls into foreign libraries.
- ARP, ICMP, plain forwarding, checksums, address and length fields, debug log and counters: field assignments branch by branch.
- Sequence numbers of replies and how a NIC reassembles a reply message: depends on hardware; the protocol model has one packet per message.
- Jobs with 128-byte or 512-byte packets: the table drops these packets, and so does the model (`Journeys.OtherSizesAreDropped`).
- The alternate recirculation port: the table's default keeps it off, and the model does, too.
- The bridged flag for a nonzero bitmap: a consume pass computes it anew, and no harvest row reads it.
- Exponents of packets that are not the last one of a message: the protocol model has one packet per message.
- The lock-step between the unbounded chunk stream of `Protocol` and the finite buffers of `ClientThreads`: the two are proved separately.
- Aliasing of register arrays between pipes: `Protocol` works on values for one slot; `IngressPipes` shows that slots do not affect each other.
- `wait()` as one loop: `Barriers` has the arrival as a method and the loop condition as a predicate, and their interleaving is the state machine in `Reductions`.
- ProtocolSafety.AllReduce: for 1024-byte packets it requires that no client accepts an answer that was too early, because of WrongReplyAccepted and WrongBroadcastAccepted; EveryRun says what holds of the other runs; the first exponent of a 1024-byte broadcast is covered by BroadcastExponent, the last slice of a retransmission by RetransmittedTail.
- SlotReuse.HarvestReadsItsRound: leaves out answers that are too early, whose slices ReachableEarly describes.
- Replies.RetransmittedTail: leaves out answers that are too early, which EarlyTailIff covers.
- Receivers.AcceptedIffPrefixArrived: assumes that the first arrival starts a message and that fewer than 2^24 packets are lost in a row; ColdRegister and AcceptedAfterGap show that both are needed.
- ClientThreads.MessagesTile: is about one thread and buffers below 4 GiB, because of EndPointerIff and MessageBytesIff.
- PoolIndices.MaskGivesRkey: is about messages whose packets can be numbered in 14 bits; UniqueIff shows what happens otherwise.
