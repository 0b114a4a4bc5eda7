# OSaSP_LABS: verified models

The repository holds laboratory programs of a course on operating systems. Four of them are
small concurrent systems or data formats with promises that can be proved:

- **LAB_6**, `sort_index`: a main thread and `amount` workers sort a memory-mapped file chunk
  by chunk. They sort `blocks` pieces under a claim map and merge runs pairwise in rounds
  separated by a barrier; main does the last merge of each chunk.
- **LAB_5** and **LAB_4**: producers and consumers around a ring of messages guarded by two
  counting semaphores and a mutex, as threads removed by cancellation (LAB_5) and as processes
  removed by SIGKILL (LAB_4).
- **LAB_7/p1**: the same queue with a mutex and two condition variables.
- **LAB_7/p2** and **LAB_8**: a file of fixed-size records, and a packet format.

## How it is modelled

Concurrent programs are step systems: a state, a type of acts, `Enabled` and `Next`, and
`Legal`/`Run` for schedules. Theorems about them are about every schedule of any number of
participants; `Reachable` is "some schedule leads here". Sequential code that works in place is
a method on an array or a class, proved against a function whose properties are proved as lemmas.

| part | files | what the steps or methods are |
|---|---|---|
| LAB_6 | `Runs`, `MergeInPlace`, `Blocks`, `SortModel`, `SortInvariant`, `SortSteps`, `SortRounds`, `SortClaims`, `SortTheorems`, `SortProtocol`, `SortTermination`, `SortMapping`, `SortGuard`, `SortTurns`, `SortLoss`, `SortHarm`, `Windows`, `ArgCheck`, `QsortExample` | one access to shared data, lock operation or barrier arrival per step; a merge stores one record per step, so merges interleave |
| LAB_5 | `RingQueue`, `SemQueue`, `SemQueueProofs` | one call other threads can notice per step; cancellation at cancellation points |
| LAB_4 | `RingQueue`, `KillQueue`, `KillQueueProofs`, `KillQueueLife` | one assignment of `put_msg`/`get_msg` per step; a kill of the youngest child at any point; a child's overflow exit kills main and leaves the other children running |
| LAB_4, LAB_5 messages | `Checksum`, `Messages` | the checksum loop and the message buffer |
| LAB_7/p1 | `Monitor` | lock, test, wait, signal and unlock are separate steps; spurious wakeups are acts of their own |
| LAB_7/p2 | `RecordStore` | file bytes, and one session of the program |
| LAB_8 | `Packet` | in-memory packets and buffers |

The step functions of LAB_6 are `StepLoop` (thread.c:196-202 and 151), `StepSort` (129-147),
`StepChunk` (103, 210-216, with `StepAdvance` for 211-213 and 58), `StepHalve` (105-110),
`StepClaim` (112-120) and `StepMerge` (79-100); of LAB_5 `ProducerStep` and `ConsumerStep` (producer.c:46-65, consumer.c:46-65); of
LAB_4 the functions of the same names (producer.c:45-60 with ipc.c:29-44, consumer.c:46-61 with
ipc.c:46-61); of LAB_7/p1 `MoveOf` (producer.c:34-52, consumer.c:35-56, main.c:83-115).

What the model of LAB_6 takes for granted, because the program does not enforce it:

- `memsize` is positive and `blocks` divides it (`Valid`), and `memsize` divides `FILESIZE`
  (`Tiled`). `AcceptedTilesIff` says exactly which numbers of blocks secure the first for
  everything the argument check accepts: those of at most a page.
- The byte offset of the last chunk fits an `int` (`Mappable`), because `openFile` converts it to
  one. `MappingExact`: some run takes main to a chunk whose window it has not mapped exactly when
  this fails. An offset that mmap refuses, or at which no chunk starts, ends the model's run.
- `qsort` of a block is one step and a function of the block's contents that sorts and permutes
  it. The time marks are real numbers, so they are totally ordered.
- The word just past the claim map, which the first merge round reads, is busy or holds -1
  (`Guarded`). It is one word (`Config.over`), the same for the map of every chunk, though each
  chunk gets a new map. `GuardExact`: in some run it sends a thread to a merge exactly when this
  fails. If the word names no two runs of the window, that merge leaves the window. If it does,
  the merge can run beside the one of a claimed pair, copy a pair half merged, and write some
  records twice where others are lost: `LossIff` says that complete runs can lose records exactly
  then, and `HarmfulLoses` gives the file and the run for every valid configuration.
- Main restores `BLOCKS` at the end of a chunk only when every worker has left the test
  `BLOCKS > 4` (`Prompt`). `RestoreSafeIffNoWorkerTests` shows that this condition is exactly
  what is needed, `RaceReachable` that the program can break it on every non-empty file, and
  `RaceStrands` that after the last chunk the overtaken thread then comes to no end of its own.

Results about code that does not do what it seems meant to do:

- LAB_5's overflow exit can be reached, because `free_space` starts one above the amount at
  which `put_msg` exits (`OverflowReachableIff`, `ProgramOverflows`).
- LAB_4's mutex is lost for good as soon as the process that holds it is killed, or takes the
  overflow exit, and by nothing else (`UnusableOnlyByLoss`, `LossIsForever`); both happen
  (`LossesReachable`).
- LAB_4's queue can die with the mutex free: kills also take places and items with them.
  `DeadIff` says exactly which reachable states are dead, `StarvationReachable` that one with a
  free mutex can be reached, by killing producers between their two waits.
- No producer of LAB_7/p1 ever waits for room: the exit comes first (`NobodyWaitsForRoom`), and
  it can be reached (`OverflowReachable`).
- A mapping offset of 2^31 bytes or more is cut to an `int` (`MappedRecord`, `MappingExact`).
- A string sent in a LAB_8 packet arrives as that string exactly when the byte after it in the
  receiver's fresh packet happens to be zero (`StringArrivesIff`, `SendString`); with garbage
  of ones none does (`NoStringArrives`).

## Model

| member | source | states |
|---|---|---|
| MergeInPlace.Merge | LAB_6/src/sort_index/thread.c:79-100 | the window with runs `no` and `no + 1` replaced by their merge, everything else in place |
| MergeInPlace.MergeBack | LAB_6/src/sort_index/thread.c:83-98 | the three loops write the merge of the two copies over the pair |
| Runs.MergeSeqPermutes | LAB_6/src/sort_index/thread.c:79-100 | a merge loses and invents no record |
| Runs.MergeSeqSorted | LAB_6/src/sort_index/thread.c:79-100 | the merge of two sorted runs is sorted |
| Runs.MergeSeqTies | LAB_6/src/sort_index/thread.c:86-90 | not stable: among equal marks the whole right run comes first, each run in its own order |
| Runs.MergePairsSorted | LAB_6/src/sort_index/thread.c:102-127 | a round turns sorted runs of length n into sorted runs of length 2n |
| Runs.MergeAllSorts | LAB_6/src/sort_index/thread.c:102-127 | all rounds together sort the window and permute it |
| Runs.MergeAllTies | LAB_6/src/sort_index/thread.c:86-90 | equal marks end up block by block, the last block first |
| Blocks.AllPairsMerged | LAB_6/src/sort_index/thread.c:112-124 | if every pair holds its merge, in whatever order they were made, the window is one round further |
| SortTheorems.StepKeepsInv | LAB_6/src/sort_index/thread.c:79-217 | every step of every participant and every opening of the barrier keeps the invariant, unless it restores BLOCKS too early, maps a chunk wrongly or goes from the extra visit to a merge |
| SortSteps.SortingComplete | LAB_6/src/sort_index/thread.c:129-147 | with all participants past the scan, every block has been sorted, only block `amount` possibly twice |
| SortRounds.StoreInto | LAB_6/src/sort_index/thread.c:85-98 | each store of a merge writes the next record of the merge, so that written part and rest stay the same whole |
| SortClaims.CopiedRuns | LAB_6/src/sort_index/thread.c:81-82 | a claimed pair still holds its runs of the round's beginning when they are copied out |
| SortClaims.StorePairs | LAB_6/src/sort_index/thread.c:85-98 | a store into one pair leaves what others have merged of theirs |
| SortClaims.RoundComplete | LAB_6/src/sort_index/thread.c:112-124 | when everybody has left the claim loop, each pair has been merged once and the window is one round further |
| SortTheorems.TargetSorted | LAB_6/src/sort_index/thread.c:129-147 | what a chunk becomes is sorted, a permutation, with equal marks in reverse block order |
| SortTheorems.EndToEnd | LAB_6/src/sort_index/thread.c:79-217 | after any complete run every chunk is sorted by time mark and a permutation of what was mapped, provided the last offset fits an int |
| SortTheorems.SortedBlocksAreRuns | LAB_6/src/sort_index/thread.c:129-147 | after the sort phase the window is a row of sorted runs holding the old records |
| SortTheorems.ScheduleIndependence | LAB_6/src/sort_index/thread.c:102-147 | every complete run leaves the file that sorting each block once and merging bottom-up on one thread leaves |
| SortTheorems.ChunkSpecified | LAB_6/src/sort_index/thread.c:72-147 | without a word about merging: what a chunk becomes is the one sequence that is sorted and has equal marks as in the sorted blocks, the last block first |
| SortTheorems.FileSorted | LAB_6/src/sort_index/thread.c:196-217 | the same for the stretches of memsize records of the whole file, with the bound on the offset written out |
| SortProtocol.Lockstep | LAB_6/src/sort_index/thread.c:149-165 | all participants are in the same phase, and whoever waits waits at the same barrier call |
| SortProtocol.ResetsOnlyAtBarrier | LAB_6/src/sort_index/thread.c:105-110 | only main changes BLOCKS or frees map entries, and only while everybody else is held at the barrier |
| SortProtocol.MergesDisjoint | LAB_6/src/sort_index/thread.c:112-124 | merges under way at the same time work on disjoint stretches inside the window |
| SortProtocol.RoundMergesEachPairOnce | LAB_6/src/sort_index/thread.c:112-124 | when the round's last barrier opens, each even index below BLOCKS was claimed and merged exactly once |
| SortProtocol.ExtraVisitDoesNothing | LAB_6/src/sort_index/thread.c:112-119 | no pair is merged twice, and the visit `i == BLOCKS` leads to no merge; after the first round it finds a busy entry and changes nothing |
| SortProtocol.SortCoverage | LAB_6/src/sort_index/thread.c:129-147 | when the barrier after sortPhase opens, every block was sorted once, block `amount` once or twice |
| SortProtocol.RoundCount | LAB_6/src/sort_index/thread.c:102-125 | a chunk takes log2(blocks) - 1 rounds before main's last merge is done |
| SortProtocol.RestoreSafeIffNoWorkerTests | LAB_6/src/sort_index/thread.c:215 | restoring BLOCKS keeps all later runs in lockstep exactly when no worker is still at the test BLOCKS > 4 |
| SortTermination.StepLowersMeasure | LAB_6/src/sort_index/thread.c:79-217 | every step of the whole system lowers a measure that is never negative |
| SortTermination.SomebodyMoves | LAB_6/src/sort_index/thread.c:79-217 | until all threads are done, some prompt step is possible: no deadlock |
| SortTermination.SchedulesAreBounded | LAB_6/src/sort_index/thread.c:196-217 | no schedule from a state is longer than its measure |
| SortTermination.EveryRunEnds | LAB_6/src/sort_index/thread.c:196-217 | every run ends, and a run that cannot go on has brought all threads to their end |
| SortTermination.Completion | LAB_6/src/sort_index/thread.c:196-217 | wherever a run has got to, it can be brought to the end of all threads |
| SortTermination.CompleteRunExists | LAB_6/src/sort_index/thread.c:196-217 | every valid configuration has a complete run on every file, so the theorems about complete runs are not empty |
| SortTermination.RaceReachable | LAB_6/src/sort_index/thread.c:215 | on every non-empty file some schedule lets main restore BLOCKS after the last chunk while a worker is at its test |
| SortTermination.RaceStrands | LAB_6/src/sort_index/thread.c:151-165 | once a worker has been overtaken after the last chunk, no continuation brings all threads to their end |
| SortTheorems.MapsRightIff | LAB_6/src/sort_index/thread.c:58 | openFile maps chunk j where it lies exactly when its byte offset fits an int |
| SortMapping.MappingExact | LAB_6/src/sort_index/thread.c:211-213 | some run takes main to a chunk it has not mapped exactly when the offset of the last chunk does not fit an int |
| SortGuard.VisitReached | LAB_6/src/sort_index/thread.c:112-119 | in every valid configuration some run comes to read the word past the claim map as it was found |
| SortGuard.GuardExact | LAB_6/src/sort_index/thread.c:112-122 | in some run that word sends a thread to a merge exactly when it reads as free and is not -1; if it names no pair, the merge leaves the mapped window |
| SortGuard.LoneMerge | LAB_6/src/sort_index/thread.c:79-100 | a merge of the first round that nobody disturbs, the extra one included, replaces the two runs by the merge of what they hold at that moment and changes nothing else |
| SortLoss.RoundLoses | LAB_6/src/sort_index/thread.c:112-122 | a disturbed one does not: if the word names two runs, a schedule leads on a suitable chunk from the round's beginning to everybody at its last barrier with a run of the pair written over by the records of the other |
| SortHarm.HarmfulLoses | LAB_6/src/sort_index/thread.c:112-122 | for every valid configuration with such a word there is a file and a complete run that loses records of it |
| SortHarm.LossIff | LAB_6/src/sort_index/thread.c:79-122 | some complete run loses records exactly when the word past the map is free, is not -1 and names two runs of the window |
| QsortExample.QsortExists | LAB_6/src/sort_index/thread.c:132 | the assumptions about qsort can be met |
| QsortExample.SmallIsValid | LAB_6/src/sort_index/sort_index.c:22-61 | it is accepted by the argument check with pages of 4096 bytes and meets the assumptions, whatever the word past the map |
| QsortExample.SmallRunEnds | LAB_6/src/sort_index/sort_index.c:22-61 | a concrete configuration has a complete run on every file whose offsets fit |
| Windows.CutWindows | LAB_6/src/sort_index/thread.c:211-213 | the windows partition the records, and window j starts at record j * memsize |
| Windows.JoinCut | LAB_6/src/sort_index/thread.c:211-213 | the windows together are the file |
| Windows.MappedRecord | LAB_6/src/sort_index/thread.c:55-59 | `idx[j]` of a mapping is global record curSize + j exactly when the byte offset fits an int |
| Windows.ChunkOffsetAligned | LAB_6/src/sort_index/thread.c:211-213 | the offset of each chunk is a multiple of the page size |
| ArgCheck.CheckArgs | LAB_6/src/sort_index/sort_index.c:17-60 | exactly which arguments lead to createThreads and to each error code; `blocks` must be a positive power of two |
| ArgCheck.AcceptedArgsAreValid | LAB_6/src/sort_index/sort_index.c:22-61 | accepted arguments with positive memsize and at most a page of blocks make a valid configuration |
| ArgCheck.AcceptedTilesIff | LAB_6/src/sort_index/sort_index.c:22-60 | for a number of blocks the check accepts, every positive memsize it accepts is divided by it exactly when it is at most a page |
| Checksum.Hash | LAB_5/src/ipc.c:10-18 | the loop computes the 64-bit accumulator cut to 16 bits, from the size alone |
| Checksum.AccumulatedIsPolynomial | LAB_5/src/ipc.c:13-15 | the accumulator is 5381·33^n + Σ j·33^(n-1-j) modulo 2^64 |
| Checksum.ChecksumIsPolynomial | LAB_4/src/ipc.c:10-16 | the checksum is that number modulo 2^16 with n = size + 4 |
| Checksum.TermsClosed | LAB_4/src/ipc.c:12-14 | the sum in closed form: 1024·Σ + 32n + 1 = 33^n |
| Messages.Buffer.Produce | LAB_5/src/producer.c:67-82 | the whole message after produce_msg, which carries its own checksum; value 256 keeps the old size |
| Messages.Buffer.Consume | LAB_5/src/consumer.c:67-76 | the message is left as it was, and a mismatch is reported exactly when its checksum is wrong |
| RingQueue.PutHolds | LAB_5/src/ipc.c:30-38 | a put adds the message behind all others, gives out its number and overwrites no live slot |
| RingQueue.GetHolds | LAB_5/src/ipc.c:47-55 | a get hands out the oldest message and its number |
| RingQueue.IndicesFollowCounters | LAB_5/src/ipc.c:30-38 | head and tail agree with the counters modulo the ring size through the lazy wrap and the wrap at 2^64 |
| RingQueue.MsgQueue.constructor | LAB_5/src/ipc.c:20-22 | the new queue is the empty queue |
| RingQueue.MsgQueue.PutMsg | LAB_5/src/ipc.c:24-39 | the new queue and the returned number, for whatever history the queue held; exit exactly at MSG_MAX - 1 |
| RingQueue.MsgQueue.GetMsg | LAB_5/src/ipc.c:41-56 | the first message not yet taken of that history and its number; exit exactly when empty |
| SemQueueProofs.StepKeepsInv | LAB_5/src/producer.c:35-65 | conservation, order and mutual exclusion survive every step, creation and cancellation |
| SemQueueProofs.TokensConserved | LAB_5/src/init_and_exit.c:35-38 | places and messages are conserved exactly in every reachable state, so the underflow exit is never taken |
| SemQueueProofs.FifoWithTickets | LAB_5/src/consumer.c:46-65 | the consumer given number k receives the message whose producer was given k, and no checksum ever fails |
| SemQueueProofs.MutualExclusion | LAB_5/src/producer.c:54-56 | no two threads are between lock and unlock |
| SemQueueProofs.DeadlockFree | LAB_5/src/producer.c:49-58 | with a live producer and a live consumer and no exit taken, some thread can always take a step |
| SemQueueProofs.OverflowReachableIff | LAB_5/src/ipc.c:24-28 | the overflow exit can be reached exactly when free_space starts above the exit's threshold |
| SemQueueProofs.ProgramOverflows | LAB_5/src/init_and_exit.c:35-38 | with the program's constants it can, and the queue never holds more than MSG_MAX - 1 messages |
| KillQueueProofs.PutAssignKeeps | LAB_4/src/ipc.c:35-41 | each assignment of put_msg leads from one accounted-for half-done ring to the next |
| KillQueueProofs.PutCompletes | LAB_4/src/ipc.c:43 | the last one makes the ring whole, with the message added |
| KillQueueProofs.GetAssignKeeps | LAB_4/src/ipc.c:52-58 | the same for get_msg |
| KillQueueProofs.GetCompletes | LAB_4/src/ipc.c:60 | the message handed out is the oldest one, and its number is given out |
| KillQueueProofs.KillKeeps | LAB_4/src/producer.c:64-73 | a kill between any two assignments keeps the invariant |
| KillQueueProofs.StepKeepsInv | LAB_4/src/producer.c:45-73 | so does every step, every fork and every exit of a child, after which the others go on |
| KillQueueProofs.KillSafety | LAB_4/src/ipc.c:29-61 | wherever children are killed, the ring is whole while the mutex is free and whenever a live process enters, and get_msg never finds it empty |
| KillQueueProofs.TokensBounded | LAB_4/src/init_and_exit.c:67-69 | kills only lose places and items: the equations of the threads become inequalities |
| KillQueueProofs.FifoUnderKill | LAB_4/src/consumer.c:46-61 | completed gets follow completed puts number for number, and no checksum fails |
| KillQueueProofs.UnusableOnlyByLoss | LAB_4/src/ipc.c:29-33 | a step makes the mutex unusable exactly when it kills the process that holds it or is the overflow exit of that process |
| KillQueueProofs.UnusableMeansBlocked | LAB_4/src/producer.c:50-52 | unusable means that nobody alive is inside and nobody can enter |
| KillQueueProofs.BlockedForever | LAB_4/src/consumer.c:49-51 | from then on, through any run, the ring and the logs of puts and gets stay as they are |
| KillQueueProofs.LossIsForever | LAB_4/src/init_and_exit.c:75-99 | after either loss the children left over never put or get a message again |
| KillQueueProofs.LossesReachable | LAB_4/src/ipc.c:29-33 | a run from the start comes to a state in which both losses are possible |
| KillQueueLife.DoomedForever | LAB_4/src/producer.c:45-60 | once the mutex is lost or its holder about to exit, or nothing is left to get and no place or no room to put, no continuation puts or gets a message |
| KillQueueLife.DeadIff | LAB_4/src/consumer.c:46-61 | and in every other reachable state some continuation does |
| KillQueueLife.StarvationReachable | LAB_4/src/producer.c:48-50 | a run from the start comes to a dead state with the mutex free, usable and no exit taken |
| Monitor.StepKeepsInv | LAB_7/p1/src/consumer/consumer.c:35-56 | every step, spurious wakeup and creation keeps the account of messages and woken consumers |
| Monitor.NoLostWakeup | LAB_7/p1/src/consumer/consumer.c:39-46 | with the mutex free and a consumer asleep, there is a woken consumer for every message |
| Monitor.MessageFindsConsumer | LAB_7/p1/src/producer/producer.c:39-44 | so a message beside sleeping consumers always has a woken one that can take the mutex |
| Monitor.NobodyWaitsForRoom | LAB_7/p1/src/message/message.c:25-29 | nobody ever waits on cond_producer, the underflow exit is never taken, and at most one thread is inside the mutex |
| Monitor.OverflowReachable | LAB_7/p1/src/message/message.c:25-29 | the overflow exit, by contrast, is taken in some run |
| RecordStore.ReadSlot | LAB_7/p2/src/main.c:86-94 | a read at a slot's offset is the whole record of that slot or end of file |
| RecordStore.WriteSlot | LAB_7/p2/src/main.c:106-116 | a write at a slot's offset, beyond the end of the file too, is a put into that slot |
| RecordStore.LastPutWins | LAB_7/p2/src/main.c:106-116 | after any puts a slot holds the last record put there, zeros if skipped, and exists exactly when some put reached it |
| RecordStore.StoreReadsBack | LAB_7/p2/src/main.c:86-116 | the same on the bytes of the file, whose length is 0 or 168·top + 161 |
| RecordStore.Session.GetRecord | LAB_7/p2/src/main.c:86-94 | 0 and the whole record, or -1 and the struct untouched, exactly by whether the slot exists |
| RecordStore.Session.PutRecord | LAB_7/p2/src/main.c:106-116 | the slot holds the record, every other slot is as before, new ones on the way are zero; a negative slot changes nothing |
| RecordStore.Session.Add | LAB_7/p2/src/main.c:167-186 | the record goes to the first slot past the last one while that is below NUM_RECORDS, else nothing is written |
| RecordStore.Session.List | LAB_7/p2/src/main.c:96-104 | the listed records are the first NUM_RECORDS slots, as far as they exist |
| RecordStore.Session.Get | LAB_7/p2/src/main.c:218-221 | the number is kept in any case, the record only if the slot exists |
| RecordStore.Session.Put | LAB_7/p2/src/main.c:222-232 | the held record goes to the slot named last, existing or not |
| Packets.RoundTrip | LAB_8/src/protocol/protocol.h:34-69 | deserialize after serialize gives back size, payload and type, the type exactly when it is below 256, so for every enumerated type |
| Packets.EncodingIsCanonical | LAB_8/src/protocol/protocol.h:34-69 | what decodes begins with the encoding of what it decodes to |
| Packets.DecodeNeedsOnlyPrefix | LAB_8/src/protocol/protocol.h:51-69 | two buffers decode alike exactly when their first 3 + size bytes agree |
| Packets.CutFrameDecodes | LAB_8/src/client/discovery_client.h:87-89 | a frame cut to BUFFER_SIZE bytes decodes exactly when its payload has at most BUFFER_SIZE - 3 bytes |
| Packets.StreamDecodes | LAB_8/src/client/main.c:41-50 | any sequence of frames, read frame by frame, decodes to the messages sent, in order |
| Packets.StringArrivesIff | LAB_8/src/protocol/protocol.h:29-69 | a string set, serialized and deserialized is found again exactly when the garbage byte of the receiver's packet behind it is zero |
| Packets.NoStringArrives | LAB_8/src/client/discovery_client.h:87-92 | with garbage of ones no string arrives, by whole frame or by datagram |
| Packets.Packet.SetPayloadString | LAB_8/src/protocol/protocol.h:29-32 | the packet says the string without its terminator; the rest of the data array stays |
| Packets.Packet.Serialize | LAB_8/src/protocol/protocol.h:34-49 | a fresh buffer of PACKET_BUFFER_SIZE bytes that begins with the encoding |
| Packets.Deserialize | LAB_8/src/protocol/protocol.h:51-69 | a fresh packet that says what the bytes decode to over the garbage it was made of, or none where the copy would leave its objects |
| Packets.SendString | LAB_8/src/protocol/protocol.h:29-69 | the same on the packets and buffers themselves |

## Left out

- SortTheorems.EndToEnd: speaks of schedules in which main's restore of BLOCKS overtakes no worker, of a harmless word past the claim map and of offsets that fit an int, because the program is wrong without them (see SortProtocol.RestoreSafeIffNoWorkerTests, SortGuard.GuardExact and SortMapping.MappingExact); the same holds for every other theorem that mentions `Reachable` in LAB_6.
- SortTheorems.StepKeepsInv: excludes the same three steps.
- SortMapping.MappingExact: an offset that wraps to a place inside the file at which no chunk starts is treated like one that mmap refuses.
- SortGuard.LoneMerge: is about a merge that nobody disturbs; what a disturbed one can cost is SortHarm.LossIff.
- SortHarm.LossIff: is about runs that end; where the word names no two runs, the merge leaves the window and the model's run ends there.
- SortModel.Config: the word past the claim map is one parameter for all chunks, though thread.c:197 allocates the map anew for each.
- SortTermination.RaceStrands: does not model the pthread_cancel and pthread_join of joinThreads, but a thread blocked in pthread_barrier_wait is not cancelled; with BLOCKS at 2 * blocks the overtaken worker reads words far past the map, which the model treats as naming no run.
- SortProtocol.RestoreSafeIffNoWorkerTests: what the race does to the records of a chunk before the last one is not followed further.
- SortTheorems.ScheduleIndependence: needs a qsort that leaves a sorted block as it is, because block `amount` may be sorted twice; without that SortTheorems.EndToEnd says what the window can be.
- SortTheorems.FileSorted: is about files whose record count is a multiple of memsize; the mapping of a last, shorter chunk reaches past the end of the file.
- SortProtocol.ResetsOnlyAtBarrier: counts as held also a worker whose next step goes to the barrier without a look at BLOCKS or the map.
- ArgCheck.CheckArgs: does not model strtol or the range of `long`; page size and numbers are parameters.
- Windows.MappedRecord: takes the conversion of the offset to `int` as wrap-around modulo 2^32.
- Messages.Buffer.Produce: the random numbers are parameters.
- SemQueueProofs.DeadlockFree: is about states in which no exit was taken; what `exit` does to the other threads is not modelled.
- SemQueueProofs.MutualExclusion: a pthread mutex and semaphores are atomic test-and-take steps; fairness and timing are not modelled.
- KillQueueProofs.KillSafety: SIGKILL strikes between assignments, and a child's exit with the kill of main is one step; a torn copy of a message or of a counter is not modelled.
- Monitor.StepKeepsInv: does not model cancellation, see Monitor.NoLostWakeup.
- Monitor.NoLostWakeup: cancellation is not modelled (a thread cancelled in its wait dies holding the mutex), nor are buffer contents, whose indices the program never wraps; the number of threads is not limited.
- RecordStore.Session.PutRecord: `record_num * RECORD_SIZE` does not overflow, reads and writes do not fail part-way, and nobody else changes the file; the locks are left out, since the test for a lock and the taking of it are two steps and the result of the latter is ignored.
- RecordStore.Session.constructor: the file was empty at first and written by this program only.
- RecordStore.Session.Get: `strtol` is a parameter.
- Packets.Deserialize: a size that would make the copy leave the buffer or the packet gives no packet here; in C that copy is undefined.
- Packets.StreamDecodes: the receiver reads whole frames.
- MOD in LAB_7/p2: it changes only the struct in memory; its call of put_record is commented out.
- Sortedness across chunks of LAB_6: the program never merges chunks with each other.
- NaN time marks and overflow of their difference in `compare`.
- The path building, mmap, msync and munmap of LAB_6, its generator and printer, and thread creation errors.
- Semaphore and shared-memory names, exit handlers, menus and output of all programs.
- LAB_1, LAB_2 and LAB_3: processes, directories and signals with little state of their own.
- The sockets, discovery loop, commands and client barriers of LAB_8.
