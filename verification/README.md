# Message channels, barrier, snapshots and profiler: a Dafny model

The repository compares ways of passing messages between the cores of one machine: Linux kernel modules
(kbfish, kzimp, kbfishmem), benchmarks that use them (checkpointing), a thread barrier (likwid), and a sampling
profiler. This project models the protocols and stateful algorithms at its centre and proves what they promise,
for every run.

Each protocol is written in three layers:

- **functions on values**, one for each atomic step of the C code, with its branches and constants;
- **a state machine** over those steps, in any interleaving, with a history that records what an observer would
  see (messages accepted and returned, rounds entered, snapshots taken), an invariant that every step keeps, and
  theorems over all schedules;
- **classes** with the fields of the C structures, whose methods change them in place and are proved equal to the
  functions.

| Files | What they model |
|---|---|
| `RingArith`, `IntBits` | numbering the entries of a ring; `1 << i` on an `int` used in a 64-bit mask |
| `UmpWire`, `UmpProtocol`, `UmpInvariant`, `UmpPreservation`, `UmpTheorems`, `UmpCalls`, `UmpProgress`, `UmpChannel` | the UMP channel: two rings, a one-bit epoch in each control word, 16-bit sequence numbers and acknowledgements |
| `Barrier`, `BarrierTheorems`, `BarrierTurns`, `BarrierData` | likwid's sense-reversing barrier |
| `KzimpChan`, `KzimpInPlace` | kzimp's multicast ring with a bitmap of pending readers in each slot: its operations, each undisturbed |
| `KzimpProtocol`, `KzimpInvariant` | the same with any number of readers and writers, an access to shared memory at a time; the rules that a run may follow or break; the invariant |
| `KzimpReaders`, `KzimpReads`, `KzimpWriters`, `KzimpTimeouts` | every step that follows the rules keeps the invariant |
| `KzimpTheorems`, `KzimpExpulsion`, `KzimpProgress`, `KzimpTurns` | what every run that follows the rules promises |
| `KzimpApart` | the rules that are left for callers who keep timeouts and releases apart from other calls |
| `KzimpConditions`, `KzimpOpening`, `KzimpAlone`, `KzimpFailures` | the rules are exact, and each is needed: runs that break without it |
| `Snapshot`, `SnapshotInvariant`, `SnapshotPreservation`, `SnapshotTheorems`, `SnapshotInPlace`, `SnapshotLoop` | the Checkpointer: node 0 asks every other node for its checkpoint, over a network that delivers in any order |
| `RingDrain`, `RingDrainInPlace` | the profiler's `mmap_read` of a perf ring |
| `TimeMerge`, `SymbolTables` | the main loop of the sample parser, which merges files by block time, and the tables of processes and executables that it fills and searches |
| `CallerTree` | the tree of callers built from call chains |
| `DieScheduler` | the four-application, four-die scheduler |

## What the code needs, exactly

Several promises hold under conditions the code does not test. Each condition is proved to be exact, and where it is
a rule for the users of the code or for the scheduler, a run that breaks without it is given.

- **UMP**: free of deadlock exactly when the ring has at least two slots (`UmpTheorems.DeadlockFreeIff`). Messages
  carry no length: a read returns the message itself exactly when its size matches (`UmpTheorems.ReadIsMessageIff`);
  a longer read shows, after the message, what the slot held one lap earlier. The theorems assume what the code
  assumes: one end only writes, the other only reads, each is opened once, and copies to and from user space do not
  fail. Waits may be given up at any time. The ring size is the 16-bit value that open stores of channel_size
  (kbfish/kbfish.c:117-126).
- **Barrier**: safe on all interleavings exactly when no used flag starts out as 1, or there is one thread
  (`BarrierTheorems.SafeIffClean`). `posix_memalign` does not clear the area (likwid/src/barrier.c:69-72).
- **kzimp**: every reader gets its queue on all runs exactly when all ten rules of `KzimpProtocol.Rule` are followed
  (`KzimpFailures.QueuesAreKeptIff`), and a step keeps the invariant exactly when it follows them
  (`KzimpConditions.StepKeepsIff`). Nothing in the code enforces the rules; `KzimpFailures` gives a run from a fresh
  channel for each one that is dropped. A caller can keep the rules about opens, bits and claims; the others hold by
  themselves on runs on which no timeout and no release overlaps another call (`KzimpApart.QueuesOfCallersApart`).
  All lines below are of kzimp/kzimp_allMessagesArea/kzimp_main.c.
  - *BitsTestable*: `reader_can_read` shifts an `int`, so as compiled for x86-64 it is right exactly for the first 32
    of the 64 bits handed out. A 33rd reader takes a message twice.
  - *OpensWithoutWrites*: when a reader opens, every write under way has loaded the mask (546), without its bit;
    otherwise the new reader may be marked for a message claimed before (`KzimpOpening.OpenHarmsIff`).
  - *BitsNotListed*, *BitsNotLeft*: `get_new_bitmap_bit` (100-117) may hand out the bit of an expelled reader that is
    still listed, or one that `kzimp_release`, which has dropped the lock (206), is still clearing (208-211).
  - *SlotsNotShared*: the FIXME at 556-558 speaks of the number of writers; what keeps a slot to one unfinished write
    is that no unfinished write holds the next slot (`KzimpConditions.ClaimIsExclusiveIff`). Its sentence "We assume
    the channel size is less than the number of writers" says the opposite of what it means.
  - *ClaimsKept*: a write that gives up (500, 508, 588) leaves its slot claimed and unpublished.
  - *FillsAwayFromReaders*: `handle_timeout` empties the slots (418-432) before it marks the readers offline
    (434-443); in between, a writer may fill a slot that an expelled reader is still copying and will deliver.
  - *StoresOfCurrentMasks*: `kzimp_finalize_write` loads the mask and stores it without the lock (546); a timeout or
    a release in between makes it stale.
  - *StoresApart*, *ClearsApart*: `msgs[i].bitmap &= ~bitmap` (430) is a load and a store. The test for 0 (428) is
    there for a publication in between, as the comment at 421-427 says, but the bitmap may become 0, and be
    published, after the test; a reader's own `clear_bit` in between is undone as well.
- **Checkpointer**: every snapshot that is counted was answered by every node exactly when there are at most 33
  nodes, because nodes 1 and 33 share a bit (`SnapshotTheorems.SnapshotsAreCompleteIff`); every run ends with all
  snapshots taken exactly when there are at least two nodes (`SnapshotTheorems.AllSnapshotsFinishIff`). Nothing
  raises node 0's checkpoint number, so no request ever makes a node take a checkpoint
  (`SnapshotTheorems.NoCheckpointIsTaken`); the general statement is proved for any initial numbers.
- **Ring drain**: a call dumps the new bytes exactly when they fit in the ring (`RingDrain.DrainIsExactIff`); the
  code tests only for a negative difference. A kernel that appends only as far as `data_tail` allows makes the
  condition hold in every run, also when it appends in the middle of a call (`RingDrain.NothingIsLost`).
- **Merge**: a file is read up to its first "###END HEADER". Blocks come out in time order exactly when each file's
  blocks are in time order, and the loop dies exactly when what is read of some file does not start with a write
  event, or holds one of these (`TimeMerge.Merge`): a record of unknown type; a write event that has failed, is
  numbered MAX_EVT or more or is dated 2^64 - 1; a throttling record, unless --force is given; the mapping of a file
  that can be opened but that libelf cannot read; or a sample that passes the filters before it and then meets
  --ltid, --ignore-samples or --ttid, none of which can work as `type` is always 0 (profiler/parser-sampling.c:147),
  or that lies in a block of core MAX_CORE or more. Nothing that a sample looks up ends the program: the two deaths
  "Cannot find file" (profiler/events.c:174, 292) never happen, because every mapped file has been parsed
  (`SymbolTables.Tables.AddSample`). This takes a table of kernel symbols that is not empty.

## Model

| member | source | states |
|---|---|---|
| UmpWire.LapBack | kbfish/kbfish.h:185-192 | the slot a lap earlier is the same one and carries the opposite epoch |
| UmpWire.AdvanceIsSuccessor | kbfish/kbfish.h:187-192 | advancing position and epoch, with the 16-bit increment, is the successor of an unbounded message number |
| UmpWire.WrappedDifference | kbfish/kbfish.h:217-226 | a 16-bit difference is the true one as long as that fits |
| UmpInvariant.InvInitially | kbfish/kbfish.c:109-137 | the state after both opens satisfies the invariant for every ring of two slots or more |
| UmpInvariant.SenderWindowTest | kbfish/kbfish.h:217-220 | the sender's wrapping test equals the test on true counts while no write is under way |
| UmpInvariant.DataPoll | kbfish/kbfish.h:235-246 | the receiver's poll succeeds iff a published message is unread |
| UmpInvariant.AckPoll | kbfish/kbfish.h:235-246 | the sender's poll succeeds iff an ACK is waiting |
| UmpPreservation.SenderKeeps | kbfish/kbfish.c:389-445 | every step of a write keeps the invariant: window, epochs, headers and contents of all unread slots |
| UmpPreservation.ReceiverKeeps | kbfish/kbfish.c:192-307 | every step of a read keeps the invariant, including the copy and the ACK it may send |
| UmpPreservation.StepKeeps | kbfish/kbfish.c:192-445 | every step of either end keeps the invariant, in any interleaving |
| UmpPreservation.RunKeeps | kbfish/kbfish.c:192-445 | every schedule keeps the invariant |
| UmpTheorems.FifoExactlyOnce | kbfish/kbfish.c:192-445 | read number i returns message number i of those published, once, in order, cut or extended to the size asked for, on the first lap with zeros; reads never run ahead of writes |
| UmpTheorems.ReadIsMessageIff | kbfish/kbfish.c:251-262 | a read returns exactly the message iff the size it copies is the message's own length |
| UmpTheorems.ReaderSeesWholeMessage | kbfish/kbfish.c:251-262 | during a read's copy its slot holds the whole message and is not the slot being written |
| UmpTheorems.EpochBitIsExact | kbfish/kbfish.h:235-273 | on both rings and over any number of laps, poll finds a message iff one is unread |
| UmpTheorems.WrappingTestsAreExact | kbfish/kbfish.h:217-226 | both 16-bit tests equal the tests on unbounded counts, and at most n - 1 messages are unread |
| UmpTheorems.ClaimedSlotIsFree | kbfish/kbfish.h:177-195 | the slot being filled is the slot of no unread message |
| UmpTheorems.AcksNeverFail | kbfish/kbfish.c:272-375 | the -EIO branches are never taken, at most one ACK is in flight, recv_ack takes only ACKs, and an ACK that is due can be sent |
| UmpTheorems.OneAckEndsTheWait | kbfish/kbfish.c:416-424 | after one ACK the sender can send, and its window has grown by n - 1 |
| UmpTheorems.OtherTypesAreSkipped | kbfish/kbfish.c:242-306 | a message of another type is not returned: the read sends the ACK that may be due and waits again, or fails when it cannot |
| UmpTheorems.NoMessageFails | kbfish/kbfish.c:235-240 | a call that finds no message after its wait fails and changes nothing |
| UmpTheorems.OneSlotDeadlocks | kbfish/kbfish.c:215-232 | with one slot, a write and a read block each other at once |
| UmpTheorems.DeadlockFreeIff | kbfish/kbfish.c:416-424 | no reachable state has both ends blocked iff there are at least two slots |
| UmpCalls.StepServes | kbfish/kbfish.c:192-445 | every step keeps what has been published, followed by the write under way, equal to the arguments of the writes that were called and not given up; reads and their sizes likewise |
| UmpCalls.WritesReachReads | kbfish/kbfish.c:192-445 | from call to call, for every run: write number i of those not given up is what read number i of those not given up returns, for the size that the read was called with |
| UmpCalls.WriteIsSent | kbfish/kbfish.c:389-445 | from every reachable state without a write under way, an accepted write that has returned has published its message and nothing else |
| UmpCalls.ReadIsAnswered | kbfish/kbfish.c:192-307 | from every reachable state without a read under way, a read that has returned has returned one message, for its size |
| UmpProgress.SenderReturns | kbfish/kbfish.c:389-445 | a write that is not blocked returns, in any order of turns, once it has had as many as it has steps left |
| UmpProgress.ReceiverReturns | kbfish/kbfish.c:192-307 | the same for a read |
| UmpProgress.SomeCallReturns | kbfish/kbfish.c:192-445 | for every order of turns that gives each call as many as it has steps left, one of the two calls returns |
| UmpProgress.PendingCallsReturn | kbfish/kbfish.c:192-445 | the same from every reachable state |
| UmpChannel.UmpEnd.constructor | kbfish/kbfish.c:109-137 | one end after open |
| UmpChannel.UmpEnd.GetNext | kbfish/kbfish.h:177-195 | returns the old slot and epoch and advances only the send position, as a successor |
| UmpChannel.UmpEnd.PollNext | kbfish/kbfish.h:235-246 | true iff the slot at the receive position carries the awaited epoch |
| UmpChannel.UmpEnd.Receive | kbfish/kbfish.h:256-273 | advances only the receive position, and only if a message is there |
| UmpChannel.UmpEnd.Fill | kbfish/kbfish.h:198-205 | the header sent; records the acknowledgement and counts the message |
| UmpChannel.UmpEnd.Process | kbfish/kbfish.h:208-214 | takes the acknowledgement, counts the message and returns its type |
| UmpChannel.Kbfish.constructor | kbfish/kbfish.c:109-137 | both ends opened over two cleared rings |
| UmpChannel.Kbfish.StepWaiting | kbfish/kbfish.c:416-427 | one turn of the send wait, in place, is the specified step of the sender |
| UmpChannel.Kbfish.StepTakeAck | kbfish/kbfish.c:350-374 | taking an ACK, in place, is the specified step |
| UmpChannel.Kbfish.StepCopyIn | kbfish/kbfish.c:430-439 | each byte copied and the control word published last, in place, are the specified steps |
| UmpChannel.Kbfish.StepTakeMessage | kbfish/kbfish.c:215-243 | one turn of the receive wait, or taking a message, in place |
| UmpChannel.Kbfish.StepCopyOut | kbfish/kbfish.c:251-263 | each byte copied out, in place |
| UmpChannel.Kbfish.StepAcknowledge | kbfish/kbfish.c:272-306 | the ACK test and the ACK itself, in place |
| UmpChannel.Kbfish.StepSender | kbfish/kbfish.c:389-445 | every step of a write, in place, is the specified one |
| UmpChannel.Kbfish.StepReceiver | kbfish/kbfish.c:192-307 | every step of a read, in place, is the specified one |
| UmpChannel.Kbfish.Drive | kbfish/kbfish.c:192-445 | a whole schedule run in place ends in the state of the specified run, and in the invariant if it starts in it |
| Barrier.CheckIsExact | likwid/src/barrier.c:139-145 | a spinning thread finds the awaited value iff the other thread has entered the round, although flags repeat with period four |
| Barrier.EnterWrites | likwid/src/barrier.c:137 | the store goes to the thread's own int of the round's parity, 16 ints apart in its 32 |
| Barrier.CheckReads | likwid/src/barrier.c:139-145 | a check goes on exactly when the next thread's int has the value awaited, and changes nothing else |
| Barrier.StepKeeps | likwid/src/barrier.c:132-152 | every store, check and leave keeps the invariant |
| Barrier.RunKeeps | likwid/src/barrier.c:132-152 | every schedule keeps the invariant |
| BarrierTheorems.BarrierIsSafe | likwid/src/barrier.c:132-152 | nobody leaves a round before everybody has entered it, and rounds differ by at most one |
| BarrierTheorems.AwaitedFlagStays | likwid/src/barrier.c:137-145 | an awaited flag, once set, is not overwritten before its waiter has left the round |
| BarrierTheorems.SpinThrough | likwid/src/barrier.c:139-151 | with all remaining flags set, a thread leaves after one check each |
| BarrierTheorems.SlowestThreadLeaves | likwid/src/barrier.c:132-152 | with everybody inside, a thread that has entered fewest rounds can leave on its own |
| BarrierTheorems.BarrierProgress | likwid/src/barrier.c:132-152 | with everybody inside, some check succeeds |
| BarrierTurns.ThreadLeaves | likwid/src/barrier.c:137-151 | once everybody has entered a round, a thread leaves it after as many turns as it has flags left to check and one more, in any order of turns |
| BarrierTurns.EverybodyLeaves | likwid/src/barrier.c:132-152 | with everybody in a round, every order of turns that gives each thread in it enough takes everybody out of it |
| BarrierTurns.EveryRoundEnds | likwid/src/barrier.c:132-152 | from every reachable state, every fair order of turns takes everybody through any number of rounds |
| BarrierTheorems.DirtyFlagBreaks | likwid/src/barrier.c:69-72 | for each used flag that starts as 1, a schedule on which some thread leaves too early |
| BarrierTheorems.SafeIffClean | likwid/src/barrier.c:69-72 | safe on all schedules iff no used flag starts as 1, or there is one thread |
| BarrierInPlace.BarrierData.constructor | likwid/src/barrier.c:83-122 | the index loop puts the thread itself first and every other thread once |
| BarrierInPlace.BarrierData.Enter | likwid/src/barrier.c:137 | the store, in place, on the shared array |
| BarrierInPlace.BarrierData.Check | likwid/src/barrier.c:139-151 | one check, or the flip of value and offset that leaves the round |
| KzimpChan.ReaderTestIsExact | kzimp/kzimp_allMessagesArea/kzimp.h:163-166 | for the first 32 bits the shifted, extended and truncated test is on the reader's own bit |
| KzimpChan.ReaderTestIsExactIff | kzimp/kzimp_allMessagesArea/kzimp.h:163-166 | of the 64 bits handed out, the test is right on all bitmaps iff the bit is below 32 |
| KzimpChan.FirstZero | kzimp/kzimp_allMessagesArea/kzimp_main.c:104-105 | the least clear bit from a position on |
| KzimpChan.NewBitIff | kzimp/kzimp_allMessagesArea/kzimp_main.c:100-117 | a bit is handed out exactly while one of the 64 is free, and it is the least |
| KzimpChan.OpenWhenFull | kzimp/kzimp_allMessagesArea/kzimp_main.c:153-158 | a reader that finds all bits taken is listed without one |
| KzimpReaders.OpenKeeps | kzimp/kzimp_allMessagesArea/kzimp_main.c:143-160 | opening a reader keeps the invariant |
| KzimpReaders.CloseKeeps | kzimp/kzimp_allMessagesArea/kzimp_main.c:195-206 | the locked part of a release, of an online or expelled reader, keeps the invariant |
| KzimpReads.LeaverKeeps | kzimp/kzimp_allMessagesArea/kzimp_main.c:208-211 | every turn of the release's loop over the slots, in the middle of anything else, keeps the invariant |
| KzimpReaders.SetBitMeansNext | kzimp/kzimp_allMessagesArea/kzimp_main.c:239 | an online reader's bit at its own slot means its next claim is published there, held by the slot and filled by nobody |
| KzimpReads.ReaderKeeps | kzimp/kzimp_allMessagesArea/kzimp_main.c:357-397 | every access of a read keeps the invariant |
| KzimpReads.FinishKeeps | kzimp/kzimp_allMessagesArea/kzimp_main.c:309-343 | clearing the reader's bit and moving it on keeps the invariant |
| KzimpWriters.ClaimKeeps | kzimp/kzimp_allMessagesArea/kzimp_main.c:488-491 | claiming a slot keeps the invariant |
| KzimpWriters.WritersApart | kzimp/kzimp_allMessagesArea/kzimp_main.c:488-491 | two unfinished writes never share a slot |
| KzimpWriters.CaptureKeeps | kzimp/kzimp_allMessagesArea/kzimp_main.c:409 | capturing a bitmap, which may be out of date when the lock is taken, keeps the invariant |
| KzimpWriters.FillStepKeeps | kzimp/kzimp_allMessagesArea/kzimp_main.c:584-589 | every byte copied into a slot, and its length, disturbs no message that somebody still has to read |
| KzimpWriters.LoadKeeps | kzimp/kzimp_allMessagesArea/kzimp_main.c:546 | the mask loaded without the lock has exactly the readers that have not passed the claim |
| KzimpWriters.PublishKeeps | kzimp/kzimp_allMessagesArea/kzimp_main.c:546 | storing a mask that is current, while no timeout has the slot loaded, keeps the invariant |
| KzimpTimeouts.AcquireKeeps | kzimp/kzimp_allMessagesArea/kzimp_main.c:411-416 | a timeout taking the lock and taking its captured bits out of the mask keeps the invariant |
| KzimpTimeouts.StoreSlotKeeps | kzimp/kzimp_allMessagesArea/kzimp_main.c:428-431 | its store to a slot keeps the invariant, although the value was loaded earlier |
| KzimpTimeouts.MarkKeeps | kzimp/kzimp_allMessagesArea/kzimp_main.c:434-443 | marking one reader offline keeps the invariant |
| KzimpTimeouts.UnlockKeeps | kzimp/kzimp_allMessagesArea/kzimp_main.c:445 | giving the lock back keeps the invariant |
| KzimpTimeouts.StepKeeps | kzimp/kzimp_allMessagesArea/kzimp_main.c:126-594 | every step that follows the rules keeps the invariant |
| KzimpTimeouts.RunKeeps | kzimp/kzimp_allMessagesArea/kzimp_main.c:126-594 | every run of such steps keeps the invariant |
| KzimpTheorems.OneQueuePerReader | kzimp/kzimp_allMessagesArea/kzimp_main.c:309-343 | on every run that follows the rules, each reader, present or released, has got the messages claimed from its open on, in claim order, once each |
| KzimpTheorems.ReadableIffNextPublished | kzimp/kzimp_allMessagesArea/kzimp_main.c:239 | a reader that no timeout is about to expel can read iff its next claim is published; one that is, only if |
| KzimpTheorems.BitmapIsExact | kzimp/kzimp_allMessagesArea/kzimp_main.c:494-524 | the bit of a reader that no timeout is about to expel is set in a slot iff it still has to read the slot's last published claim; any other set bit is about to be cleared |
| KzimpTheorems.SlotStaysDuringRead | kzimp/kzimp_reader_splice/kzimp_main.c:708-732 | between START_READ and FINISH_READ nobody changes the message of an online reader, whoever else is released |
| KzimpTheorems.MaskIsOnlineReaders | kzimp/kzimp_allMessagesArea/kzimp_main.c:186-217 | between timeouts the mask is the set of online readers' bits, and with no release under way every slot bitmap lies within it |
| KzimpExpulsion.TimeoutExpelsCaptured | kzimp/kzimp_allMessagesArea/kzimp_main.c:401-446 | over a whole timeout, whatever runs meanwhile, exactly the captured readers go offline, their bits are cleared everywhere, and the writer's slot is free |
| KzimpExpulsion.StoreClearsOnlyCaptured | kzimp/kzimp_allMessagesArea/kzimp_main.c:428-431 | the store of a timeout takes the captured bits out of a slot and no others |
| KzimpProgress.BlockersCanRead | kzimp/kzimp_allMessagesArea/kzimp_main.c:316-334 | every reader blocking the oldest waiting writer stands at its slot and can read |
| KzimpProgress.ReadFinishes | kzimp/kzimp_allMessagesArea/kzimp_main.c:357-397 | a reader that can read finishes on its own, wherever it stands, and takes its bit, and no other, out of its slot |
| KzimpProgress.ReleaseClears | kzimp/kzimp_allMessagesArea/kzimp_main.c:208-211 | a release under way takes its bit out of the awaited slot on its own |
| KzimpProgress.BlockerClears | kzimp/kzimp_allMessagesArea/kzimp_main.c:488-513 | whoever has set a bit of the awaited slot takes it out on its own |
| KzimpProgress.WriterUnblocks | kzimp/kzimp_allMessagesArea/kzimp_main.c:488-513 | readers and releases alone empty the awaited bitmap, in a bounded number of steps for each set bit |
| KzimpTurns.ReaderClearsInTurn | kzimp/kzimp_allMessagesArea/kzimp_main.c:357-397 | a reader that blocks the oldest waiting writer clears its bit after as many turns as its read has steps left, whatever others, other writers included, do between them |
| KzimpTurns.ReleaseClearsInTurn | kzimp/kzimp_allMessagesArea/kzimp_main.c:208-211 | the same for a release |
| KzimpTurns.UnblocksInAnyOrder | kzimp/kzimp_allMessagesArea/kzimp_main.c:488-513 | for every order of turns that gives everybody who blocks it as many as it has steps left, the oldest waiting writer's slot is free at the end, and its next turn ends its wait |
| KzimpApart.FilledSlotIsUnread | kzimp/kzimp_allMessagesArea/kzimp_main.c:418-443 | with the lock free, no slot that is about to be filled is copied by an online reader |
| KzimpApart.ApartFollows | kzimp/kzimp_allMessagesArea/kzimp_main.c:126-594 | when timeouts and releases overlap no other step, and begin during no write past its wait, a step that follows the rules about opens, bits and claims follows all ten |
| KzimpApart.CallsApartAreApart | kzimp/kzimp_allMessagesArea/kzimp_main.c:126-594 | this is so in particular when timeouts and releases overlap no other call |
| KzimpApart.QueuesOfCallersApart | kzimp/kzimp_allMessagesArea/kzimp_main.c:309-343 | on all such runs every reader gets its queue |
| KzimpConditions.StepKeepsIff | kzimp/kzimp_allMessagesArea/kzimp_main.c:126-594 | from any state that satisfies the invariant, a step keeps it iff it follows the rules |
| KzimpConditions.ClaimIsExclusiveIff | kzimp/kzimp_allMessagesArea/kzimp_main.c:556-558 | after a claim every slot belongs to one unfinished write iff none held the claimed slot before |
| KzimpConditions.ReissuedBitIsOffline | kzimp/kzimp_allMessagesArea/kzimp_main.c:104-110 | a bit handed out again can only be held by an expelled reader |
| KzimpConditions.BitMustBeUnused | kzimp/kzimp_allMessagesArea/kzimp_main.c:201 | the mask survives the release of every reader after an open iff the new bit was held by nobody |
| KzimpOpening.OpenHarmsIff | kzimp/kzimp_allMessagesArea/kzimp_main.c:546 | after an open, some write under way marks the new reader for its own older claim, or expels it, iff some write under way has not loaded a mask without the reader's bit |
| KzimpAlone.WriteAlone | kzimp/kzimp_allMessagesArea/kzimp_main.c:469-594 | the steps of a write to a slot that nobody holds or copies, undisturbed, are the whole operations Claim, Fill and Publish |
| KzimpAlone.ReadAlone | kzimp/kzimp_allMessagesArea/kzimp_main.c:357-397 | the steps of a read, undisturbed, return what the slot holds and are the whole operation FinalizeRead |
| KzimpAlone.ExpelledReadAlone | kzimp/kzimp_allMessagesArea/kzimp_main.c:336-340 | the rest of an expelled reader's read, undisturbed, leaves the channel and every queue as they are, as FinalizeRead does |
| KzimpAlone.GivenUpReadTakesNothing | kzimp/kzimp_allMessagesArea/kzimp_main.c:241-253 | a read given up before it is finished takes nothing |
| KzimpAlone.GivenUpWriteLeavesItsSlot | kzimp/kzimp_allMessagesArea/kzimp_main.c:497-510 | a write given up leaves its slot claimed and as it is |
| KzimpAlone.BlockedCallsWait | kzimp/kzimp_allMessagesArea/kzimp_main.c:239-261 | calls that must wait for a bit, a free slot or the lock change nothing |
| KzimpAlone.ReleaseAlone | kzimp/kzimp_allMessagesArea/kzimp_main.c:195-212 | the steps of a release, undisturbed, are the whole operation Release |
| KzimpAlone.TimeoutAlone | kzimp/kzimp_allMessagesArea/kzimp_main.c:401-446 | the steps of a timeout, undisturbed, are the whole operation Expel |
| KzimpFailures.TestingBreaks | kzimp/kzimp_allMessagesArea/kzimp.h:163-166 | a run with 33 readers on which the last one reads a message twice |
| KzimpFailures.OpeningBreaks | kzimp/kzimp_allMessagesArea/kzimp_main.c:143-160 | a run on which a reader that opens during a write gets the older message |
| KzimpFailures.RelistingBreaks | kzimp/kzimp_allMessagesArea/kzimp_main.c:104-110 | a run on which a reader that got an expelled reader's bit misses a message after that reader's release |
| KzimpFailures.LeavingBreaks | kzimp/kzimp_allMessagesArea/kzimp_main.c:206-211 | a run on which the loop of a release erases the next reader's bit and its message is lost |
| KzimpFailures.SharingBreaks | kzimp/kzimp_allMessagesArea/kzimp_main.c:584-591 | a run on which two writers share a slot and a message is lost |
| KzimpFailures.GivingUpBreaks | kzimp/kzimp_allMessagesArea/kzimp_main.c:497-510 | a run on which a claim given up makes a reader take the next message for it |
| KzimpFailures.FillingBreaks | kzimp/kzimp_allMessagesArea/kzimp_main.c:418-443 | a run on which a writer fills the slot that an expelled reader is copying, before it is marked, and the reader delivers it |
| KzimpFailures.StaleMaskBreaks | kzimp/kzimp_allMessagesArea/kzimp_main.c:546 | a run on which a stale mask marks a new reader for an old message |
| KzimpFailures.StoringBreaks | kzimp/kzimp_allMessagesArea/kzimp_main.c:421-431 | a run on which a timeout's store wipes out a message published after its load |
| KzimpFailures.ClearingBreaks | kzimp/kzimp_allMessagesArea/kzimp_main.c:428-431 | a run on which a timeout's store brings back a bit that a reader has cleared, and it reads twice |
| KzimpFailures.QueuesAreKeptIff | kzimp/kzimp_allMessagesArea/kzimp_main.c:126-594 | all readers' queues are kept on all runs that follow a set of rules iff that set is all of them |
| KzimpInPlace.KzimpChannel.constructor | kzimp/kzimp_allMessagesArea/kzimp_main.c:636-674 | the initialised channel |
| KzimpInPlace.KzimpChannel.NewBitmapBit | kzimp/kzimp_allMessagesArea/kzimp_main.c:100-117 | sets and returns the least clear bit, or returns -1 and changes nothing |
| KzimpInPlace.KzimpChannel.OpenReader | kzimp/kzimp_allMessagesArea/kzimp_main.c:143-160 | appends an online reader at the next write position with a new bit |
| KzimpInPlace.KzimpChannel.ReleaseReader | kzimp/kzimp_allMessagesArea/kzimp_main.c:195-212 | the loops clear the bit in the mask and in every slot, and the reader leaves the list |
| KzimpInPlace.KzimpChannel.Finalize | kzimp/kzimp_allMessagesArea/kzimp_main.c:309-343 | clears the reader's bit and advances it if it is online, else changes nothing at all |
| KzimpInPlace.KzimpChannel.HandleTimeout | kzimp/kzimp_allMessagesArea/kzimp_main.c:411-445 | the loops over slots and readers expel the captured readers |
| KzimpInPlace.KzimpChannel.ClaimSlot | kzimp/kzimp_allMessagesArea/kzimp_main.c:488-491 | returns the next slot and advances |
| KzimpInPlace.KzimpChannel.FillSlot | kzimp/kzimp_allMessagesArea/kzimp_main.c:584-589 | overwrites the first bytes of one slot |
| KzimpInPlace.KzimpChannel.PublishSlot | kzimp/kzimp_allMessagesArea/kzimp_main.c:527-550 | sets length and bitmap of one slot |
| IntBits.ShiftsOverlapIff | checkpointing/src/Checkpointer.cc:48 | two shifts of an int 1, converted to 64 bits, overlap iff their counts agree modulo 32 |
| IntBits.ShiftIff | checkpointing/src/Checkpointer.cc:48 | a shift of an int 1 is one bit, or from bit 31 on all of them |
| Snapshot.MaskIff | checkpointing/src/Checkpointer.cc:43-50 | the constructor's mask has exactly the bits of the other nodes |
| Snapshot.OldRequestChangesNothing | checkpointing/src/Checkpointer.cc:196-206 | a request that is not newer than the node's checkpoint is answered with it and changes nothing |
| Snapshot.LateResponseChangesNothing | checkpointing/src/Checkpointer.cc:221-232 | outside a snapshot a response changes nothing |
| SnapshotInvariant.ClearingIsExact | checkpointing/src/Checkpointer.cc:242 | a response ends the wait for the nodes whose number agrees with the sender's modulo 32, and for no others |
| SnapshotPreservation.StartKeeps | checkpointing/src/Checkpointer.cc:262-288 | starting a snapshot keeps the invariant |
| SnapshotPreservation.RequestKeeps | checkpointing/src/Checkpointer.cc:185-215 | answering a request keeps the invariant |
| SnapshotPreservation.ResponseKeeps | checkpointing/src/Checkpointer.cc:217-249 | handling a response keeps the invariant, for any number of nodes |
| SnapshotPreservation.ResponseExact | checkpointing/src/Checkpointer.cc:242-248 | with at most 33 nodes a response ends the wait for its sender alone, and the last one completes the snapshot array |
| SnapshotPreservation.StepKeeps | checkpointing/src/Checkpointer.cc:185-288 | every step keeps the invariant, and with at most 33 nodes the exact one |
| SnapshotTheorems.OneMessagePerAwaitedNode | checkpointing/src/Checkpointer.cc:185-288 | node i's bit is set during a snapshot iff exactly one request to it or response from it is in flight; otherwise none is |
| SnapshotTheorems.SnapshotsAreComplete | checkpointing/src/Checkpointer.cc:234-248 | each counted snapshot holds every other node's checkpoint, numbered at least as requested; between snapshots the network is empty |
| SnapshotTheorems.DeliveriesPerSnapshot | checkpointing/src/Checkpointer.cc:85-103 | a snapshot takes exactly two deliveries for every other node |
| SnapshotTheorems.RunsAreFinite | checkpointing/src/Checkpointer.cc:92-103 | no run is longer than nb_iter starts and two deliveries per other node and snapshot |
| SnapshotTheorems.AllSnapshotsFinishIff | checkpointing/src/Checkpointer.cc:92-103 | runs stop only after nb_iter snapshots iff there are at least two nodes |
| SnapshotTheorems.SnapshotsAreCompleteIff | checkpointing/src/Checkpointer.cc:48 | on no run a snapshot is counted without some node's answer iff there are at most 33 nodes |
| SnapshotTheorems.CheckpointAfterFirstRequest | checkpointing/src/Checkpointer.cc:196-199 | a node takes a checkpoint at its first request, and only if node 0's number is higher |
| SnapshotTheorems.NoCheckpointIsTaken | checkpointing/src/Checkpointer.cc:37 | from the constructor's numbers no node ever takes one |
| SnapshotInPlace.Checkpointer.constructor | checkpointing/src/Checkpointer.cc:29-61 | the loops build the mask and the empty snapshot |
| SnapshotInPlace.Checkpointer.OnRequest | checkpointing/src/Checkpointer.cc:185-215 | the node and the response after a request |
| SnapshotInPlace.Checkpointer.OnResponse | checkpointing/src/Checkpointer.cc:217-249 | ignored outside a snapshot; else stores the answer, clears the bit and counts the snapshot if it was the last |
| SnapshotInPlace.Checkpointer.StartSnapshot | checkpointing/src/Checkpointer.cc:262-288 | awaits everybody and sends one request to each other node |
| SnapshotInPlace.Checkpointer.TakeOwnCheckpoint | checkpointing/src/Checkpointer.cc:251-260 | number and value of the new checkpoint |
| SnapshotInPlace.Checkpointer.Receive | checkpointing/src/Checkpointer.cc:148-183 | dispatch on the tag |
| SnapshotInPlace.Checkpointer.Run | checkpointing/src/Checkpointer.cc:92-103 | the loop, for any messages received: final state and everything sent, in order |
| SnapshotLoop.HeadIsStep | checkpointing/src/Checkpointer.cc:94-98 | the head of a node's loop is a step of the system: the same node, and the requests in the network |
| SnapshotLoop.TurnIsSteps | checkpointing/src/Checkpointer.cc:92-103 | one turn on a message in the network is one or two steps of the system, which loses that message and gains what the turn sends |
| SnapshotLoop.LoopIsProjection | checkpointing/src/Checkpointer.cc:92-103 | in every run of the system, each node is where its loop is with the messages delivered to it, up to the head of its next turn, and has sent what the loop sends, in order |
| RingDrain.MaskIsModulo | profiler/profiler-sampling.c:233-243 | masking an index gives it modulo the ring size |
| RingDrain.RingHolds | profiler/profiler-sampling.c:206-208 | the ring holds the last bytes of the stream, each at the slot of its index |
| RingDrain.DrainIsExact | profiler/profiler-sampling.c:232-255 | a call dumps exactly the bytes since the last and returns head, also when it wraps or ends at the ring's end |
| RingDrain.DrainIsExactIff | profiler/profiler-sampling.c:225-241 | every stream is dumped right iff what is new fits in the ring |
| RingDrain.CallReads | profiler/profiler-sampling.c:203-256 | for any two indices: nothing and head when their difference is negative as an int; else that many bytes from the slot of the last index on and round the ring, and the index behind them; a copy leaves the ring iff the bytes reach its end twice |
| RingDrain.StepKeeps | profiler/profiler-sampling.c:203-256 | every append, also in the middle of a call, and every part of a call keeps what is dumped a prefix of the stream, with the rest in the ring |
| RingDrain.AppendKeepsUnread | profiler/profiler-sampling.c:206-208 | an append overwrites no byte from data_tail on |
| RingDrain.CallDumpsAll | profiler/profiler-sampling.c:203-256 | a whole call dumps all that was missing |
| RingDrain.NothingIsLost | profiler/profiler-sampling.c:351-356 | over any run of appends, before, during and after calls, nothing fails, and the dump followed by one more call is the whole stream |
| RingDrainInPlace.WriteInTwo | profiler/profiler-sampling.c:233-250 | the two copies of a call that reaches the end of the ring, and that it fails exactly when one would leave the data pages |
| RingDrainInPlace.MmapReadArea | profiler/profiler-sampling.c:203-256 | appends one write event with its failed flag and then the bytes, and sets data_tail to the index returned; fails exactly when a copy would leave the data pages |
| TimeMerge.GetLowestTime | profiler/parser-sampling.c:308-329 | the first unfinished file with the oldest block; dies iff some file is not at a block or all are dated 2^64 - 1 |
| SymbolTables.WithZoneKeeps | profiler/events.c:91-104 | inserting a zone keeps the zones in the order of their addresses and their files parsed |
| SymbolTables.WithZoneAddsOne | profiler/events.c:95-104 | inserting a zone loses none, and the others keep their order |
| SymbolTables.LookupAfterMap | profiler/events.c:95-121 | after it, an address is found where it was, unless the new zone holds it and begins no later than the zone found before |
| SymbolTables.ZoneOfIsListed | profiler/events.c:112-120 | the zone found holds the address, and none is found only if none does |
| SymbolTables.FrameIsThere | profiler/events.c:168-176 | no frame of a call chain lies in a zone whose file is not parsed |
| SymbolTables.FramesOneMore | profiler/events.c:152-182 | what one more entry of a chain adds, by the last marker before it: nothing, the kernel's symbol, or that of the zone that holds it |
| SymbolTables.UserSymbolIs | profiler/events.c:176 | an address as far behind its zone's begin is as far behind the zone's offset in the file |
| SymbolTables.CodeMeans | profiler/events.c:260-306 | each code of a sample iff its cause |
| SymbolTables.CalleeOkIff | profiler/events.c:226-257 | a chain passes iff it has a callee asked for, if any is, and none asked not to be |
| SymbolTables.BuiltInIsParsed | profiler/symbols.c:189-204 | the kernel and [vdso] are never read; every other file dies iff it is broken |
| SymbolTables.Tables.AddPid | profiler/events.c:31-41 | a new process of that name, without zones |
| SymbolTables.Tables.AddFork | profiler/events.c:49-69 | a new process with the name of the one that forks, if that is known |
| SymbolTables.Tables.AddExe | profiler/symbols.c:323-358 | the file is parsed, or it can be opened and not read, and the program dies |
| SymbolTables.Tables.AddMap | profiler/events.c:81-105 | the zone is inserted in its place, if the process is known, and every other one stays |
| SymbolTables.Tables.FindMap | profiler/events.c:107-121 | the first zone that holds the address |
| SymbolTables.Tables.FindFrame | profiler/events.c:152-182 | the symbol of one frame and the context it leaves; its file is never missing |
| SymbolTables.Tables.WalkChain | profiler/events.c:194-223 | the callers that are counted for a chain; never dies |
| SymbolTables.Tables.CheckCallee | profiler/events.c:226-257 | some frame is a callee asked for, if any is, and none is one asked not to be; never dies |
| SymbolTables.Tables.AddSample | profiler/events.c:260-306 | dies iff one of its two assertions fails, whatever it looks up; else the code it returns by the tables |
| TimeMerge.CheckSample | profiler/parser-sampling.c:145-245 | a sample ends the program iff it passes the filters and meets an option that cannot work, or an assertion |
| TimeMerge.HandleRecord | profiler/parser-sampling.c:144-298 | what ends the program for each kind of record, by the core and event of its block |
| TimeMerge.WhatKills | profiler/parser-sampling.c:144-298 | the causes of death, record by record, with their constants |
| TimeMerge.BlockTells | profiler/parser-sampling.c:275-277 | a record's core and event are those of the write event before it |
| TimeMerge.CheckSamples | profiler/parser-sampling.c:135-305 | reads exactly one block, up to the next write event or the end of what can be read, or dies at the first record that it cannot take |
| TimeMerge.OrderedLogOrdersFiles | profiler/parser-sampling.c:469-473 | if the blocks came out in time order, every file's own blocks are in time order |
| TimeMerge.StepKeeps | profiler/parser-sampling.c:469-473 | each block read keeps the loop's invariant: visited prefixes, and nothing unvisited older than what was visited |
| TimeMerge.TurnKeeps | profiler/parser-sampling.c:135-305 | the same on the files as they are, with the jump from a header's end to the end of the file |
| TimeMerge.BrokenBlock | profiler/parser-sampling.c:135-298 | a block in which check_samples dies makes its file unreadable, and leaves what was visited in order |
| TimeMerge.Turn | profiler/parser-sampling.c:469-473 | one turn reads one block of the file with the oldest next block and keeps the loop's invariant, or dies with what was visited in order |
| TimeMerge.Merge | profiler/parser-sampling.c:469-473 | every record up to the end of its file's header is visited once, in file order; dies iff one of them ends the program or some file does not start with a block; blocks in time order iff those of every file are |
| CallerTree.CountOneMore | profiler/events.c:200-207 | one more frame of a chain counts at the node of the path it completes and nowhere else |
| CallerTree.ResolvedJoins | profiler/events.c:194-223 | the path of a chain in two parts is the path of both, one after the other |
| CallerTree.ResolvedInOrder | profiler/events.c:194-223 | the path has exactly the frames that resolve, each once, in the order of the chain |
| CallerTree.FramesAreOccurrences | profiler/events.c:208-223 | a caller's total counts how often the paths have it |
| CallerTree.NodeIsSumOfChildren | profiler/events.c:184-224 | chains with a path as prefix are those that end there and those that go on, one child each |
| CallerTree.CountersAddUp | profiler/events.c:184-224 | a node's counter is the number of chains ending there plus its children's counters |
| CallerTree.NodeIffEntry | profiler/events.c:200-205 | a node one frame further exists iff the table has an entry for the frame |
| CallerTree.Callers.Child | profiler/events.c:200-205 | finds or makes the child and keeps every counter exact |
| CallerTree.Callers.AddFrame | profiler/events.c:200-223 | counts the frame at its node, in the caller's total and in the caller's table of called symbols |
| CallerTree.Callers.AddSample | profiler/events.c:184-224 | adds one sample with the resolved frames of its chain; after any samples every node's counter is the number of chains with its path as prefix, and there is a node for every such path |
| DieScheduler.AssertionHolds | profiler/profiler_sched_PP.c:206-243 | a promoted application always finds one on a fast die: assert(j!=4) holds |
| DieScheduler.DecisionKeepsPlacement | profiler/profiler_sched_PP.c:199-246 | for any sort outcome and any close pairs, four distinct dies with the fast ones at ranks 0 and 1 |
| DieScheduler.PlacedForever | profiler/profiler_sched_PP.c:176-246 | the same over any number of decisions |
| DieScheduler.StartsPlaced | profiler/profiler_sched_PP.c:469-487 | the initial placement is die_order, and satisfies it |
| DieScheduler.FollowsTheSort | profiler/profiler_sched_PP.c:225-240 | with no pair too close, the first two of the sort end on fast dies |
| DieScheduler.NothingMoves | profiler/profiler_sched_PP.c:217-224 | with every pair too close, no application moves |
| DieScheduler.MovesAreAcross | profiler/profiler_sched_PP.c:205-246 | an application moves at most once in a decision, between a fast and a slow die |
| DieScheduler.ReplacedIsFirst | profiler/profiler_sched_PP.c:208-210 | the first of ranks 2 and 3 on a fast die is taken |
| DieScheduler.DecisionIs | profiler/profiler_sched_PP.c:199-246 | promoted applications are paired with those they replace in the order of their ranks; a pair that is too close exchanges ranks, another exchanges dies, and everybody else keeps both |
| DieScheduler.Scheduler.Promote | profiler/profiler_sched_PP.c:208-243 | the inner loop exchanges ranks or dies with the first application on a fast die |
| DieScheduler.Scheduler.TakeADecision | profiler/profiler_sched_PP.c:199-246 | a whole decision in place |

## Left out

- Memory ordering: steps are sequentially consistent; the compiler barriers of the C code are taken as enough, as on x86-64.
- Kernel plumbing: devices, /proc, allocation failures, wait queues, signals, wake-ups and futexes. A sleeping call is a step that is not enabled; giving up a wait is a step of its own.
- kbfishmem and its user-space bfishmprotect: the same UMP protocol over mapped memory; mmap, mprotect and page faults are not part of this model, and recv_msg_nonblocking is the read without its wait.
- UMP: reopening an end, two-way data over one channel, and -EFAULT exits, which leave the position advanced. Messages above MESSAGE_BYTES are cut by the code; the model starts from the cut message.
- KzimpInPlace.KzimpChannel.HandleTimeout: the class runs each operation undisturbed; what others do meanwhile is in `KzimpProtocol`, tied to the same functions by `KzimpAlone`.
- KzimpProtocol.Step: what runs under the lock and touches nothing that is used without it is one step: an open, a claim, the locked part of a release. The claim by `atomic_inc_return`, a build option, is a claim that needs no lock.
- kzimp checksums: `oneC_sum` and the checksum test, whose -EIO is overwritten by the later result anyway.
- kzimp: an open that finds all 64 bits taken leaves a reader without a bit in the list; the rule BitsTestable shuts it out.
- kzimp_splice and the page handling of kzimp_reader_splice: kernel internals; START_READ and FINISH_READ are modelled as the two halves of a read.
- Barrier: group registration and its error tests.
- Checkpointer: timing, log files, invalid tags and the vmsplice and ULM variants; the network delivers every message once, in any order. Left shifts of 32 and more follow x86-64, which takes the count modulo 32.
- RingDrain.MmapRead: indices are unbounded; the code's 64-bit indices are used only through their low bits and through differences converted to int.
- TimeMerge.Merge: an index counts records, which have positive size and fill their file; the counters and times that are printed are not part of this model. The table of kernel symbols is taken not to be empty, or symb_find's assertion would fail (profiler/symbols.c:85). Core and event numbers that are negative as an int pass the code's tests and then index outside its arrays.
- SymbolTables.Tables.AddExe: libelf is taken to start; which files it cannot read is a parameter, and so are the names of symbols; files do not change during a run. Sample.chain is what is read behind the address, which with --callee or --non-callee the code reads of every sample, also of one without a chain.
- CallerTree.Callers.AddSample: symbols come resolved. Nodes are numbered and hash tables are maps.
- DieScheduler.Decide: averages are long doubles; the order they give and the pairs closer than a factor of three are parameters, and the sort may return any permutation. Affinity and page migration calls are not modelled.
- `symb_find`, affinity's `treeFill` functions, mem_wrapper and `hex2u64`: textbook results of their own that no protocol here needs.
- profiler-tids.c, perfmon group headers, ascii tables, cpuFeatures, summary scripts and benchmark drivers: near copies, output, hardware access or statistics.
