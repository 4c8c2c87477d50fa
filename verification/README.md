# TMPI in Dafny

TMPI runs the processes of an MPI 1.1 program as threads.  Its correctness rests
on hand-written protocols between threads that share memory and machines that
exchange messages, and on heap structures changed in place.  This project models
those parts and proves what they promise, for any number of threads, machines,
calls and interleavings.

`dafny verify dfyconfig.toml` checks everything.

## How the parts are modelled

- A protocol is a state, a step function for each piece of code that runs
  undisturbed, an invariant, a lemma that every step keeps it, and theorems about
  every state of every run.  Fields that only record history are named as such in
  the module comment; no branch of a step reads them.  For the collectives a last
  module reads the arguments off the steps of a run and states what the calls give
  in terms of them alone.
- Next to each protocol stands the code itself: a class with the fields of the
  source, updated in place by methods with the loops of the source.  Each method is
  proved to do its step, so the theorems hold for the class.  A wait call is two
  methods, up to its block and from its wakeup on.
- A heap structure is a class over a memory (a map from addresses to headers or
  buckets) with a ghost list that says what the memory means; every operation is
  proved against that list.

| module | what it is |
|---|---|
| `PointToPoint`, `PointToPointInv`, `PointToPointProof`, `PointToPointSteps`, `PointToPointMoves`, `PointToPointArrivals`, `PointToPointTheorems`, `PointToPointCopies`, `PointToPointAnswers`, `PointToPointRuntime` | sends and receives: channels, the short and the rendezvous protocol, wait calls; every mutex section and every message handler is one step |
| `MBuffer` | the message-buffer allocator |
| `Bcast`, `BcastProof`, `BcastTheorems`, `BcastCalls`, `BcastQueue` | the pipelined broadcast queue with its lock-free handle list; every shared access is a step |
| `ReduceOps`, `RdcOp` | 32-bit maximum, minimum and wrapping sum, their folds, the element loops |
| `Reduce`, `ReduceProof`, `ReduceSteps`, `ReduceRounds`, `ReduceTheorems`, `ReduceCalls`, `ReduceQueue` | the reduction queue: election, combination in shared memory, the root's wait |
| `Allreduce`, `AllreduceProof`, `AllreduceSteps`, `AllreduceTheorems`, `AllreduceCalls`, `AllreduceObj` | the double-buffered allreduce with its racing pointer switch |
| `TmpiAllreduce`, `TmpiCalls` | `tmpi_Allreduce` on one machine: reduction and broadcast running side by side |
| `Barrier`, `MpiBarrier` | the two sub-barriers of a machine, and the barrier over several machines |
| `TQueue` | intrusive queues and their pools of recycled elements |
| `NetqRanks` | ranks of a group file and the rank tables |
| `SymbolTable` | the hash table and the scoped symbols of `mpitrans` |
| `Basics`, `Counting` | small functions; counts of threads past a round |

What the environment gives is a parameter: whether `mb_alloc` or `malloc` succeeds
where the code has a path for failure (but for handles, see below), the addresses it yields, the payloads and
buffers of callers, the tokens of a group-file line, the comparison of a search and
the hash function.

Where code and documentation differ the code is followed.  `tqueue.h` says that the
comparison function gets an element, a source and a tag; the code also passes a
context, and so do the searches here.

## Model

| member | source | states |
|---|---|---|
| PointToPointTheorems.NoProtocolError | src/runtime/src/intra/inter_sr.c:232-649 | In no run is a "protocol error" branch taken, in a handler, a start or a wait, and every handler consumes exactly its payload |
| PointToPointTheorems.OneToken | src/runtime/src/intra/inter_sr.c:232-649 | A started send has a message on a link or an entry in a send queue exactly while it is in flight or queued, and never two |
| PointToPointTheorems.PhaseFixesStates | src/runtime/src/intra/intra_sr.c:456-869 | The phase of a send and the place of its owner fix the state code of the send handle and of the receive handle matched with it |
| PointToPointTheorems.MessageDelivered | src/runtime/src/intra/intra_sr.c:538-702 | A matched receive holds the first min(send, receive) bytes of its one matched send, keeps the rest of its buffer, and both handles end with that length |
| PointToPointTheorems.NeverBoth | src/runtime/src/intra/intra_sr.c:538-606 | No channel ever holds a queued send and a posted receive that match, wildcards included |
| PointToPointTheorems.SendsNotOvertaken | src/runtime/src/intra/inter_sr.c:246-287 | Of two sends of one source that a receive accepts the earlier is matched first (section 3.5 of MPI 1.1) |
| PointToPointTheorems.ReceivesNotPassedOver | src/runtime/src/intra/intra_sr.c:538-572 | Of two posted receives that a send could use the earlier is used |
| PointToPointTheorems.FreedOnce | src/runtime/src/intra/intra_sr.c:196-242 | Each send handle is given back at most once, exactly when its state is FREE, and its system buffer lives exactly as long |
| PointToPointTheorems.NoDanglingReference | src/runtime/src/intra/inter_sr.c:305-570 | Nothing on a link or in a queue refers to a handle that was given back |
| PointToPointTheorems.ReceiveFreedOnce | src/runtime/src/intra/intra_sr.c:237-242 | Each receive handle is given back at most once, exactly when its owner has returned from the wait call |
| PointToPointTheorems.AllGivenBack | src/runtime/src/intra/intra_sr.c:704-1119 | When all owners are back and all sends have met their end, every send handle, every receive handle and every system buffer has been given back |
| PointToPointCopies.CopyHolds | src/runtime/src/intra/inter_sr.c:352-393 | The copy that a receiver keeps of an unexpected short message is the whole message, and its send is not matched |
| PointToPointCopies.CopyMadeAndFreed | src/runtime/src/intra/intra_sr.c:249-260 | A copy appears only when a short message arrives unexpected and memory is there, and goes only when a receive takes it; no step undoes a match |
| PointToPointCopies.CopyOnce | src/runtime/src/intra/intra_sr.c:249-260 | Once a send is matched it stays matched with the same receive, and no copy of its message is kept ever again: made once, given back once |
| PointToPointAnswers.RequestAnswered | src/runtime/src/intra/inter_sr.c:232-393 | A send arriving from another machine meets a receive exactly if one is posted that takes it, and then the first posted; otherwise it is refused exactly if it is a ready send, and queued if not, with its data exactly if they came along and there was memory for them |
| PointToPointAnswers.ReplyAdvances | src/runtime/src/intra/inter_sr.c:395-649 | Every reply brings its send on: the data leave, fill their receive and are acknowledged; an acknowledgement ends the send, a refusal too |
| PointToPointAnswers.SendStarts | src/runtime/src/intra/intra_sr.c:456-571 | To another machine the data go along exactly if they are less than 3000 KB; on the same machine a send is delivered at once exactly if a posted receive takes it, to the first posted, and queued otherwise; it is numbered after all earlier ones |
| PointToPointAnswers.RecvStarts | src/runtime/src/intra/intra_sr.c:573-702 | A receive takes a queued send exactly if there is one for it, the first of its source, and has the message at once exactly if the data are at hand; otherwise it is posted |
| PointToPointAnswers.SendWaits | src/runtime/src/intra/intra_sr.c:704-1035 | The wait of a send returns at once exactly if it need not wait, with an error exactly for a refused send or an empty buffered one that is not delivered; otherwise it blocks |
| PointToPointAnswers.SendWakes | src/runtime/src/intra/intra_sr.c:795-827 | A sender that wakes returns exactly if its send is done or refused, and blocks again otherwise |
| PointToPointAnswers.RecvWaits | src/runtime/src/intra/intra_sr.c:1036-1119 | The wait of a receive returns, with success, exactly if the message is there; otherwise it blocks |
| PointToPointAnswers.InitSends | src/runtime/src/intra/intra_sr.c:286-377 | A new send has exactly the source, destination, tag, context, mode and payload of the call, and a system buffer exactly if it is standard or buffered, not empty, and there was room; a buffered send without room makes nothing; all else stays |
| PointToPointAnswers.InitReceives | src/runtime/src/intra/intra_sr.c:379-454 | A new receive has exactly the request of the call; all else stays |
| PointToPointAnswers.StartsIff | src/runtime/src/intra/intra_sr.c:507-571 | A ready send of the same machine is started only with a posted receive that takes it, any other at once; a wait follows a start |
| PointToPointAnswers.RequestsStay | src/runtime/src/intra/intra_sr.c:286-454 | No step of a run changes what a handle was made for |
| PointToPointTheorems.SenderWakeup | src/runtime/src/intra/intra_sr.c:714-797 | A blocked sender without a pending signal has nothing to wake up for; its WAIT bit is set exactly then, but for a ready sender in PEND_STRT |
| PointToPointTheorems.ReceiverWakeup | src/runtime/src/intra/intra_sr.c:1079-1087 | The same for a receiver: WAIT bit exactly while blocked without a signal, and no MATCH then |
| PointToPointTheorems.LonelyReadySendDangles | src/runtime/src/intra/intra_sr.c:987-1017 | A local ready send with no receive posted: its handle is freed while still in the send queue (counterexample) |
| PointToPointTheorems.ReadySendDanglesIff | src/runtime/src/intra/intra_sr.c:987-1017 | Started and waited for, a local ready send leaves a freed handle in the queue if and only if no matching receive is posted |
| PointToPointTheorems.BufferedWaitErrorIff | src/runtime/src/intra/intra_sr.c:837-846 | The wait of a buffered send returns an error if and only if the message is unmatched and empty |
| PointToPointTheorems.SendReturns | src/runtime/src/mpi/pt2pt/mpi_sr.c:190-218 | A synchronous send, a ready send that succeeds, and a standard send without a system buffer return only when their receive has the message; a ready send fails exactly when it was refused |
| PointToPointTheorems.RecvReturns | src/runtime/src/mpi/pt2pt/mpi_sr.c:554-584 | A receive returns only with success and with its message in the buffer |
| PointToPointArrivals.StepKeeps | src/runtime/src/intra/inter_sr.c:232-714 | Every section of a start or wait and every message handler keeps the invariant that ties sends, receives, queues and links |
| PointToPointArrivals.RunKeeps | src/runtime/src/intra/inter_sr.c:652-714 | The invariant holds at every point of every run, for any threads, machines and interleaving |
| PointToPoint.FindRecv | src/runtime/src/intra/intra_sr.c:75-89 | The search of a receive queue finds the first receive that the comparison takes |
| PointToPoint.FindSend | src/runtime/src/intra/intra_sr.c:59-73 | The search of a send queue finds the first entry that the comparison takes |
| PointToPointRuntime.DumpData | src/runtime/src/intra/inter_sr.c:217-230 | The dump loop drops exactly the given number of bytes |
| PointToPointRuntime.ReceiveCut | src/runtime/src/intra/inter_sr.c:337-345 | Receiving what fits and dumping the rest leaves the cut payload in the buffer and nothing on the link |
| PointToPointRuntime.Runtime.constructor | src/runtime/src/intra/intra_sr.c:135-166 | The initial state satisfies the invariant |
| PointToPointRuntime.Runtime.InterStartSh | src/runtime/src/intra/intra_sr.c:456-505 | The start of a remote send does the step of the protocol: request with data if short, without otherwise |
| PointToPointRuntime.Runtime.IntraStartSh | src/runtime/src/intra/intra_sr.c:507-571 | The start of a local send matches the first posted receive or queues the send |
| PointToPointRuntime.Runtime.IntraStartRh | src/runtime/src/intra/intra_sr.c:573-702 | The start of a receive takes the first queued send, local or remote, or posts the receive |
| PointToPointRuntime.Runtime.IntraInitSh | src/runtime/src/intra/intra_sr.c:286-377 | A send handle is made for exactly the arguments of the call, with a system buffer if its mode asks for one and there is room; a buffered send without room fails; no other handle changes |
| PointToPointRuntime.Runtime.IntraInitRh | src/runtime/src/intra/intra_sr.c:379-454 | A receive handle is made for exactly the request of the call; no other handle changes |
| PointToPointRuntime.Runtime.InterWaitTail | src/runtime/src/intra/intra_sr.c:720-795 | Behind its READY loop the wait on a remote send returns, leaves the handle to the matcher, or blocks, as the protocol step says |
| PointToPointRuntime.Runtime.IntraWaitSh | src/runtime/src/intra/intra_sr.c:872-921 | The wait on a send up to its block: it returns, leaves the handle to the matcher, or blocks |
| PointToPointRuntime.Runtime.IntraWakeSh | src/runtime/src/intra/intra_sr.c:795-827 | After the block of a wait on a send, signalled or not: it blocks again, goes on behind the READY loop, or gives the handle back (local sends: lines 921-957) |
| PointToPointRuntime.Runtime.FreeRh | src/runtime/src/intra/intra_sr.c:237-242 | A receive handle goes back to its pool |
| PointToPointRuntime.Runtime.IntraWaitRh | src/runtime/src/intra/intra_sr.c:1036-1081 | The wait on a receive up to its block: it returns, or blocks with the WAIT bit set |
| PointToPointRuntime.Runtime.IntraWakeRh | src/runtime/src/intra/intra_sr.c:1079-1119 | After the block of a wait on a receive, signalled or not: it blocks again, or gives the handle back |
| PointToPointRuntime.Runtime.RmsHandle | src/runtime/src/intra/inter_sr.c:232-303 | A request without data is matched and answered, queued, or refused |
| PointToPointRuntime.Runtime.RmdsHandle | src/runtime/src/intra/inter_sr.c:305-393 | A request with data is matched and delivered cut, queued with or (short of memory) without its data, or refused |
| PointToPointRuntime.Runtime.RdsHandle | src/runtime/src/intra/inter_sr.c:395-474 | Data for a matched receive are cut into the buffer, acknowledged, and the owner is woken |
| PointToPointRuntime.Runtime.RmrHandle | src/runtime/src/intra/inter_sr.c:476-519 | The receiver is ready: the data are sent, from the system buffer or the user buffer |
| PointToPointRuntime.Runtime.AckHandle | src/runtime/src/intra/inter_sr.c:521-623 | The acknowledgement of a long or short send completes or frees the handle |
| PointToPointRuntime.Runtime.RndyHandle | src/runtime/src/intra/inter_sr.c:625-649 | The refusal of a ready send is recorded and its owner woken |
| PointToPointRuntime.Runtime.InterMsgHandle | src/runtime/src/intra/inter_sr.c:652-714 | Delivering the head of a link dispatches to its handler and keeps the invariant |
| MBuffer.AllocKeeps | src/runtime/src/utils/buffer/mbuffer.c:204-217 | Splitting a block keeps the tiling of the arena without gap or overlap, and no two neighbours free |
| MBuffer.FreeKeeps | src/runtime/src/utils/buffer/mbuffer.c:229-253 | Freeing in all four neighbour cases keeps the tiling, the total size, and no two neighbours free |
| MBuffer.FreeUndoesAlloc | src/runtime/src/utils/buffer/mbuffer.c:182-255 | Freeing a block right after it was given away restores the block list |
| MBuffer.AllFreeIsOne | src/runtime/src/utils/buffer/mbuffer.c:224-255 | An arena is the single free block it started as if and only if nothing of it is in use |
| MBuffer.CarveLinks | src/runtime/src/utils/buffer/mbuffer.c:204-217 | The pointer writes of the split leave headers that are linked both ways as the new block list says, and stay inside the arena |
| MBuffer.FreeRelinks | src/runtime/src/utils/buffer/mbuffer.c:229-253 | The pointer writes of the merge leave headers that are linked both ways as the new block list says, and stay inside the arena |
| MBuffer.AllocLeaves | src/runtime/src/utils/buffer/mbuffer.c:204-217 | The block given away has room for the request, rounded up to 32 bytes, and its header; of a block found with 96 bytes more, a free block of exactly the rest stays behind it; so never 160 bytes more than asked for are given away |
| MBuffer.ServesIff | src/runtime/src/utils/buffer/mbuffer.c:182-221 | A call succeeds exactly if some free block of either arena has room for the request, rounded up to 32 bytes, and a header |
| MBuffer.AllocTakes | src/runtime/src/utils/buffer/mbuffer.c:204-217 | An allocation takes from the free bytes of its arena exactly the bytes of the block that it gives away |
| MBuffer.FreeBrings | src/runtime/src/utils/buffer/mbuffer.c:229-253 | Giving a block back adds exactly its bytes to the free bytes, whichever neighbours it melts with |
| MBuffer.RoomForAll | src/runtime/src/utils/buffer/mbuffer.c:182-221 | A free block with room for any number of requests, 64 bytes for each and 96 more serves them all, one call after the other |
| MBuffer.LiveInside | src/runtime/src/utils/buffer/mbuffer.c:182-221 | A payload in use lies in one arena, behind a header, at an offset that is a multiple of 32, with the room that was asked for |
| MBuffer.LiveApart | src/runtime/src/utils/buffer/mbuffer.c:182-255 | A payload in use overlaps no header of any block and no other payload in use |
| MBuffer.AllGivenBack | src/runtime/src/utils/buffer/mbuffer.c:224-255 | When all payloads are given back, in whatever order, each arena is one free block, and only then |
| MBuffer.UnusedIff | src/runtime/src/utils/buffer/mbuffer.c:284-284 | The test of the first header tells whether anything of the attached memory is in use |
| MBuffer.Buffers.InitSize | src/runtime/src/utils/buffer/mbuffer.c:120-143 | A positive request is served exactly if there is a megabyte: a megabyte for one of at most that, the request itself if there is room, and otherwise less than a megabyte below the room |
| MBuffer.Buffers.constructor | src/runtime/src/utils/buffer/mbuffer.c:145-150 | A new buffer is one free block and no attached memory |
| MBuffer.Buffers.Scan | src/runtime/src/utils/buffer/mbuffer.c:189-197 | The scan finds the first free block that is large enough, or none |
| MBuffer.Buffers.Carve | src/runtime/src/utils/buffer/mbuffer.c:204-217 | The header writes of an allocation: with 96 bytes more than needed the block is cut to the need and a free header of the rest follows it; otherwise only the mark changes |
| MBuffer.Buffers.MbAlloc | src/runtime/src/utils/buffer/mbuffer.c:182-221 | First fit in the system arena, then in the attached one; null exactly when no free block of either fits; the payload is new, and the arenas change as one allocation says |
| MBuffer.Buffers.Unlink | src/runtime/src/utils/buffer/mbuffer.c:229-253 | The four-way merge by pointer writes |
| MBuffer.Buffers.MbFree | src/runtime/src/utils/buffer/mbuffer.c:224-255 | A payload in use is taken back; the rest stays |
| MBuffer.Buffers.MbAttach | src/runtime/src/utils/buffer/mbuffer.c:257-272 | Attaching memory of any size succeeds exactly when nothing is attached; its header takes 32 bytes whatever the size |
| MBuffer.Buffers.MbDetach | src/runtime/src/utils/buffer/mbuffer.c:274-293 | Detaching succeeds exactly when nothing allocated from the attached memory is in use, and then reports its address and size |
| BcastTheorems.KthPayload | src/runtime/src/intra/bcast.c:235-247 | A receiver's k-th broadcast gives it the root's k-th payload cut to min(len), or the error code when the root had no memory |
| BcastTheorems.AvailIsCount | src/runtime/src/intra/bcast.c:252-257 | A published handle has `avail` = 1 + receivers past it, with link and data intact, until all n-1 receivers are past it |
| BcastTheorems.WaitsForItsRound | src/runtime/src/intra/bcast.c:236-240 | A receiver waits exactly while its round is not published |
| BcastTheorems.RootNeverBlocks | src/runtime/src/intra/bcast.c:196-229 | Wherever the root stands, its next step can be taken |
| BcastTheorems.ReceiverTouches | src/runtime/src/intra/bcast.c:235-257 | A receiver touches only the handle of its own live round, or as last leaver its own handle, and never reads or frees data twice |
| BcastTheorems.OnePlace | src/runtime/src/intra/bcast.c:21-77 | Every handle is at exactly one place: free list, live chain, the root's hands, a last leaver's hands |
| BcastTheorems.NoAba | src/runtime/src/intra/bcast.c:32-37 | When the root's compare-and-swap succeeds, the successor read before is still the one below the head |
| BcastTheorems.FreeListIntact | src/runtime/src/intra/bcast.c:64-77 | The free list is a proper list without repetition at every moment |
| BcastProof.StepKeeps | src/runtime/src/intra/bcast.c:175-261 | Every step of root and receivers keeps the invariant of the queue |
| BcastProof.RunKeeps | src/runtime/src/intra/bcast.c:175-261 | The invariant holds in every state of every run, for any number of threads |
| BcastProof.SwapPlacesOk | src/runtime/src/intra/bcast.c:32-37 | Popping the head takes exactly the top handle off the free list |
| BcastProof.SpliceFreeOk | src/runtime/src/intra/bcast.c:43-57 | A spliced chunk lies on top of the old free list, linked |
| BcastProof.CountOk | src/runtime/src/intra/bcast.c:252-257 | The count of a receiver keeps the invariant, and the last one takes the handle |
| BcastQueue.LinkChunk | src/runtime/src/intra/bcast.c:43-50 | The linking loop yields a chunk whose handles behind the first are linked one after the other |
| BcastQueue.Queue.constructor | src/runtime/src/intra/bcast.c:79-109 | The created queue has one guard handle and a free list of `groupsize` handles |
| BcastQueue.Queue.Casp | src/runtime/src/intra/bcast.c:29-35 | Compare-and-swap on the head of the free list |
| BcastQueue.Queue.EnterRoot | src/runtime/src/intra/bcast.c:185-187 | The root finds its current handle |
| BcastQueue.Queue.ReadHead | src/runtime/src/intra/bcast.c:30-30 | The head of the free list is read |
| BcastQueue.Queue.ReadSucc | src/runtime/src/intra/bcast.c:33-33 | The successor of that head is read |
| BcastQueue.Queue.SwapHead | src/runtime/src/intra/bcast.c:34-36 | The head is swapped for its successor, or reread |
| BcastQueue.Queue.AllocChunk | src/runtime/src/intra/bcast.c:39-50 | With no free handle a chunk is allocated and linked |
| BcastQueue.Queue.ReadTail | src/runtime/src/intra/bcast.c:53-55 | The chunk is led to the head of the free list |
| BcastQueue.Queue.SpliceChunk | src/runtime/src/intra/bcast.c:56-56 | The chunk is spliced in, or the head is reread |
| BcastQueue.Queue.FillHandle | src/runtime/src/intra/bcast.c:204-221 | The new gate, the link, and the data |
| BcastQueue.Queue.MakeAvailable | src/runtime/src/intra/bcast.c:223-229 | The handle becomes available and the root moves on |
| BcastQueue.Queue.EnterReceiver | src/runtime/src/intra/bcast.c:185-187 | A receiver finds its current handle |
| BcastQueue.Queue.TryWait | src/runtime/src/intra/bcast.c:236-240 | A receiver gets on if and only if its handle is available |
| BcastQueue.Queue.CopyData | src/runtime/src/intra/bcast.c:242-247 | Copy or error code |
| BcastQueue.Queue.AdvanceKey | src/runtime/src/intra/bcast.c:250-250 | The receiver moves to the next handle |
| BcastQueue.Queue.CountSelf | src/runtime/src/intra/bcast.c:252-252 | The receiver counts itself, and learns if it is the last |
| BcastQueue.Queue.FreeData | src/runtime/src/intra/bcast.c:253-255 | The last one frees the data and moves `first` |
| BcastQueue.Queue.RereadHead | src/runtime/src/intra/bcast.c:72-73 | The freed handle is led to the head of the free list |
| BcastQueue.Queue.PushHandle | src/runtime/src/intra/bcast.c:74-74 | The freed handle becomes the head, or the head is reread |
| Counting.AboveBump | src/runtime/src/intra/bcast.c:252-252 | One more thread past a round raises the count of that round by one and no other |
| Counting.AboveAll | src/runtime/src/intra/bcast.c:252-252 | The count reaches the number of threads exactly when all are past |
| ReduceOps.ApplyLaws | src/runtime/src/intra/rdc_op.c:11-55 | Maximum, minimum and wrapping 32-bit sum are commutative, associative and have their neutral elements |
| ReduceOps.FoldUpdate | src/runtime/src/intra/rdc_op.c:11-55 | A rank's value taking the place of the neutral element acts on the fold like one application, whatever the order |
| ReduceOps.FoldIsMaximum | src/runtime/src/intra/rdc_op.c:11-26 | The fold of MAX is a largest element |
| ReduceOps.FoldIsMinimum | src/runtime/src/intra/rdc_op.c:28-43 | The fold of MIN is a smallest element |
| ReduceOps.FoldIsSum | src/runtime/src/intra/rdc_op.c:45-55 | The fold of SUM is the wrapped total |
| RdcOp.Cas32 | src/runtime/src/machine/atomic.c:3-15 | Compare-and-swap of one cell |
| RdcOp.Anf32 | src/runtime/src/machine/atomic.c:70-81 | The retry loop adds and fetches, wrapping |
| RdcOp.RdcIntExtreme | src/runtime/src/intra/rdc_op.c:11-43 | The loops of maximum and minimum combine the first `count` elements and leave the rest |
| RdcOp.RdcIntSum | src/runtime/src/intra/rdc_op.c:45-55 | The loop of the sum does the same |
| BcastCalls.FillHolds | src/runtime/src/intra/bcast.c:212-221 | The fill puts a copy of the payload of this call into the handle exactly if there was memory, nothing otherwise |
| BcastCalls.HistoryIsCalls | src/runtime/src/intra/bcast.c:175-261 | Over whole runs the recorded payloads, buffers and wants of memory are those of the calls |
| BcastCalls.BroadcastDelivers | src/runtime/src/intra/bcast.c:204-247 | From the arguments alone: with memory for the root's k-th payload a receiver's k-th call returns 0 and its buffer has as much of that payload as fits, and is otherwise as it was; without memory it returns -2 and the buffer stays |
| BcastCalls.NoPayloadLost | src/runtime/src/intra/bcast.c:252-255 | A payload is in memory only in a round that some receiver has not got past, in the one being published, or at a last receiver about to free it |
| BcastCalls.RootAdvances | src/runtime/src/intra/bcast.c:196-229 | Every step of the root brings it nearer to the end of its call, unless another thread moved the head of the free list |
| BcastCalls.RecvAdvances | src/runtime/src/intra/bcast.c:235-261 | The same for a receiver, and no thread moves another one |
| ReduceTheorems.KthResult | src/runtime/src/intra/reduce.c:286-419 | The root's k-th call returns, element by element, the fold of all n k-th contributions, each counted once; nothing exactly when the first thread of the round had no memory |
| ReduceTheorems.CodesAgree | src/runtime/src/intra/reduce.c:286-419 | The k-th calls of all threads return the same code: 0 if there was memory for the data of the round, -2 if not |
| ReduceTheorems.OneCodeEach | src/runtime/src/intra/reduce.c:286-419 | A thread that is back has one return code for each of its calls |
| ReduceTheorems.EqualCounts | src/runtime/src/intra/reduce.c:286-419 | With equal counts the root gets that many elements, each the maximum, minimum or wrapped sum over all ranks |
| ReduceTheorems.ElectedOnce | src/runtime/src/intra/reduce.c:314-326 | Never two threads are elected for one round |
| ReduceTheorems.AvailIsCount | src/runtime/src/intra/reduce.c:394-398 | `avail` of a filled round is the number of threads past it, and its handle stays until the root has the result; it has data exactly if there was memory |
| ReduceTheorems.StuckOnlyWaiting | src/runtime/src/intra/reduce.c:286-419 | Outside the two waits every thread can take its next step at once |
| ReduceTheorems.WaitsFor | src/runtime/src/intra/reduce.c:352-380 | The first wait ends when the round is announced, the root's wait exactly when all threads are counted |
| ReduceTheorems.OnePlace | src/runtime/src/intra/reduce.c:137-192 | Every handle is at exactly one place |
| ReduceCalls.HistoryGrows | src/runtime/src/intra/reduce.c:286-419 | A call adds exactly what it was given to the contributions of its thread, and its operator if it is the first of its round; a filled round adds whether there was memory; no other step adds anything |
| ReduceCalls.HistoryIsCalls | src/runtime/src/intra/reduce.c:286-419 | Over whole runs the recorded contributions, operators and wants of memory are those of the calls |
| ReduceCalls.ReductionDelivers | src/runtime/src/intra/reduce.c:286-419 | From the arguments alone: with memory for the data of the round the root's k-th call gives it, element by element, the fold of what all threads brought to their k-th call, with the operator that all of them named; without memory nothing |
| ReduceCalls.CodeReturned | src/runtime/src/intra/reduce.c:286-419 | The code of a thread's k-th call is 0 if there was memory for the data of the round, -2 if not |
| ReduceCalls.NoDataLost | src/runtime/src/intra/reduce.c:408-417 | Only the handle of a filled round whose result the root has not taken has data |
| ReduceCalls.ThreadAdvances | src/runtime/src/intra/reduce.c:286-419 | Every step brings its thread nearer to the end of its call, unless its compare-and-swap finds that another thread wrote the element; no thread moves another one |
| ReduceRounds.StepKeeps | src/runtime/src/intra/reduce.c:286-419 | Every step of every thread keeps the invariant of the reduction queue |
| ReduceRounds.RunKeeps | src/runtime/src/intra/reduce.c:286-419 | The invariant holds in every state of every run |
| ReduceSteps.CombinedOk | src/runtime/src/intra/rdc_op.c:11-55 | An element-wise combination keeps each shared element the fold of what has been contributed |
| ReduceSteps.ElementNoData | src/runtime/src/intra/reduce.c:385-390 | A thread that finds no data in its round goes on with the code -2, and the invariant is kept |
| ReduceSteps.LostOk | src/runtime/src/intra/reduce.c:369-372 | The loser of an election finds the round filled or about to be |
| ReduceRounds.AllCounted | src/runtime/src/intra/reduce.c:400-406 | When the root gets on, every thread has been counted |
| ReduceRounds.GatherResult | src/runtime/src/intra/reduce.c:408-413 | What the root copies out is the complete fold |
| ReduceQueue.BlankChunk | src/runtime/src/intra/reduce.c:158-166 | A fresh chunk of blank handles |
| ReduceQueue.Queue.constructor | src/runtime/src/intra/reduce.c:194-224 | The created queue: a guard handle and `groupsize` free ones |
| ReduceQueue.Queue.Cas32 | src/runtime/src/intra/reduce.c:326-326 | Compare-and-swap on `avail` |
| ReduceQueue.Queue.Enter | src/runtime/src/intra/reduce.c:306-309 | A thread finds its current handle |
| ReduceQueue.Queue.TestAvail | src/runtime/src/intra/reduce.c:314-314 | Is the round open? |
| ReduceQueue.Queue.TakeHandle | src/runtime/src/intra/reduce.c:315-324 | A handle for the next round, from the pool or from a new chunk, in one step |
| ReduceQueue.Queue.PopHandle | src/runtime/src/intra/reduce.c:146-153 | The handle on top of the pool |
| ReduceQueue.Queue.NewChunk | src/runtime/src/intra/reduce.c:155-171 | With an empty pool a chunk: the first handle for the thread, the others for the pool |
| ReduceQueue.Queue.RunForElection | src/runtime/src/intra/reduce.c:326-326 | Won exactly when `avail` was still -1 |
| ReduceQueue.Queue.DropHandle | src/runtime/src/intra/reduce.c:369-372 | The loser gives its handle back |
| ReduceQueue.Queue.FillHandle | src/runtime/src/intra/reduce.c:327-346 | The winner links the next handle and shares its data; without memory there are none and its code is -2 |
| ReduceQueue.Queue.AnnounceRound | src/runtime/src/intra/reduce.c:337-366 | The round becomes available; a winner that is not the root returns its code |
| ReduceQueue.Queue.TryWait | src/runtime/src/intra/reduce.c:376-380 | A thread gets on if and only if the round is announced |
| ReduceQueue.Queue.CombineElement | src/runtime/src/intra/reduce.c:382-390 | One atomic access of the element loops, or the code -2 without data |
| ReduceQueue.Queue.SwapElement | src/runtime/src/intra/reduce.c:386-386 | The compare-and-swap of one element |
| ReduceQueue.Queue.AdvanceKey | src/runtime/src/intra/reduce.c:392-392 | The thread moves to the next handle |
| ReduceQueue.Queue.CountSelf | src/runtime/src/intra/reduce.c:394-398 | The thread counts itself and, but for the root, returns its code |
| ReduceQueue.Queue.TryGather | src/runtime/src/intra/reduce.c:400-414 | The root gets on if and only if all are counted |
| ReduceQueue.Queue.TakeResult | src/runtime/src/intra/reduce.c:408-414 | The root copies the result out if there is one, and moves `first` |
| ReduceQueue.Queue.ReturnHandle | src/runtime/src/intra/reduce.c:415-415 | The root gives the handle back |
| AllreduceTheorems.KthResult | src/runtime/src/intra/reduce.c:512-521 | Every thread's k-th call gives it the fold of all contributions to the k-th call; nothing exactly when there was no memory for the data of the round |
| AllreduceTheorems.CodeTells | src/runtime/src/intra/reduce.c:470-502 | Every thread returns 0 from its k-th call if there was memory for the data of the round, and -2 if not |
| AllreduceTheorems.AllAgree | src/runtime/src/intra/reduce.c:512-521 | The results of two threads for one call agree |
| AllreduceTheorems.OwnRoundOnly | src/runtime/src/intra/reduce.c:489-521 | A thread combines into and copies from the sub-object of its own round only, and that holds the fold of that round |
| AllreduceTheorems.SwitchedOncePerRound | src/runtime/src/intra/reduce.c:531-536 | After m calls of a thread there were exactly m switches, and a switch leads to a sub-object that was reset and has no data |
| AllreduceTheorems.StuckOnlyWaiting | src/runtime/src/intra/reduce.c:451-539 | Outside the two waits every thread can take its next step at once |
| AllreduceTheorems.WaitsForAnnouncement | src/runtime/src/intra/reduce.c:491-494 | The first wait ends exactly when the winner of the election has announced the round |
| AllreduceTheorems.WaitsForAll | src/runtime/src/intra/reduce.c:512-518 | The second wait ends exactly when all threads are counted |
| AllreduceCalls.HistoryGrows | src/runtime/src/intra/reduce.c:451-539 | A call adds exactly what it was given to the contributions of its thread, and its operator if it is the first of its round; a filled round adds whether there was memory; no other step adds anything |
| AllreduceCalls.HistoryIsCalls | src/runtime/src/intra/reduce.c:451-539 | Over whole runs the recorded contributions, operators and wants of memory are those of the calls |
| AllreduceCalls.ReductionDelivers | src/runtime/src/intra/reduce.c:451-539 | From the arguments alone: with memory for the data of the round every thread's k-th call gives it, element by element, the fold of what all threads brought to their k-th call, with the operator that all of them named; without memory nothing |
| AllreduceCalls.CodeReturned | src/runtime/src/intra/reduce.c:451-539 | The code of a thread's k-th call is 0 if there was memory for the data of the round, -2 if not |
| AllreduceCalls.NoDataLost | src/runtime/src/intra/reduce.c:520-534 | A sub-object has data only while its round is in use, and until the last thread gives them back |
| AllreduceCalls.ThreadAdvances | src/runtime/src/intra/reduce.c:451-539 | Every step brings its thread nearer to the end of its call, unless its compare-and-swap finds that another thread wrote the element; no thread moves another one |
| AllreduceSteps.StepKeeps | src/runtime/src/intra/reduce.c:451-539 | Every step of every thread keeps the invariant of the two sub-objects |
| AllreduceSteps.RunKeeps | src/runtime/src/intra/reduce.c:451-539 | The invariant holds in every state of every run |
| AllreduceSteps.ElementNoData | src/runtime/src/intra/reduce.c:498-502 | A thread that finds no data in its round goes on with the code -2, and the invariant is kept |
| AllreduceSteps.OtherClean | src/runtime/src/intra/reduce.c:523-536 | At a switch everybody has left the round before, so the other sub-object is clean |
| AllreduceSteps.CopyResult | src/runtime/src/intra/reduce.c:520-521 | What a thread copies is the complete fold of its round |
| AllreduceObj.AllreduceObject.constructor | src/runtime/src/intra/reduce.c:422-440 | Two clean sub-objects |
| AllreduceObj.AllreduceObject.Enter | src/runtime/src/intra/reduce.c:454-454 | The current sub-object is read |
| AllreduceObj.AllreduceObject.TestAvail | src/runtime/src/intra/reduce.c:468-468 | Is the round open? |
| AllreduceObj.AllreduceObject.RunForElection | src/runtime/src/intra/reduce.c:468-468 | Won exactly when `avail` was still -1 |
| AllreduceObj.AllreduceObject.FillSub | src/runtime/src/intra/reduce.c:469-482 | The winner shares its data; without memory there are none and its code is -2 |
| AllreduceObj.AllreduceObject.AnnounceRound | src/runtime/src/intra/reduce.c:483-486 | The round becomes available |
| AllreduceObj.AllreduceObject.TryWait | src/runtime/src/intra/reduce.c:491-494 | A thread gets on if and only if the round is announced |
| AllreduceObj.AllreduceObject.CombineElement | src/runtime/src/intra/reduce.c:496-502 | One atomic access of the element loops, or the code -2 without data |
| AllreduceObj.AllreduceObject.SwapElement | src/runtime/src/intra/reduce.c:499-499 | The compare-and-swap of one element |
| AllreduceObj.AllreduceObject.CountSelf | src/runtime/src/intra/reduce.c:504-508 | The thread counts itself |
| AllreduceObj.AllreduceObject.TryGather | src/runtime/src/intra/reduce.c:513-518 | A thread gets on if and only if all are counted |
| AllreduceObj.AllreduceObject.CopyResult | src/runtime/src/intra/reduce.c:520-521 | The result is copied out, if there is one, and the code of the call is fixed |
| AllreduceObj.AllreduceObject.CountDone | src/runtime/src/intra/reduce.c:524-524 | The thread counts itself out, and learns if it is the last |
| AllreduceObj.AllreduceObject.ClearSub | src/runtime/src/intra/reduce.c:525-527 | The last one frees the data and resets `done` |
| AllreduceObj.AllreduceObject.ReopenSub | src/runtime/src/intra/reduce.c:528-528 | and reopens `avail` |
| AllreduceObj.AllreduceObject.CheckPointer | src/runtime/src/intra/reduce.c:532-532 | Is the pointer still there? |
| AllreduceObj.AllreduceObject.SwitchPointer | src/runtime/src/intra/reduce.c:533-536 | The racing switch |
| TmpiAllreduce.ThreadZeroGets | src/runtime/src/mpi/group/mpi_reduce.c:198-203 | Thread 0 has the fold of all contributions of the same call, unless the reduction had no memory |
| TmpiAllreduce.OthersGet | src/runtime/src/mpi/group/mpi_reduce.c:198-203 | Every other thread gets it from the broadcast of the same call, with no mixing between calls though threads drift apart |
| TmpiAllreduce.CodeTells | src/runtime/src/mpi/group/mpi_reduce.c:210-222 | All threads, thread 0 included, return the same code of their k-th call: ERR_BUFFER exactly when the reduction had no memory, ERR_INTERN exactly when only the broadcast had none, success otherwise, and then the buffer holds the fold of all contributions |
| TmpiCalls.HistoryIsCalls | src/runtime/src/mpi/group/mpi_reduce.c:198-203 | Over whole runs both queues record what the threads passed to their calls |
| TmpiCalls.CallsDeliver | src/runtime/src/mpi/group/mpi_reduce.c:198-222 | From the arguments alone: the k-th call of every thread returns ERR_BUFFER exactly if the reduction had no memory, else ERR_INTERN exactly if the broadcast had none, else success, and then its buffer holds the fold of what all threads passed to their k-th call |
| TmpiAllreduce.RunKeeps | src/runtime/src/mpi/group/mpi_reduce.c:198-203 | Reduction and broadcast side by side keep both invariants and the tie between the k-th result and the k-th payload |
| Barrier.NobodyLeavesEarly | src/runtime/src/intra/barrier.c:25-50 | No thread leaves its k-th wait before all have entered their k-th |
| Barrier.RoundsClose | src/runtime/src/intra/barrier.c:25-50 | The rounds of two threads never differ by more than one |
| Barrier.SlowWaiterReleased | src/runtime/src/intra/barrier.c:43-44 | A waiter of a round can get on exactly when all have arrived in that round, however late it looks |
| Barrier.StepKeeps | src/runtime/src/intra/barrier.c:25-50 | Entering, arriving and waking keep the invariant of the two sub-barriers |
| Barrier.Bar.BarInit | src/runtime/src/intra/barrier.c:4-23 | A count below one is refused |
| Barrier.Bar.EnterBar | src/runtime/src/intra/barrier.c:26-26 | The current sub-barrier is read |
| Barrier.Bar.ArriveBar | src/runtime/src/intra/barrier.c:28-41 | The locked section: the last thread resets and switches, the others wait |
| Barrier.Bar.TryWake | src/runtime/src/intra/barrier.c:43-44 | A waiter gets on if and only if `runners` is `maxcnt` |
| MpiBarrier.GlobalBarrier | src/runtime/src/mpi/group/mpi_barrier.c:26-38 | No thread on any machine returns from its k-th MPI_Barrier before every thread on every machine has begun its k-th (section 4.3 of MPI 1.1) |
| MpiBarrier.MoveKeeps | src/runtime/src/mpi/group/mpi_barrier.c:26-38 | Local barriers and the meeting of the threads 0 keep the counts tied together |
| TQueue.AppendedLinked | src/runtime/src/utils/tqueue/tqueue.c:144-155 | The four writes of enQ link the element in at the end |
| TQueue.UnlinkedLinked | src/runtime/src/utils/tqueue/tqueue.c:92-100 | The two writes of Q_delElem take exactly that element out and leave the order of the others |
| TQueue.UsesDisjoint | src/runtime/src/utils/tqueue/tqueue.c:13-66 | Over all queues, lists and pools have no repetition and share no bucket |
| TQueue.PoolAcyclic | src/runtime/src/utils/tqueue/tqueue.c:54-66 | From the head of a pool the links visit exactly its elements and end |
| TQueue.EnqKeeps | src/runtime/src/utils/tqueue/tqueue.c:144-155 | enQ keeps all queues in order |
| TQueue.DelKeeps | src/runtime/src/utils/tqueue/tqueue.c:92-107 | Q_delElem keeps all queues in order |
| TQueue.PutKeeps | src/runtime/src/utils/tqueue/tqueue.c:54-66 | Q_freeElem keeps all queues in order, whichever queue the element came from |
| TQueue.TakeKeeps | src/runtime/src/utils/tqueue/tqueue.c:41-45 | Q_newElem from a pool keeps all queues in order |
| TQueue.ChunkKeeps | src/runtime/src/utils/tqueue/tqueue.c:21-40 | Q_newElem with a fresh chunk keeps all queues in order |
| TQueue.ItemSizeRoundsIff | src/runtime/src/utils/tqueue/tqueue.c:120-126 | The rounding of item sizes never makes them smaller, and gives a multiple of 8 if and only if the size is no multiple of 7 or is one of 8 already |
| TQueue.SevenIsNotRounded | src/runtime/src/utils/tqueue/tqueue.c:120-126 | An item of seven bytes is not rounded (counterexample) |
| TQueue.Queues.QCreate | src/runtime/src/utils/tqueue/tqueue.c:68-132 | A new queue is empty, with one chunk in its pool if there was memory for it; bad sizes and want of memory for the queue are refused |
| TQueue.LinkChunk | src/runtime/src/utils/tqueue/tqueue.c:30-37 | The linking loop over a fresh chunk |
| TQueue.Queues.QNewElem | src/runtime/src/utils/tqueue/tqueue.c:13-52 | The top of the pool, the first of a fresh chunk, or null |
| TQueue.Queues.AddChunk | src/runtime/src/utils/tqueue/tqueue.c:21-40 | A chunk is linked: its first bucket for the caller, the others for the pool |
| TQueue.Queues.PopElem | src/runtime/src/utils/tqueue/tqueue.c:41-49 | The top of the pool |
| TQueue.Queues.QFreeElem | src/runtime/src/utils/tqueue/tqueue.c:54-66 | The element goes on top of the pool |
| TQueue.Queues.EnQ | src/runtime/src/utils/tqueue/tqueue.c:144-155 | The list grows by the element at its end |
| TQueue.Queues.DelElem | src/runtime/src/utils/tqueue/tqueue.c:92-100 | The list loses exactly that element |
| TQueue.Queues.RemoveElem | src/runtime/src/utils/tqueue/tqueue.c:102-107 | The same for an element given by the caller |
| TQueue.Queues.DeQ | src/runtime/src/utils/tqueue/tqueue.c:157-164 | The first element leaves the list, or null |
| TQueue.Queues.Probe | src/runtime/src/utils/tqueue/tqueue.c:199-219 | The first element that the comparison takes, or null, nothing changed |
| TQueue.Queues.Find | src/runtime/src/utils/tqueue/tqueue.c:222-240 | That element is taken out, all others keep their order |
| TQueue.Queues.ProbeThenRemove | src/runtime/src/utils/tqueue/tqueue.h:45-45 | Q_probe and Q_removeElem together do what Q_find does |
| TQueue.Queues.Cnt | src/runtime/src/utils/tqueue/tqueue.c:242-247 | The count is the length of the list |
| TQueue.Queues.Ends | src/runtime/src/utils/tqueue/tqueue.c:249-271 | The first and the last element |
| NetqRanks.FillSpan | src/runtime/src/net/netd/netq.c:919-920 | The inner loop stores the range |
| NetqRanks.StoreToken | src/runtime/src/net/netd/netq.c:902-932 | The ids of a token are stored, refused for want of nodes, or about to leave the table, each exactly when they are |
| NetqRanks.StoredInside | src/runtime/src/net/netd/netq.c:902-932 | A line that asks for no more nodes than the table has places never leaves it |
| NetqRanks.ParseIds | src/runtime/src/net/netd/netq.c:896-933 | A line is accepted exactly if its tokens are ids and ranges that fit; the listed ids come first in the 256 places, the rest is open; the table is left exactly when more than 256 ids are stored |
| NetqRanks.ParseLine | src/runtime/src/net/netd/netq.c:865-934 | A line is refused only if it is wrong, and leaves its table only if it asks for more than 256 nodes |
| NetqRanks.ReadLines | src/runtime/src/net/netd/netq.c:971-985 | The reading loop skips blank lines, refuses at the first bad one, and takes as many machines as there is room for |
| NetqRanks.ParseGrpFile | src/runtime/src/net/netd/netq.c:956-1033 | A file is taken exactly if every line is right, no id of the file is too large or given twice, and the tables have room; then the ids over all machines are a permutation of 0..total-1 that keeps the given ids and numbers the open places in increasing order |
| NetqRanks.FreeRank | src/runtime/src/net/netd/netq.c:1019-1020 | While a place is open some rank is free (pigeonhole) |
| NetqRanks.FillsOneWay | src/runtime/src/net/netd/netq.c:1013-1025 | There is only one way to fill the open places in increasing order: the file determines every id |
| NetqRanks.FullIsPermutation | src/runtime/src/net/netd/netq.c:1015-1025 | Ids that are different, in range and all given are a permutation |
| NetqRanks.CheckMachine | src/runtime/src/net/netd/netq.c:996-1010 | The checking loop finds every id that is too large or given twice, and leaves the table only of a machine with more than 256 nodes |
| NetqRanks.CheckIds | src/runtime/src/net/netd/netq.c:994-1011 | All machines are checked |
| NetqRanks.FillOne | src/runtime/src/net/netd/netq.c:1018-1022 | The search for a free rank stays inside the array and takes an unused rank |
| NetqRanks.FillMachine | src/runtime/src/net/netd/netq.c:1016-1024 | The open places of a machine are filled in increasing order with unused ranks, unless it has more than 256 |
| NetqRanks.FillIds | src/runtime/src/net/netd/netq.c:1013-1025 | The open places of all machines are filled in increasing order, and the result is a permutation |
| NetqRanks.AssignIds | src/runtime/src/net/netd/netq.c:989-1025 | Done exactly if no id is too large or given twice and every node has its place; then the ids are a permutation of 0..total-1 that keeps the given ids and numbers the open places in increasing order |
| NetqRanks.TotalNodes | src/runtime/src/net/netd/netq.c:983-983 | The total over all machines |
| NetqRanks.TableInverse | src/runtime/src/net/netd/netq.h:18-21 | machines[macID].nodeIDs[localID] == rank, both ways |
| NetqRanks.NetqInfo.Start | src/runtime/src/net/netd/netq.c:695-706 | The loops build the table of all nodes and the local table |
| NetqRanks.NetqInfo.StartFromFile | src/runtime/src/net/netd/netq.c:526-534 | The start from a group file builds the tables exactly if the file is taken, with the permutation that the file gives, so the translations are inverse for every accepted file |
| NetqRanks.NetqInfo.TransGlobalRank | src/runtime/src/net/netd/netq.c:1086-1108 | Succeeds exactly for ranks in range after the start, and gives the node of the rank |
| NetqRanks.NetqInfo.FindGlobalRank | src/runtime/src/net/netd/netq.c:1110-1129 | Succeeds exactly for nodes, and gives the rank of the node |
| NetqRanks.NetqInfo.TransLocalRank | src/runtime/src/net/netd/netq.c:1131-1152 | Succeeds exactly for local ranks in range, and gives the global rank |
| NetqRanks.NetqInfo.ThereAndBack | src/runtime/src/net/netd/netq.c:1086-1129 | The two translations are inverse to each other |
| SymbolTable.LookupIsLatest | src/compile/mpitrans/hash.c:132-150 | The specification of lookups: the latest insertion of that name that is still in the table |
| SymbolTable.ChainFinds | src/compile/mpitrans/hash.c:132-150 | The first of the name in its hash chain is the latest of the name, for any hash function |
| SymbolTable.AddTabOk | src/compile/mpitrans/hash.c:93-111 | Insertion keeps every chain linked both ways, through pointers to pointers |
| SymbolTable.DelTabOk | src/compile/mpitrans/hash.c:113-130 | Deletion through the pointer to the pointer keeps every chain linked |
| SymbolTable.WithoutTop | src/compile/mpitrans/symbol.c:237-249 | Taking out what was added on top restores the table |
| SymbolTable.SymTab.constructor | src/compile/mpitrans/hash.c:55-80 | An empty table, with 127 slots by default |
| SymbolTable.SymTab.Addsym | src/compile/mpitrans/hash.c:93-111 | The symbol is the latest |
| SymbolTable.SymTab.Delsym | src/compile/mpitrans/hash.c:113-130 | Exactly that symbol is gone |
| SymbolTable.SymTab.Findsym | src/compile/mpitrans/hash.c:132-150 | The latest symbol of that name, or null |
| SymbolTable.SymTab.Nextsym | src/compile/mpitrans/hash.c:152-161 | The next older symbol of the same name, or null |
| SymbolTable.SymTab.NewSYM | src/compile/mpitrans/symbol.c:31-54 | The top of the recycled symbols, or a new one if there is none, in no table and no list |
| SymbolTable.SymTab.AddSYM | src/compile/mpitrans/symbol.c:143-157 | Entered unless the name is taken at the same level, and marked accordingly |
| SymbolTable.SymTab.DiscardSYM | src/compile/mpitrans/symbol.c:83-100 | The symbol goes to the free list |
| SymbolTable.SymTab.DiscardChain | src/compile/mpitrans/symbol.c:237-249 | Exactly the entered symbols of the chain leave the table, all go to the free list |
| SymbolTable.SymTab.ReverseSymlink | src/compile/mpitrans/symbol.c:216-235 | The chain is reversed in place |
| SymbolTable.SymTab.Scope | src/compile/mpitrans/symbol.c:143-249 | After a scope has been entered and discarded every lookup answers as before |

## Left out

Of the point-to-point protocol:

- Cancellation: it frees handles that are still queued, and the authors call its semantics wrong.
- Persistent requests: the guard of the receive start tests the flag for sends.
- The test calls (`tmpi_intra_test_sh` and what builds on it): one branch leaves its lock held.
- PointToPointTheorems.NoProtocolError: speaks, like all theorems about runs, of runs in which a local ready send is started only when a matching receive is posted, because otherwise the code frees a queued handle; `LonelyReadySendDangles` and `ReadySendDanglesIff` say when.
- Interleavings inside a handler after it has released its lock (`inter_sr.c` lines 272, 352 and 469); a handler is one step. A wait call is cut where it blocks, and it may wake without a signal.
- Links between machines deliver in order, one link per ordered pair of machines. Connections, sockets and the daemon are not part of this model.
- The calls of `mpi_sr.c` appear as the sequences of init, start and wait that a handle goes through; loops over request arrays (`tmpi_Startall`, `tmpi_Waitall` and the like) and combined calls are not modelled.
- Message objects (`tmpi_inter_new_msg`): two handlers do not return their response, so the pool is not claimed to be conserved.
- Deadlock freedom and termination: the authors record a deadlock.

Of the collectives:

- Allocation of handles and chunks succeeds; the allocations of data may fail, and their error codes are followed.
- ReduceQueue.Queue.TakeHandle: takes `tmpi_rdch_alloc` as one step, and the queue takes `tmpi_rdch_free` as one, because several threads may pop at once there and the lock-free list is not claimed to be safe for that.
- A broadcast queue and a reduction queue belong to one root; queues of different roots share nothing and are not put side by side. Groups of one thread return at once and are not modelled.
- The unlocked recheck of `avail` before the root's wait is part of the wait.
- Floating-point and logical operators, and MPI_LONG, which runs through the operators for `int`.
- `netq_barrier` and `netq_allreduce` are taken as given or not modelled: the first as a barrier among the threads 0, the second not at all, so `tmpi_Allreduce` is modelled for one machine.
- The text of `MPI_Barrier` and of `tmpi_Allreduce` is modelled by what a thread may do next, not as a class: the calls in it block.

Of the data structures:

- `Q_reset` passes a bucket where an element is expected; it is not modelled. Elements are one address each, so the sizes that `Q_init` computes are stored and not used. Locks of the pools are one step.
- Sizes of allocations are at least zero; negative sizes wrap in the source and no caller passes them. The mutex of a buffer makes each of its operations one step.
- Splitting the lines of a group file into tokens is not modelled, and its numbers fit in an `int`. Of a file that is wrong it is not said which comes first, the refusal or the end of a table that has no room.
- Of a symbol only name, level, duplicate mark and link are kept; types, initializers and generated code are not.

Files that are not part of the model:

- `fifo.c`: a bounded ring of pointers behind one lock, with conditions for full and empty. `sem.c`: a counting semaphore out of a lock and a condition. `thread.c`: wrappers around the calls of the system.
- `group.c`: unions, intersections and translations of the rank lists of a group, without shared state. `asmalloc.c`: an allocator for debugging that records its calls and checks boundaries.
- The string buffers, the parser and the code generator of `mpitrans`: text in, text out. Process start, sockets, the daemon `netd`, timers and debug output: input and output.

