# VirtIO SCSI driver: the virtqueue and the in-flight request pipeline

A model in Dafny of the part of this AmigaOS 4 driver that keeps shared mutable
state, with proofs of what it promises.

- **Split virtqueue** (`VRing`, `Counters`, `Rings`, `QueueModel`, `QueueRuns`,
  `QueueStore`, `VirtQueue`). The class `VirtQueue` has the descriptor table with
  its intrusive free list, both rings with their 16-bit counters, and the
  parallel arrays of cookies and indirect tables. It is proved to refine a small
  abstract queue (`QueueModel`), about which the partition of the descriptors,
  the fate of every cookie and the capacity of the rings are proved over all
  runs. Fields shared with the device are modelled down to their bytes, in both
  byte orders.
- **Pipeline** (`Pipeline`, `PipelineInv`, `PipelineParts`, `PipelineSteps`,
  `PipelineTheorems`, `SyncTheorems`, `SlotZero`, `Marks`). Up to eight unit tasks and the
  device share one request queue. A step is one lock section, a stretch between two that
  touches only what its task owns, or one move of the device. The invariant is
  proved for every step, and what the pipeline promises follows for every
  interleaving.
- **Data** (`Memory`, `DataPath`, `DataRuns`, `DataSteps`, `DataTheorems`). Bounce
  buffers and direct mappings in a common memory, the ledger of live mappings, and
  the runs in which tasks prepare and complete data, the device writes and callers
  use their own memory, all interleaved with the pipeline's steps.
- **The same over real state** (`UnitState`, `ScsiSteps`, `ScsiIo`, `JointSteps`,
  `ScsiCalls`, `BlockRequests`). The lock sections of Submit, Harvest,
  complete_inflight_slot and DoIO as methods over arrays, each proved to be the
  pipeline's step; the calls composed of them, each a chain of events of the whole;
  and a unit's IORequests joined to it from dispatch to reply.
- **Interrupt coalescing** (`Coalesce`, `LostInterrupts`, `Stranded`): the EVENT_IDX
  arithmetic with one harvester and the device stepping at any point; when it is
  right with several harvesters and DoIOs; and a run in which it is not.
- **Supporting cores**: DMA preallocation (`UnitDma`, with `Ledger`), the life of
  an IORequest (`IoRequests`), capacity and geometry (`Geometry`), CDBs (`Cdb`),
  the rigid disk block (`Rdb`) and the ring layout (`Layout`).

Every row of a table such as `inflight[]` belongs to one unit; the model keeps the
units' rows together in one two-dimensional array. A request is a number that tells
it apart from every other ever submitted, and a response is an opaque answer, so
that "its own answer" can be said.

## What is assumed

- The device is honest: it completes each head it holds once, with an id in range,
  and writes a response before completing. AddBuf gets at least one entry. Queue
  sizes are powers of two up to 32768 (VirtIO 1.2 section 2.7).
- Allocators hand out nothing already in use, and an indirect table is contiguous
  in its DMA mapping, as the code assumes by using the first entry only. The same
  is assumed of a bounce buffer. So bounce buffers lie apart from one another, and
  a caller's buffer is memory of the length it says, clear of them; callers may
  otherwise write to their memory at any time.
- Memory is sequentially consistent at the granularity of the steps.
- Results about the pipeline assume that a DoIO starts only while no submitted
  request is in slot 0, whose buffers it shares. `SyncTheorems` shows this
  condition necessary, and that the fallback to DoIO when Submit finds no free slot
  never meets it; `SlotZero` reaches a state in which a pass-through command
  (`src/unit_task.c:760-762`) does not meet it either. The pipeline's promises are
  false of such runs.

## Where the code and its comments differ

- `include/virtioscsi.h:171-172` says `doio_pending_cookie` is written under
  `io_lock`; Harvest writes it without (`src/virtio/virtio_scsi_io.c:1034-1038`).
  The model has that step outside the lock.
- `src/virtio/virtio_scsi_io.c:415-417` marks the unit so that the interrupt handler
  knows to wake its waiting DoIO; completing the unit's last pipelined request takes
  the mark away again (`src/virtio/virtio_scsi_io.c:200-204`), in that DoIO's own
  drain loop too. `Marks.MarkIsLostExactly` says when, `Stranded.WaitingUnmarked`
  reaches such a state.
- `include/virtio/virtqueue.h:21` calls the `next` field of an indirect descriptor
  unused; the code links the entries and the model follows the links.
- The comments cite EVENT_IDX as section 2.6.7 of the standard; in VirtIO 1.2 it is
  section 2.7.7.
- `include/virtioscsi.h:230-231` calls the bounce buffers permanently mapped; the code
  ends the mapping at once (`src/unit_task.c:173-182`), and so does the model.

## Model

| member | source | states |
|---|---|---|
| `VRing.Vr16RoundTrip` | include/virtio/virtqueue.h:87-90 | Converting twice gives the value back, and a device reading the stored bytes in the negotiated order reads the value. |
| `VRing.Vr32RoundTrip` | include/virtio/virtqueue.h:91-94 | The same for 32 bits. |
| `VRing.Vr64RoundTrip` | include/virtio/virtqueue.h:95-98 | The same for 64 bits. |
| `VRing.FieldBytes16` | include/virtio/virtqueue.h:87-90 | The bytes in memory: least significant first for a modern device, most significant first for a legacy one. |
| `VRing.FieldBytes32` | include/virtio/virtqueue.h:91-94 | The same for 32 bits. |
| `VRing.FieldBytes64` | include/virtio/virtqueue.h:95-98 | The same for 64 bits. |
| `VRing.NodeFields` | src/virtio/virtqueue.c:186-197 | Each node holds its entry's address and length, flag 2 from the first writable entry on, flag 1 on all but the last, and the next node's index. |
| `VRing.WalkReadsSegments` | src/virtio/virtqueue.c:186-197 | A device following NEXT links through descriptors that spell a list reads exactly that list, each entry marked readable or writable as the caller meant. |
| `Counters.WrapSlot` | src/virtio/virtqueue.c:376 | A 16-bit counter reduced by the ring size selects the slot of the unbounded count, after any number of wraps. |
| `Counters.WrapEqual` | src/virtio/virtqueue.c:372 | Counters less than a wrap apart are equal exactly when their 16-bit images are. |
| `Counters.SlotsDiffer` | src/virtio/virtqueue.c:288 | Positions less than a ring apart use different slots. |
| `Rings.Publish` | src/virtio/virtqueue.c:286-293 | Publishing a head appends it to what the device has yet to read and overwrites none of that. |
| `Rings.Fetch` | src/virtio/virtqueue.c:287-288 | In the slot its own wrapped counter selects the device finds the oldest head it has not read. |
| `Rings.Deposit` | src/virtio/virtqueue.c:375-378 | A completion is appended to what the driver has yet to read and overwrites none of that. |
| `Rings.EmptyTest` | src/virtio/virtqueue.c:372-373 | The equality of `last_used_idx` and `used->idx` means exactly that nothing is waiting. |
| `Rings.Collect` | src/virtio/virtqueue.c:375-378 | In the slot `last_used_idx` selects the driver finds the oldest completion it has not read. |
| `QueueModel.InitInv` | src/virtio/virtqueue.c:101-114 | A new queue satisfies the invariant: all descriptors free, nothing outstanding. |
| `QueueModel.AddInv` | src/virtio/virtqueue.c:152-296 | Adding a request in either form keeps the partition of the descriptors and puts the head in exactly one phase. |
| `QueueModel.GetInv` | src/virtio/virtqueue.c:395-442 | Taking a request back keeps both. |
| `QueueRuns.PartitionTheorem` | src/virtio/virtqueue.c:246-284 | Descriptor indices are the disjoint union of the free list and the chains of the outstanding heads; `num_free` and the chain lengths add up to `num`. |
| `QueueRuns.RoomToPost` | src/virtio/virtqueue.c:286-293 | Heads not yet read by the device never fill the available ring before a post. |
| `QueueRuns.RoomToComplete` | src/virtio/virtqueue.c:372-378 | Completions not yet read never fill the used ring before a completion. |
| `QueueRuns.AddOutstanding` | src/virtio/virtqueue.c:281-284 | A successful AddBuf adds its cookie once to the cookies outstanding. |
| `QueueRuns.GetOutstanding` | src/virtio/virtqueue.c:395-397 | GetBuf takes the cookie it returns once from them. |
| `QueueRuns.RunTheorem` | src/virtio/virtqueue.c:152-472 | Over every run of AddBuf, device steps and GetBuf, direct and indirect mixed: the partition holds, the cookies given equal those returned plus those outstanding as multisets, and neither ring overflows. |
| `QueueStore.DeviceReadsRequest` | src/virtio/virtqueue.c:186-277 | Representation independence: whatever form and byte order, a device reading an outstanding head gets the caller's list, the first `out_num` entries readable and the rest writable. |
| `QueueStore.AddDirect` | src/virtio/virtqueue.c:245-284 | A direct chain written over the front of the free list leaves memory representing the queue with the request added. |
| `QueueStore.AddIndirect` | src/virtio/virtqueue.c:213-226 | So does one descriptor naming a table that has been allocated, filled and mapped; the table is owned by that head alone. |
| `QueueStore.GetDone` | src/virtio/virtqueue.c:399-442 | Pushing the chain back node by node, or releasing the table, leaves memory representing the queue with the request removed; no mapping or table outlives its request. |
| `VirtQueue.VirtQueue.constructor` | src/virtio/virtqueue.c:89-117 | A new virtqueue represents the empty queue of its size. |
| `VirtQueue.ThreadFreeList` | src/virtio/virtqueue.c:110-114 | The links written thread all descriptors in order; the last link is 0 and means nothing. |
| `VirtQueue.VirtQueue.AddBuf` | src/virtio/virtqueue.c:152-296 | More than one entry, the feature negotiated and a table to be had: one descriptor, and success exactly if one is free. Otherwise one descriptor for each entry, and success exactly if that many are. Then the queue is the old one with the request added; on failure nothing at all has changed, every table obtained on the way given back. |
| `VirtQueue.VirtQueue.MakeTable` | src/virtio/virtqueue.c:175-239 | The table spells the request; unless it could be allocated, mapped and listed, memory is as before. |
| `VirtQueue.VirtQueue.AddDirect` | src/virtio/virtqueue.c:245-295 | The direct path refines adding to the queue. |
| `VirtQueue.VirtQueue.AddIndirect` | src/virtio/virtqueue.c:210-233 | So does the indirect path, with one descriptor. |
| `VirtQueue.FillChain` | src/virtio/virtqueue.c:246-277 | Turns the first nodes of the free list into the chain, reading each native link before it is converted, and yields the link the new free head comes from. |
| `VirtQueue.FillTable` | src/virtio/virtqueue.c:186-197 | The flat table with its links spells the request. |
| `VirtQueue.VirtQueue.Post` | src/virtio/virtqueue.c:286-293 | The available ring and its index refine appending the head. |
| `VirtQueue.VirtQueue.GetBuf` | src/virtio/virtqueue.c:351-472 | Nothing happens when nothing is waiting; otherwise the oldest completion's own cookie and length are returned, the queue is the old one without that request, and `used_event` is the new `last_used_idx`. |
| `VirtQueue.VirtQueue.HarvestTest` | src/virtio/virtqueue.c:372-373 | In every valid state the first test of GetBuf tells whether a completion waits, and its id is an outstanding head. |
| `VirtQueue.VirtQueue.TakeBack` | src/virtio/virtqueue.c:395-442 | Frees the request's descriptors; a table is unmapped with the size it was mapped with and freed, both while live. |
| `VirtQueue.ReleaseChain` | src/virtio/virtqueue.c:425-439 | The walk bounded only by NEXT flags ends at the chain's last node, having pushed each node once. |
| `VirtQueue.VirtQueue.DeviceTake` | src/virtio/virtqueue.c:245-293 | The device reads the oldest posted head and gets the request as its submitter described it. |
| `VirtQueue.VirtQueue.DeviceComplete` | src/virtio/virtqueue.c:372-378 | Completing any request the device holds, in any order, refines the queue step. |
| `VirtQueue.VirtQueue.SetUsedEvent` | src/virtio/virtio_scsi_io.c:1091-1092 | Writing the word behind the ring changes nothing else. |
| `PipelineSteps.PopKeepsInv` | src/virtio/virtio_scsi_io.c:715-739 | The pipeline invariant survives Submit's first section. |
| `PipelineSteps.AbandonKeepsInv` | src/virtio/virtio_scsi_io.c:684-695 | And every failure path's release of the slot. |
| `PipelineSteps.PostKeepsInv` | src/virtio/virtio_scsi_io.c:893-919 | And marking the slot, AddBuf and counting. |
| `PipelineSteps.CompleteKeepsInv` | src/virtio/virtio_scsi_io.c:144-151 | And the device answering any request it holds, in any order. |
| `PipelineSteps.GetBufKeepsInv` | src/virtio/virtio_scsi_io.c:987-989 | And any task taking any unit's completion. |
| `PipelineSteps.RecogniseKeepsInv` | src/virtio/virtio_scsi_io.c:994-1046 | And routing a cookie to a slot or stashing it. |
| `PipelineSteps.CloseKeepsInv` | src/virtio/virtio_scsi_io.c:192-205 | And completing a slot of another unit; the guards of the counters never act. |
| `PipelineSteps.SendReplyKeepsInv` | src/virtio/virtio_scsi_io.c:207 | And the reply after it. |
| `PipelineSteps.SyncStartKeepsInv` | src/virtio/virtio_scsi_io.c:303-417 | And DoIO taking over slot 0's buffers, provided no submitted request is in it. |
| `PipelineSteps.SyncFailKeepsInv` | src/virtio/virtio_scsi_io.c:394-402 | And a DoIO whose chain the queue will not have. |
| `PipelineSteps.SyncPickupKeepsInv` | src/virtio/virtio_scsi_io.c:473-481 | And a DoIO picking up a stashed cookie. |
| `PipelineSteps.SyncFinishKeepsInv` | src/virtio/virtio_scsi_io.c:602-676 | And a DoIO reading its answer and leaving. |
| `PipelineSteps.RouteIsRight` | src/virtio/virtio_scsi_io.c:1000-1016 | A pipeline cookie leads to its own slot, a DoIO's to none but to its own unit. |
| `PipelineTheorems.InitialInv` | src/unit_task.c:207-211 | The invariant holds when the units' free lists have been threaded. |
| `PipelineTheorems.StepKeepsInv` | src/virtio/virtio_scsi_io.c:139-1101 | Every step of every task and of the device keeps the invariant. |
| `PipelineTheorems.RunInv` | src/virtio/virtio_scsi_io.c:139-1101 | So it holds in every state any interleaving can reach. |
| `PipelineTheorems.ReplySafety` | src/virtio/virtio_scsi_io.c:139-208 | Over every run: no request is replied twice; each reply is to a request Submit accepted, comes after that request's own completion, and carries the answer the device gave to it, whoever harvests it; the same of what DoIO reads. |
| `PipelineTheorems.AcceptedIsSomewhere` | src/virtio/virtio_scsi_io.c:893-919 | At any moment an accepted request is at the slot marked with it, in the hands of a task about to reply it, or replied. |
| `PipelineTheorems.QuietMeansDone` | src/virtio/virtio_scsi_io.c:961-1101 | When the queue has drained and the tasks are back in their loops, all accepted requests have been replied, all slots are free, all counters zero and no cookie is left stashed. |
| `PipelineTheorems.HeadsAreBuffers` | src/virtio/virtio_scsi_io.c:893-919 | Outstanding heads and buffers in flight are in bijection: `cookies[head]` is that buffer. |
| `PipelineTheorems.SlotConservation` | src/virtio/virtio_scsi_io.c:687-726 | Free slots, the one being filled and `inflight_count` add up to 16 for every unit in every reachable state. |
| `PipelineTheorems.OccupiedIsSum` | src/virtio/virtio_scsi_io.c:192-205 | `occupied_count` is the sum of the units' `inflight_count`. |
| `PipelineTheorems.WorkIsCounted` | src/virtio/virtio_irq.c:65-75 | A submitted slot's unit has its mask bit set and both counters above zero, so the interrupt handler skips no unit with pipeline work. |
| `Marks.MarkedHaveWork` | src/virtio/virtio_irq.c:65-75 | And none is marked for nothing: a marked unit has a submitted slot or is inside a DoIO. |
| `Marks.StartMarks` | src/virtio/virtio_scsi_io.c:415-417 | A DoIO marks its unit as it starts to wait. |
| `Marks.MarkIsLostExactly` | src/virtio/virtio_scsi_io.c:198-204 | A step takes the mark of a unit whose DoIO is still waiting if and only if it completes that unit's last counted slot. |
| `Stranded.WaitingUnmarked` | src/virtio/virtio_scsi_io.c:482-556 | A reachable run in which that happens: the DoIO goes on waiting for a request the device has, and no unit at all is marked for the interrupt handler to wake. |
| `Marks.UnansweredIsBlank` | src/virtio/virtio_scsi_io.c:731-735 | In every reachable state a request's response buffer is blank until the device has answered it; nothing of an earlier response is left. |
| `PipelineTheorems.RouteIsSearch` | src/virtio/virtio_scsi_io.c:1000-1016 | Decoding the id finds the slot a search over all units and slots would find, and finds none for a DoIO's id 1. |
| `SyncTheorems.HandOff` | src/virtio/virtio_scsi_io.c:465-558 | While a DoIO is pending its cookie is in exactly one of five places, whoever dequeues it, and never in another unit's stash. |
| `SyncTheorems.SyncStartNeedsSlotZero` | src/virtio/virtio_scsi_io.c:239-266 | All submitted slots are still found by their cookies after a DoIO starts if and only if slot 0 held no submitted request. |
| `SyncTheorems.FallbackFindsSlotZeroUsed` | src/unit_task.c:652-660 | When Submit has no free slot, slot 0 is in use: the fallback to DoIO never meets that condition. |
| `SyncTheorems.FallbackTakesWrongCompletion` | src/unit_task.c:652-660 | What follows: three steps in which slot 0's completion is taken for the DoIO's, whose chain is still outstanding, and the slot stays occupied. |
| `SlotZero.SlotZeroCanBeInUse` | src/unit_task.c:696-762 | A reachable instance, five steps from the start: a command that calls DoIO is dispatched while a completed read is still in slot 0, and the consequence above applies. |
| `Coalesce.CrossesExactly` | src/virtio/virtio_scsi_io.c:1063-1069 | The device's 16-bit test means exactly that the event has now been passed, over any number of wraps. |
| `Coalesce.RunInv` | src/virtio/virtio_scsi_io.c:1058-1100 | Over every run with one harvester, `used_event` is aimed at an outstanding completion not yet passed, or an interrupt is pending, or the harvester is at work. |
| `Coalesce.NoLostInterrupt` | src/virtio/virtio_scsi_io.c:1058-1100 | Whenever Harvest has returned with requests outstanding, an interrupt is pending or `used_event - last_used_idx` lies in [0, outstanding) and is not yet crossed. |
| `Coalesce.SomeCompletionInterrupts` | src/virtio/virtio_scsi_io.c:1058-1100 | Hence, however the device batches its completions, an interrupt is pending once all those outstanding are made. |
| `Coalesce.InterruptAtLast` | src/virtio/virtio_scsi_io.c:1066-1069 | With N >= 2 in flight and none completed, completions one at a time interrupt exactly at the N-th. |
| `Coalesce.CoalescingNeedsTrueCount` | src/virtio/virtio_scsi_io.c:1076-1097 | If Harvest coalesces on a count of two or more with nothing completed, the outstanding completions interrupt if and only if the count does not exceed their number. |
| `Coalesce.StoppingNeedsEmptyRing` | src/virtio/virtio_scsi_io.c:482-489 | A harvester that stops at its own cookie leaves the rest of the completions to interrupt, however batched, if and only if the used ring was empty when it stopped. |
| `LostInterrupts.CountIs` | src/virtio/virtio_scsi_io.c:183-205 | In every reachable state `occupied_count` and the pending DoIOs' outstanding requests together equal the outstanding requests and the tasks with a completion in hand. |
| `LostInterrupts.CoalescingIsRight` | src/virtio/virtio_scsi_io.c:1076-1097 | Hence, with any number of harvesters: what Harvest writes makes the outstanding requests interrupt if and only if no more tasks have a completion in hand than DoIOs have requests outstanding. |
| `LostInterrupts.CoalescingIsRightAlone` | src/virtio/virtio_scsi_io.c:1076-1097 | With no DoIO pending: if and only if no other task has a completion in hand. |
| `LostInterrupts.SmallNumbers` | src/virtio/virtio_scsi_io.c:1077 | The count never exceeds 128, so the 16-bit cast loses nothing. |
| `Stranded.SecondHarvesterStrands` | src/virtio/virtio_scsi_io.c:987-1097 | A reachable run in which the condition fails: one task coalesces while another has a completion in hand, all tasks then wait, and the one outstanding completion raises no interrupt. |
| `Stranded.SyncStopsEarly` | src/virtio/virtio_scsi_io.c:482-489 | A reachable state in which a DoIO leaves a completion of its own unit in the used ring, no other unit being marked for the interrupt handler. |
| `UnitState.FreeLists.constructor` | src/unit_task.c:207-211 | The links thread slots 0 to 15 in order, -1 at the end. |
| `UnitState.FreeLists.Pop` | src/virtio/virtio_scsi_io.c:720-724 | Yields the first slot of the list and the list without it, or -1 for the empty list. |
| `UnitState.FreeLists.Push` | src/virtio/virtio_scsi_io.c:194-196 | Puts the slot in front and disturbs no other unit's list. |
| `UnitState.Slots.Prepare` | src/virtio/virtio_scsi_io.c:731-739 | Blanks the response and writes the id of that slot only. |
| `UnitState.Slots.RouteCookie` | src/virtio/virtio_scsi_io.c:1000-1016 | The decode with its checks computes the routing function. |
| `UnitState.Counters.Count` | src/virtio/virtio_scsi_io.c:916-918 | One more for the unit and in all, and the mask bit. |
| `UnitState.Counters.Uncount` | src/virtio/virtio_scsi_io.c:198-204 | One less for both unless zero, and the bit cleared with the unit's last. |
| `UnitState.Counters.Unmark` | src/virtio/virtio_scsi_io.c:668-676 | DoIO clears the bit exactly when the unit has no pipeline work. |
| `UnitState.Counters.Interrupt` | src/virtio/virtio_irq.c:41-77 | Signals exactly the units with a mask bit and a waiting task, on a queue interrupt only, and claims exactly the interrupts of this device. |
| `ScsiSteps.TurnReplies` | src/virtio/virtio_scsi_io.c:987-1056 | A turn of the drain loop answers the oldest completion and leaves what the later ones call for unchanged. |
| `ScsiSteps.FillsSlot` | src/virtio/virtio_scsi_io.c:720-729 | A slot a task has reserved is unmarked and on no free list. |
| `ScsiIo.PopSlot` | src/virtio/virtio_scsi_io.c:715-748 | The section over the real tables is the pipeline's step, or finds no slot exactly when the list is empty. |
| `ScsiIo.ReleaseSlot` | src/virtio/virtio_scsi_io.c:687-695 | So is the release of a slot. |
| `ScsiIo.AddAndCount` | src/virtio/virtio_scsi_io.c:898-919 | AddBuf and counting under the lock: all or nothing. |
| `ScsiIo.PostSlot` | src/virtio/virtio_scsi_io.c:893-919 | Marking, AddBuf and counting are the pipeline's step exactly when the queue has room; else all tables are as before. |
| `ScsiIo.TakeCompletion` | src/virtio/virtio_scsi_io.c:987-989 | GetBuf under the lock is the pipeline's step. |
| `ScsiIo.Recognise` | src/virtio/virtio_scsi_io.c:994-1046 | Routing, with the search for a stashing unit, is the pipeline's step. |
| `ScsiIo.FindSyncOwner` | src/virtio/virtio_scsi_io.c:1025-1033 | The loop finds the unit whose slot-0 buffer the cookie is, or none. |
| `ScsiIo.FreeAndUncount` | src/virtio/virtio_scsi_io.c:192-205 | The lock section of a completion on all three tables. |
| `ScsiIo.CloseSection` | src/virtio/virtio_scsi_io.c:192-207 | The section and the reply are two steps of the pipeline, and the reply carries what the response buffer holds. |
| `ScsiIo.StartSync` | src/virtio/virtio_scsi_io.c:303-417 | DoIO's submission is the pipeline's step, success or failure. |
| `ScsiIo.PickUp` | src/virtio/virtio_scsi_io.c:473-481 | Picking up a stashed cookie is the pipeline's step, exactly when one is there. |
| `ScsiIo.FinishSync` | src/virtio/virtio_scsi_io.c:602-676 | DoIO's exit is the pipeline's step and returns what the response buffer holds. |
| `ScsiIo.DeviceTakes` | src/virtio/virtqueue.c:245-293 | The device taking a request is the pipeline's step, and it finds the request as posted. |
| `DataPath.FilledBuffer` | src/virtio/virtio_scsi_io.c:767-777 | A bounced write leaves the caller's bytes in the slot's own bounce buffer. |
| `DataPath.FilledElsewhere` | src/virtio/virtio_scsi_io.c:767-777 | And changes no other slot's buffer or record. |
| `DataPath.WrittenElsewhere` | src/virtio/virtio_scsi_io.c:812-877 | Nor does what the device writes where one slot's chain lets it. |
| `DataPath.FinishedElsewhere` | src/virtio/virtio_scsi_io.c:164-181 | Nor does a completion, its read-back into the caller's pages included. |
| `DataPath.FinishedPages` | src/virtio/virtio_scsi_io.c:148-171 | After any completion the caller's pages begin with io_Actual bytes of the bounce buffer if it was a bounced read; otherwise, and behind them, they are as they were. |
| `DataPath.ChainSays` | src/virtio/virtio_scsi_io.c:767-891 | Of the request itself: when it can be submitted (mapping granted, entry array there, at most 64 entries in each list), its chain and the readable part of it. |
| `DataPath.FilledSays` | src/virtio/virtio_scsi_io.c:767-810 | Of the request itself: a bounced one is noted and, if a write, copied; a longer one is mapped with its pages, length and direction; one without data is neither. |
| `DataPath.ReleasedSays` | src/virtio/virtio_scsi_io.c:176-181 | EndDMA names the pages, size and direction the mapping was made with. |
| `DataPath.FinishedSays` | src/virtio/virtio_scsi_io.c:148-181 | Of the slot's record: what completion does to mapping, record and memory. |
| `DataSteps.EventKeeps` | src/virtio/virtio_scsi_io.c:139-925 | Every step of the pipeline, every preparation, rollback and completion of a slot's data, every device write and every caller's write to its own memory keeps each slot's record and buffer tied to its request. |
| `DataTheorems.HistoryInv` | src/virtio/virtio_scsi_io.c:139-925 | So they are tied in every state any interleaving of these can reach. |
| `DataTheorems.DeviceSeesRequest` | src/virtio/virtio_scsi_io.c:812-877 | The chain of every submitted slot in any such state: header and data out to be read, response and data in to be written; the data is the slot's own bounce buffer up to 64 KB and the caller's own pages beyond, on the side its direction asks. |
| `DataSteps.ChainLeads` | src/virtio/virtio_scsi_io.c:836-877 | So a device that writes where that chain says, and only there, writes a read into the slot's bounce buffer or the caller's pages, and a write nowhere. |
| `DataTheorems.DeviceFindsData` | src/virtio/virtio_scsi_io.c:812-877 | What it finds to read there: a bounced write's bytes as given, a direct write's own pages, and nothing but the header in a read. |
| `DataTheorems.WriteArrives` | src/virtio/virtio_scsi_io.c:767-877 | From preparation to the device: at every later moment until it is answered, a bounced write still carries the bytes its caller's pages held when it was prepared, whatever other slots, tasks, the device and callers do. |
| `DataTheorems.ReadArrives` | src/virtio/virtio_scsi_io.c:148-171 | From the device to the caller: whatever happens between the device's answer and the completion, the pages then begin with io_Actual bytes of what the device wrote to that request. |
| `DataTheorems.ReadEndToEnd` | src/virtio/virtio_scsi_io.c:139-208 | Over every run: each reply to a bounced read follows the device's answer to that very request and then one completion that put what the device wrote into the caller's pages. |
| `DataTheorems.DirectReadLands` | src/virtio/virtio_scsi_io.c:783-810 | A read too long to bounce: what the device writes as it answers is at the front of the caller's pages, and the rest is as it was. |
| `DataTheorems.RepliesAreDelivered` | src/virtio/virtio_scsi_io.c:139-208 | Every reply was completed as its own answer says: io_Actual and the residual add up to the length, or io_Actual is 0 on an error or a residual too large; only a bounced read's completion touches the caller's pages, by that many of the device's bytes. |
| `DataTheorems.LiveMappings` | src/virtio/virtio_scsi_io.c:783-810 | In every state any run reaches the live mappings are exactly those the slots answer for: a submitted direct request's until its completion has ended it. |
| `DataTheorems.QuietLedger` | src/virtio/virtio_scsi_io.c:176-181 | When the pipeline has gone quiet none is live. |
| `JointSteps.Lift` | src/virtio/virtio_scsi_io.c:139-1101 | Each section above is also an event of these runs. |
| `JointSteps.TurnStore` | src/virtio/virtio_scsi_io.c:987-1056 | A turn of the drain loop leaves to the later completions just what they would have done to memory and ledger. |
| `ScsiCalls.FillSlot` | src/virtio/virtio_scsi_io.c:764-891 | Between Submit's sections: the data prepared and the chain built as specified, or what was begun undone. |
| `ScsiCalls.SendSlot` | src/virtio/virtio_scsi_io.c:893-914 | The filled slot is posted with its own chain, or its mapping is ended and the slot released. |
| `ScsiCalls.SubmitReserved` | src/virtio/virtio_scsi_io.c:728-925 | The outcome and all effects of Submit after its first section, memory and ledger included. |
| `ScsiCalls.Submit` | src/virtio/virtio_scsi_io.c:709-925 | Undisturbed, Submit returns -1, an error or success exactly when it should; each outcome is a chain of events of the whole, and says what has become of the data. |
| `ScsiCalls.SubmittedSays` | src/virtio/virtio_scsi_io.c:783-925 | When Submit succeeds: the data can be mapped if it must be, the chain has at most 64 entries, and the queue has one free descriptor for an indirect table or one for each entry. |
| `ScsiCalls.FinishSlot` | src/virtio/virtio_scsi_io.c:148-181 | io_Actual, read-back and the end of the mapping, for the completed slot. |
| `ScsiCalls.CompleteSlot` | src/virtio/virtio_scsi_io.c:139-208 | complete_inflight_slot as a whole: three events, the reply, and the new memory and ledger. |
| `ScsiCalls.Settle` | src/virtio/virtio_scsi_io.c:989-1053 | What one cookie comes to: its request completed and replied, or the cookie stashed and the data left alone. |
| `ScsiCalls.HarvestOne` | src/virtio/virtio_scsi_io.c:987-1056 | One turn of the loop, with its effect on the data; a task inside DoIO stops at its own cookie. |
| `ScsiCalls.Drain` | src/virtio/virtio_scsi_io.c:987-1056 | Undisturbed, the loop empties the used ring, replies exactly the requests whose completions were in it, in their order, and leaves the data as those completions in that order do. |
| `ScsiCalls.DrainForOwn` | src/virtio/virtio_scsi_io.c:482-551 | One wake of DoIO: its own cookie is found exactly when it was in the used ring; completions before it are settled. |
| `ScsiCalls.Harvest` | src/virtio/virtio_scsi_io.c:961-1101 | Drain, and `used_event` aimed at the last of the requests still counted when there are two or more. |
| `ScsiCalls.AimedSays` | src/virtio/virtio_scsi_io.c:1076-1097 | The word behind the ring is then what the coalescing machine computes. |
| `ScsiCalls.Open` | src/unit_task.c:201-273 | The tables as first set up hold a state in which a run begins. |
| `ScsiCalls.DeviceAnswers` | src/virtio/virtio_scsi_io.c:144-151 | The device writing a response, the bytes of a read, and completing the head is one event. |
| `BlockRequests.DispatchBlock` | src/unit_task.c:626-682 | A block request taken from the port is submitted: it goes to the slot Submit queued it in, or is replied at once with the error that kept it out; the unit's slots stay those of the pipeline. |
| `BlockRequests.CompleteBlock` | src/virtio/virtio_scsi_io.c:139-208 | A completed slot's request is replied once, with the error and the io_Actual the device's own answer to it stands for, whichever task completes it. |
| `DataPath.SlotData.Prepare` | src/virtio/virtio_scsi_io.c:764-810 | Fails exactly when a mapping is needed and cannot be had or is too long; the ledger then is as before. |
| `DataPath.SlotData.Fill` | src/virtio/virtio_scsi_io.c:764-891 | The same with the chain built and its length checked. |
| `DataPath.SlotData.BuildChain` | src/virtio/virtio_scsi_io.c:812-877 | The loops build the specified chain and count of readable entries. |
| `DataPath.SlotData.Release` | src/virtio/virtio_scsi_io.c:903-911 | Ends the slot's mapping if it has one; only a live mapping can be ended. |
| `DataPath.SlotData.Finish` | src/virtio/virtio_scsi_io.c:148-181 | Clamped io_Actual, bounced read-back and the end of the mapping. |
| `DataPath.WriteIsFaithful` | src/virtio/virtio_scsi_io.c:767-810 | On either path the device reads the bytes of the caller's pages, and only the bounce buffer has changed. |
| `DataPath.BouncedRead` | src/virtio/virtio_scsi_io.c:164-171 | A bounced read without error leaves memory, the bounce buffer apart, as a transfer into the caller's own pages would: first the device's bytes, then the caller's own. |
| `DataPath.FailedRead` | src/virtio/virtio_scsi_io.c:150-155 | A bounced read with an error leaves the caller's pages alone. |
| `DataPath.BouncedReadTrustsResidual` | src/virtio/virtio_scsi_io.c:157-171 | For any residual the device reports: the first io_Actual bytes are those of the direct path if and only if that many were written or the stale bytes agree. |
| `DataPath.ChainOrder` | src/virtio/virtio_scsi_io.c:822-877 | Request header, data out, response, data in, on both paths and in both directions (VirtIO 1.2 section 5.6.6.1). |
| `UnitDma.AllocOneSlot` | src/unit_task.c:27-97 | Both buffers mapped and listed, or nothing kept, for every pattern of failures; and it fails only if the system refused something. |
| `UnitDma.FreeOneSlot` | src/unit_task.c:99-120 | Gives back exactly what a slot has, nothing for an empty one. |
| `UnitDma.AllocOneBounce` | src/unit_task.c:134-185 | A bounce buffer left unmapped, or nothing. |
| `UnitDma.AllocRow` | src/unit_task.c:213-260 | A slot complete, or everything of it given back. |
| `UnitDma.FreeRow` | src/unit_task.c:281-288 | A slot's share of the release. |
| `UnitDma.UnitBuffers.FreeRows` | src/unit_task.c:216-225 | The rollback loop over the slots already made. |
| `UnitDma.UnitBuffers.Preallocate` | src/unit_task.c:201-273 | All sixteen slots complete and accounted for exactly if the system refused nothing; else the system and the unit as before. |
| `UnitDma.UnitBuffers.FreeAll` | src/unit_task.c:275-302 | Everything the unit has is given back once and its tables are empty. |
| `UnitDma.Lifecycle` | src/unit_task.c:201-302 | Whatever fails, opening, shutting down and shutting down again leave the system as it was; in between 96 things more are live if the system refused nothing, and none if it did. |
| `IoRequests.QueuedIsKnown` | src/unit_task.c:703-782 | BeginIO queues exactly the commands the dispatcher knows. |
| `IoRequests.FateIs` | src/BeginIO.c:26-308 | BeginIO's switch, command by command. |
| `IoRequests.TreatmentIs` | src/unit_task.c:703-782 | The dispatcher's switch, command by command, with each block command's direction. |
| `IoRequests.UnitlessIsAnswered` | src/BeginIO.c:36-245 | Without a unit every command is answered there and then, with OPENFAIL exactly if it would have been held or queued. |
| `IoRequests.AnsweredOnce` | src/BeginIO.c:26-308 | A request handed in once was answered at once, or has exactly one reply, or is held, and no two of these. |
| `IoRequests.Unit.BeginIO` | src/BeginIO.c:26-308 | By command: held, replacing and aborting the one held before; the held one ended with 0; the no-ops answered 0; the slow ones queued if the port is open and refused if not; all others NOCMD. Every request handed in is in one place, or has been given back once. |
| `IoRequests.Unit.AbortIO` | src/BeginIO.c:310-355 | Takes out and replies exactly a request still in the port, keeping the order of the others. |
| `IoRequests.Unit.GetMsg` | src/unit_task.c:404-409 | The oldest request passes from the port to the task. |
| `IoRequests.Unit.Dispatch` | src/unit_task.c:696-829 | By command: a submitted block request goes to its slot; every other request is replied, with NOCMD if the task does not know it. |
| `IoRequests.Unit.ReplySlot` | src/virtio/virtio_scsi_io.c:192-207 | A slot's request leaves it as it is replied. |
| `IoRequests.Unit.ReplyHeld` | src/BeginIO.c:366-383 | Both held requests replied and cleared. |
| `IoRequests.Unit.DrainSlots` | src/unit_task.c:419-439 | Every occupied slot replied once, in order, and its mapping ended. |
| `IoRequests.DrainedRows` | src/unit_task.c:430-436 | The drain ends the mapping of every occupied slot and touches neither memory nor any other row. |
| `IoRequests.Unit.DrainPort` | src/unit_task.c:441-453 | Every queued request replied once, in order. |
| `IoRequests.PortRepliesAre` | src/unit_task.c:441-453 | What it replies: each request of the port, in order, as aborted. |
| `IoRequests.SlotRepliesAre` | src/unit_task.c:419-429 | And the drain of the slots: what is in each, slot after slot, as aborted. |
| `IoRequests.Unit.Shutdown` | src/unit_task.c:419-459 | After the drains nothing is held, and every request ever handed in has been given back exactly as often. |
| `IoRequests.Unit.ClosePort` | src/unit_task.c:467-479 | Freeing the port loses no request if and only if none was queued since the drain. |
| `IoRequests.LateRequestIsLost` | src/BeginIO.c:238-303 | An instance: a read that comes in after the drain is neither replied nor held. |
| `Geometry.UnitGeometry.EnsureCached` | src/scsi_cdb_helpers.c:83-160 | Both commands' failures, the saturated short answer and the cached case. |
| `Geometry.CapacityLearnt` | src/scsi_cdb_helpers.c:111-151 | From an honest device of any size the last block and block size are decoded exactly, 2^32 blocks included. |
| `Geometry.CylinderOf` | src/exec_cmds/cmd_td_getgeometry.c:60-69 | The loop computes the greatest common divisor of the capacity and 256, and the exact quotient. |
| `Geometry.Synthesize` | src/exec_cmds/cmd_td_getgeometry.c:60-119 | Every field of the logical geometry: cylinders of a power of two of blocks up to 256, as large as divides the capacity. |
| `Geometry.CommonPart` | src/exec_cmds/cmd_td_getgeometry.c:66-69 | Why: an odd quotient leaves nothing more in common with a power of two. |
| `Geometry.GetGeometry` | src/exec_cmds/cmd_td_getgeometry.c:11-143 | Length error, missing unit, failure and success of the handler, field by field. |
| `Geometry.GeometryIsExact` | src/exec_cmds/cmd_td_getgeometry.c:60-95 | Cylinders times cylinder size is the capacity if and only if the quotient fits 32 bits; total sectors are the capacity clamped, never 0. |
| `Geometry.DiscoverAndReport` | src/scsi_cdb_helpers.c:83-160 | From the device's answers to the caller's struct, for every last block below 2^64 - 1. |
| `Cdb.Make10` | src/scsi_cdb_helpers.c:15-41 | The ten bytes carry opcode, block and count where SBC-3 puts them. |
| `Cdb.Make16` | src/scsi_cdb_helpers.c:43-81 | The sixteen bytes do. |
| `Cdb.Decode10` | src/scsi_cdb_helpers.c:15-41 | A target decodes the short form to what was encoded. |
| `Cdb.Decode16` | src/scsi_cdb_helpers.c:43-81 | And the long form. |
| `Cdb.BuildBlockCdb` | src/unit_task.c:626-646 | For every offset, length and block size the CDB decodes to exactly the blocks asked for, and is the short form exactly when both numbers fit it. |
| `Cdb.DispatchBlockCdb` | src/unit_task.c:703-743 | For each of the block commands, listed: the target decodes a write exactly for the write and format commands, and the blocks that begin at the byte offset, whose high word is io_Actual for the TD64 and NSCMD commands only. |
| `Cdb.CopyCdb` | src/virtio/virtio_scsi_io.c:744-748 | The request's CDB field is the CDB followed by zeros, whatever it held. |
| `Cdb.PaddedDecodes` | src/virtio/virtio_scsi_io.c:744-748 | The target decodes the padded field like the CDB. |
| `Rdb.CheckSeal` | src/scsi_cdb_helpers.c:238-275 | The loop accepts exactly the blocks with signature, plausible count and a sum of zero modulo 2^32. |
| `Rdb.LongIs` | src/scsi_cdb_helpers.c:238-262 | Longwords are read most significant byte first. |
| `Rdb.WrittenPasses` | src/scsi_cdb_helpers.c:247-275 | A header whose checksum is the negated sum of its other longwords is accepted. |
| `Rdb.OneChangeIsSeen` | src/scsi_cdb_helpers.c:263-275 | Changing any one summed longword but the count makes it rejected. |
| `Rdb.ProbeShape` | src/scsi_cdb_helpers.c:238-359 | A shape is reported exactly for a sealed block with a plausible one, and the partition's stands in exactly when all conditions hold. |
| `Rdb.OverrideKeepsCylinder` | src/scsi_cdb_helpers.c:347-355 | Of an accepted override and the header, when one product of heads and sectors fits 32 bits, the other equals it if and only if it fits too. |
| `Rdb.ProbeGrowsCylinder` | src/scsi_cdb_helpers.c:238-359 | A sealed header and a partition block the probe accepts, for which the shape reported has a cylinder 2^32 blocks larger than the header's. |
| `Layout.RoundUpIsLeast` | src/virtio/virtqueue.c:35 | The mask computes the least page multiple not below the size, short of wrap-around. |
| `Layout.Allocate` | src/virtio/virtqueue.c:30-57 | Wherever the allocator puts the block, the aligned memory lies in it and the three parts in that memory, apart and aligned. |
| `Layout.LayoutIs` | src/virtio/virtqueue.c:30-37 | The sizes themselves, for every queue size. |
| `Layout.PartsAreApart` | src/virtio/virtqueue.c:30-37 | The three parts, the `used_event` word included, are disjoint and inside the memory accounted for (VirtIO 1.2 section 2.7.2). |
| `Layout.BlockHoldsLayout` | src/virtio/virtqueue.c:39-57 | Wherever the block is put, the aligned memory lies inside it and each part is aligned as required. |
| `Layout.RingAddresses` | src/virtio/virtio_init.c:376-381 | The addresses given to the device have the offsets of the driver's own pointers. |

## Left out

- VirtQueue.VirtQueue.GetBuf: the branch that drops a completion whose id is out of range (`src/virtio/virtqueue.c:385-390`), because the device is assumed honest.
- VirtQueue.VirtQueue.AddBuf: at least one entry and at most 65536, because the links of a table are 16 bits wide; callers pass at least two and at most 64.
- PipelineTheorems.ReplySafety: does not cover runs in which a DoIO starts while slot 0 is in use, because the code breaks its promise there (`SyncTheorems.FallbackTakesWrongCompletion`).
- ScsiCalls.Submit: the composition is verified undisturbed; what other tasks and the device do between its sections is covered by the runs.
- ScsiCalls.Harvest: likewise; the whole call is specified for a used ring that grows no further while it runs.
- ScsiCalls.DrainForOwn: when it finds its own cookie the contract does not say which completions it has settled before, only that the state is one a run reaches.
- ScsiIo.StartSync: DoIO's own data mapping and chain are parameters; its data buffer is among what callers may write to.
- ScsiIo.FinishSync: the clamp of the residual and the end of the data mapping.
- DataTheorems.WriteArrives: the direct path, on which the device reads and writes the caller's own pages and what it finds there is the caller's affair.
- Coalesce.NoLostInterrupt: one harvester at a time and no DoIO in the run, because it is false otherwise; `LostInterrupts.CoalescingIsRight` and `Coalesce.StoppingNeedsEmptyRing` say exactly when it holds, `Stranded` shows a run in which it fails.
- IoRequests.Unit.ClosePort: the race is stated, not excluded: BeginIO tests `io_port` without the lock.
- IoRequests.Unit.BeginIO: io_Actual of the inline commands.
- IoRequests.Unit.Shutdown: the counters and the ring, which the code leaves as they are, so that chains stay outstanding after their requests have been replied.
- BlockRequests.DispatchBlock: the fallback DoIO is the parameter `syncError`, because it never meets DoIO's condition (`SyncTheorems.FallbackFindsSlotZeroUsed`).
- Geometry.GetGeometry: a null data pointer, through which the code writes.
- Rdb.ProbeShape: blocks shorter than 512 bytes, past whose end the code reads, and the reading of the two blocks.
- DoIO's timeouts with their deliberate leak, its retry count, its polling path and its discovery path with temporary buffers. A retry after CHECK CONDITION is modelled as a new start.
- `map_scsi_error`: a parameter (`World.verdict`).
- Memory barriers and cache maintenance.
- Kicks and their suppression, the event and control queues, hot-plug.
- Semaphores, signals, ports and task creation as such: they appear as atomic steps.
- PCI discovery, registers and the status handshake, except the ring addresses.
- Fixed-table handlers: VPD pages, LOG SENSE, SMART, device query, command names.
- Open, Close and Expunge counts, the installer, the test programs.
