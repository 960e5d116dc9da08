/** A unit's IORequests and the pipeline together: what submit_block_io and
    UnitTask_Dispatch in src/unit_task.c make of a block request, and what its
    completion answers. */
module BlockRequests {
  import opened Types
  import opened Pipeline
  import opened PipelineInv
  import opened PipelineTheorems
  import opened UnitState
  import opened ScsiSteps
  import opened DataPath
  import opened DataRuns
  import opened DataTheorems
  import opened JointSteps
  import opened ScsiIo
  import opened ScsiCalls
  import DataSteps
  import IR = IoRequests
  import VQ = VirtQueue
  import QM = QueueModel

  const HFERR_DMA: int := 41
  const TDERR_NOT_SPECIFIED: int := 20

  /** The requests in the unit's slots are those of the pipeline. */
  ghost predicate Joined(unit: IR.Unit, u: nat, d: Driver)
    reads unit, unit.inflight
  {
    && unit.inflight.Length == MAX_INFLIGHT
    && forall s: nat | s < MAX_INFLIGHT :: Key(u, s) in d.slots && unit.inflight[s] == d.slots[Key(u, s)].ioreq
  }

  /** The error a request that was not queued is replied with: Submit's own, or
      what the DoIO in its place came to. */
  function ErrorFor(rc: Rc, syncError: int): int
  {
    match rc
    case NoSlot => syncError
    case DmaError => HFERR_DMA
    case QueueFull => TDERR_NOT_SPECIFIED
    case Queued => 0
  }

  // ---------------------------------------------------------------------
  // What the events do to inflight[]
  // ---------------------------------------------------------------------

  lemma PopSlots(w: World, j: Joint, u: nat, io: Io, a: Joint)
    requires Goes(w, j, Drive(Pop(u, io), []), a)
    ensures Reachable(a.s) && At(j.s.d, u) && At(a.s.d, u) && j.s.d.free[u] != []
    ensures a.s.d.slots == j.s.d.slots && a.s.d.task[u].pc == Filling(j.s.d.free[u][0], io)
  {
    hide Attained, Reachable;
    AttainedReachable(w, a);
  }

  lemma DataEvent(w: World, j: Joint, e: Event, j': Joint)
    requires Goes(w, j, e, j') && (e.FillData? || e.UndoFill?)
    ensures j'.s == j.s
  {
    hide Attained, Filled, Released;
  }

  lemma UndoneSlots(w: World, j: Joint, u: nat, begun: bool, j': Joint)
    requires Undone(w, j, u, begun, j')
    ensures j'.s == j.s
  {
    hide Goes;
    if begun {
      var mid :| Goes(w, j, FillData(u), mid) && Goes(w, mid, UndoFill(u), j');
      DataEvent(w, j, FillData(u), mid);
      DataEvent(w, mid, UndoFill(u), j');
    }
  }

  lemma PostSlots(w: World, j: Joint, u: nat, sg: seq<Sg>, outNum: nat, table: Option<nat>, j': Joint)
    requires Goes(w, j, Drive(Post(u, sg, outNum, table), []), j')
    ensures At(j.s.d, u) && j.s.d.task[u].pc.Filling?
    ensures var k := Key(u, j.s.d.task[u].pc.slot);
            j'.s.d.slots == j.s.d.slots[k := Slot(Some(j.s.d.task[u].pc.io), Some(CookieOf(k)))]
  {
    hide Attained, QM.Add, QM.CanAdd, ChainFor, OutFor, RecordFor;
  }

  lemma AbandonSlots(w: World, j: Joint, u: nat, j': Joint)
    requires Goes(w, j, Drive(Abandon(u), []), j')
    ensures j'.s.d.slots == j.s.d.slots
  {
    hide Attained;
  }

  /** What Submit does to inflight[]. */
  lemma SubmittedSlots(w: World, vq: VQ.VirtQueue, luck: Luck, u: nat, k: Key, io: Io,
                       j: Joint, a: Joint, rc: Rc, b: Joint, j': Joint)
    requires Goes(w, j, Drive(Pop(u, io), []), a) && u in j.s.d.free && j.s.d.free[u] != [] && k == SlotOf(j.s, u)
    requires HasSlot(a.m, RowOf(k)) && Submitted(w, vq, luck, u, k, io, a, rc, b, j')
    ensures k in j.s.d.slots && j.s.d.slots[k] == EMPTY && k.slot < MAX_INFLIGHT
    ensures j'.s.d.slots == if rc.Queued? then j.s.d.slots[k := Slot(Some(io), Some(CookieOf(k)))] else j.s.d.slots
  {
    hide Goes, Reachable, RecordFor, ChainFor, OutFor, QM.CanAdd, Outcome, MapsOk, Filled, Undone,
         VQ.VirtQueue.TableFor;
    PopSlots(w, j, u, io, a);
    FillsSlot(a.s, u, k.slot);
    if rc.Queued? {
      DataEvent(w, a, FillData(u), b);
      var bounce := a.m.bounce[RowOf(k)];
      var chain := ChainFor(w, k, io, bounce);
      PostSlots(w, b, u, chain, OutFor(w, k, io, bounce), vq.TableFor(chain, luck.offer), j');
    } else {
      UndoneSlots(w, a, u, MapsOk(RecordFor(w, io), luck.mappable, luck.pool), b);
      AbandonSlots(w, b, u, j');
    }
  }

  lemma SubmitResult(w: World, vq: VQ.VirtQueue, luck: Luck, u: nat, io: Io, j: Joint, a: Joint, rc: Rc,
                     b: Joint, j': Joint)
    requires Attained(w, j) && u in j.s.d.free && (rc.NoSlot? ==> j' == j)
    requires !rc.NoSlot? ==>
      && j.s.d.free[u] != [] && Goes(w, j, Drive(Pop(u, io), []), a) && HasSlot(a.m, RowOf(SlotOf(j.s, u)))
      && Submitted(w, vq, luck, u, SlotOf(j.s, u), io, a, rc, b, j')
    ensures Attained(w, j')
    ensures if rc.Queued?
            then var k := SlotOf(j.s, u);
                 && k in j.s.d.slots && j.s.d.slots[k] == EMPTY && k.slot < MAX_INFLIGHT
                 && j'.s.d.slots == j.s.d.slots[k := Slot(Some(io), Some(CookieOf(k)))]
            else j'.s.d.slots == j.s.d.slots
  {
    hide Attained, RecordFor, ChainFor, OutFor, QM.CanAdd, Outcome, MapsOk, Filled, Undone, VQ.VirtQueue.TableFor;
    if !rc.NoSlot? {
      SubmittedSlots(w, vq, luck, u, SlotOf(j.s, u), io, j, a, rc, b, j');
    }
  }

  // ---------------------------------------------------------------------
  // From the port to the slot
  // ---------------------------------------------------------------------

  /** UnitTask_Dispatch of a block request, undisturbed: it goes to the slot Submit
      queued it in, or is replied at once with the error that kept it from one.
      `syncError` is what the DoIO comes to that takes the place of a missing
      slot. */
  method DispatchBlock(unit: IR.Unit, c: IR.Command, lists: FreeLists, slots: Slots, counters: UnitState.Counters,
                       vq: VQ.VirtQueue, data: SlotData, u: nat, w: World, luck: Luck, syncError: int, ghost j: Joint)
    returns (rc: Rc, ghost a: Joint, ghost b: Joint, ghost j': Joint)
    requires unit.Valid() && unit.dispatching.Some? && IR.TreatmentOf(c).BlockIo? && Joined(unit, u, j.s.d)
    requires ListsHold(lists, j.s.d) && SlotsHold(slots, j.s.d)
    requires CountersHold(counters, j.s.d) && QueueHolds(vq, j.s.d)
    requires DataHolds(data, j.m) && Attained(w, j) && CallerOk(w, j.m, unit.dispatching.value)
    requires Starts(j.s, u, unit.dispatching.value) && vq.cookies != counters.pendingCookie && vq.Honest(luck.offer)
    requires (forall k :: w.header(k) != []) && unit.inflight != vq.indirectTables
    modifies unit`dispatching, unit`log, unit.inflight
    modifies lists`free, lists.next, lists.head, slots`slots, slots.inflight
    modifies slots`ids, slots`resp, slots.requestId, slots.response
    modifies counters`occupied, counters`mask, counters`count, counters.inflightCount
    modifies vq`freeHead, vq`numFree, vq`availIdx, vq`memory, vq`q, vq`posted
    modifies vq.desc, vq.cookies, vq.indirectTables, vq.availRing
    modifies data`ram, data`live, data.table
    ensures ListsHold(lists, j'.s.d) && SlotsHold(slots, j'.s.d)
    ensures CountersHold(counters, j'.s.d) && QueueHolds(vq, j'.s.d)
    ensures DataHolds(data, j'.m) && Attained(w, j')
    ensures unit.Valid() && unit.dispatching.None? && Joined(unit, u, j'.s.d)
    // Submit has been tried
    ensures (rc.NoSlot? <==> j.s.d.free[u] == []) && (rc.NoSlot? ==> j' == j)
    ensures !rc.NoSlot? ==>
      && Goes(w, j, Drive(Pop(u, old(unit.dispatching).value), []), a) && HasSlot(a.m, RowOf(SlotOf(j.s, u)))
      && Submitted(w, vq, luck, u, SlotOf(j.s, u), old(unit.dispatching).value, a, rc, b, j')
    ensures unit.log == old(unit.log)
              + if rc.Queued? then [] else [IR.Reply(old(unit.dispatching).value, ErrorFor(rc, syncError))]
    ensures rc.Queued? ==> unit.log == old(unit.log)
    ensures rc.NoSlot? ==> unit.log == old(unit.log) + [IR.Reply(old(unit.dispatching).value, syncError)]
    ensures rc.DmaError? ==> unit.log == old(unit.log) + [IR.Reply(old(unit.dispatching).value, HFERR_DMA)]
    ensures rc.QueueFull? ==> unit.log == old(unit.log) + [IR.Reply(old(unit.dispatching).value, TDERR_NOT_SPECIFIED)]
  {
    hide Attained, Reachable, ListsHold, SlotsHold, CountersHold, VQ.VirtQueue.Valid, VQ.VirtQueue.Honest, DataHolds,
         CallerOk, IR.Unit.Valid, IR.TreatmentOf, Submitted, Goes;
    var io, slot := unit.dispatching.value, -1;
    rc, slot, a, b, j' := Submit(lists, slots, counters, vq, data, u, io, w, luck, j);
    SubmitResult(w, vq, luck, u, io, j, a, rc, b, j');
    unit.Dispatch(c, if rc.Queued? then Some(slot as nat) else None, ErrorFor(rc, syncError));
  }

  // ---------------------------------------------------------------------
  // From the completion to the reply
  // ---------------------------------------------------------------------

  /** complete_inflight_slot as the owner of the request sees it, whichever task
      `t` runs it: the request in the slot is replied with the error the device's
      own answer to it stands for, and leaves the slot. */
  method CompleteBlock(unit: IR.Unit, lists: FreeLists, slots: Slots, counters: UnitState.Counters, data: SlotData,
                       t: nat, k: Key, w: World, ghost j: Joint)
    returns (reply: Pipeline.Reply, actual: uint32, ghost j': Joint)
    requires unit.Valid() && Joined(unit, k.unit, j.s.d)
    requires ListsHold(lists, j.s.d) && SlotsHold(slots, j.s.d) && CountersHold(counters, j.s.d)
    requires DataHolds(data, j.m) && Completes(w, j, t, k)
    modifies unit`log, unit.inflight
    modifies lists`free, lists.next, lists.head, slots`slots, slots.inflight
    modifies counters`occupied, counters`mask, counters`count, counters.inflightCount
    modifies data`ram, data`live, data.table
    ensures ListsHold(lists, j'.s.d) && SlotsHold(slots, j'.s.d) && CountersHold(counters, j'.s.d)
    ensures DataHolds(data, j'.m) && CompletedBy(w, j, t, j') && j'.s.d.replies == j.s.d.replies + [reply]
    ensures k.slot < MAX_INFLIGHT == unit.inflight.Length && old(unit.inflight[k.slot]) == Some(reply.io)
    ensures reply.io in j.s.r.done && reply.answer == j.s.r.done[reply.io]
    ensures var v, length := w.verdict(reply.answer), w.transfer(reply.io).length;
            && (v.error != 0 || v.residual > length ==> actual == 0)
            && (v.error == 0 && v.residual <= length ==> actual + v.residual == length)
    ensures unit.Valid() && Joined(unit, k.unit, j'.s.d)
    ensures unit.log == old(unit.log) + [IR.Reply(reply.io, w.verdict(reply.answer).error)]
  {
    hide Attained, Reachable, ListsHold, SlotsHold, CountersHold, DataHolds, IR.Unit.Valid, CompletedBy, Finished,
         RecordFor, Actual, Down, MaskAfter;
    ClosingSlot(j.s, t, k);
    DataSteps.ClosingDone(j.s, t);
    reply, actual, j' := CompleteSlot(lists, slots, counters, data, t, k, w, j);
    unit.ReplySlot(k.slot, w.verdict(reply.answer).error);
  }
}
