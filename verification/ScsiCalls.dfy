/** The calls of src/virtio/virtio_scsi_io.c made of those sections, over the
    driver's real state and memory.  `j` is the state of the whole before a call
    and `j'` the state after. */
module ScsiCalls {
  import opened Types
  import opened Pipeline
  import opened PipelineInv
  import opened PipelineTheorems
  import opened UnitState
  import opened ScsiSteps
  import opened Memory
  import opened DataPath
  import opened DataRuns
  import opened DataTheorems
  import opened JointSteps
  import opened ScsiIo
  import opened Counters
  import VQ = VirtQueue
  import QM = QueueModel
  import VRing
  import C = Coalesce

  /** The memory, the ledger and the records are those of the state. */
  ghost predicate DataHolds(data: SlotData, m: Store)
    reads data, data.table, data.bounce
  {
    data.Valid() && data.Value() == m
  }

  // ---------------------------------------------------------------------
  // Submit
  // ---------------------------------------------------------------------

  /** StartDMA's answer, whether the slot has an entry array, and what the queue
      will be offered for an indirect table. */
  datatype Luck = Luck(mappable: bool, pool: bool, offer: VQ.TableOffer)

  datatype Rc = Queued | NoSlot | DmaError | QueueFull

  predicate Fillable(w: World, k: Key, io: Io, bounce: uint32, luck: Luck)
  {
    Submittable(RecordFor(w, io), w.header(k), w.response(k), bounce, luck.mappable, luck.pool)
  }

  function Outcome(w: World, k: Key, io: Io, bounce: uint32, luck: Luck, room: bool): Rc
  {
    if !Fillable(w, k, io, bounce, luck) then DmaError else if !room then QueueFull else Queued
  }

  /** Submit between its two lock sections, for a slot it has reserved. */
  method FillSlot(data: SlotData, u: nat, k: Key, io: Io, w: World, luck: Luck, ghost j: Joint)
    returns (ok: bool, sg: seq<Sg>, outNum: nat, ghost j': Joint)
    requires DataHolds(data, j.m) && Unfilled(w, j, u, k, io) && CallerOk(w, j.m, io)
    modifies data`ram, data`live, data.table
    ensures DataHolds(data, j'.m) && j'.s == j.s && j'.m.bounce == j.m.bounce
    ensures var bounce := j.m.bounce[RowOf(k)];
            && ok == Fillable(w, k, io, bounce, luck)
            && (ok ==> sg == ChainFor(w, k, io, bounce) && outNum == OutFor(w, k, io, bounce))
    ensures ok ==> Goes(w, j, FillData(u), j') && HasData(w, j', u, k, io)
                   && j'.m == Filled(j.m, RowOf(k), RecordFor(w, io))
    ensures !ok ==> Undone(w, j, u, MapsOk(RecordFor(w, io), luck.mappable, luck.pool), j')
                    && Attained(w, j') && j'.m.live == j.m.live
                    && HasSlot(j'.m, RowOf(k)) && !j'.m.table[RowOf(k)].mapped
  {
    hide Attained, Reachable, StoreOk, Filled, Released, Submittable, MapsOk, ChainOf, ReadableOf, Prepared, Can, After;
    var t, i := w.transfer(io), RowOf(k);
    assert i < data.table.Length && data.bounce[i] == j.m.bounce[i];
    ok, sg, outNum := data.Fill(i, t.data, t.length, t.isWrite, luck.mappable, luck.pool, w.header(k), w.response(k));
    ghost var a, b := FillEvents(w, j, u, k, io);
    UndoneLive(j.m, i, RecordFor(w, io));
    j' := if ok then a else if MapsOk(RecordFor(w, io), luck.mappable, luck.pool) then b else j;
    assert j'.m == data.Value();
  }

  /** Hand the filled slot to the queue, or give back its mapping and the slot. */
  method SendSlot(lists: FreeLists, slots: Slots, counters: UnitState.Counters, vq: VQ.VirtQueue, data: SlotData,
                  u: nat, slot: nat, io: Io, w: World, sg: seq<Sg>, outNum: nat, offer: VQ.TableOffer, ghost j: Joint)
    returns (ok: bool, ghost b: Joint, ghost j': Joint)
    requires ListsHold(lists, j.s.d) && SlotsHold(slots, j.s.d)
    requires CountersHold(counters, j.s.d) && QueueHolds(vq, j.s.d)
    requires DataHolds(data, j.m) && HasData(w, j, u, Key(u, slot), io)
    requires vq.cookies != counters.pendingCookie && vq.Honest(offer)
    requires 1 <= |sg| <= MAX_SG_ENTRIES && outNum <= |sg|
    requires sg == ChainFor(w, Key(u, slot), io, j.m.bounce[RowOf(Key(u, slot))])
    requires outNum == OutFor(w, Key(u, slot), io, j.m.bounce[RowOf(Key(u, slot))])
    modifies lists`free, lists.next, lists.head, slots`slots, slots.inflight
    modifies counters`occupied, counters`mask, counters`count, counters.inflightCount
    modifies vq`freeHead, vq`numFree, vq`availIdx, vq`memory, vq`q, vq`posted
    modifies vq.desc, vq.cookies, vq.indirectTables, vq.availRing
    modifies data`live, data.table
    ensures ListsHold(lists, j'.s.d) && SlotsHold(slots, j'.s.d)
    ensures CountersHold(counters, j'.s.d) && QueueHolds(vq, j'.s.d)
    ensures DataHolds(data, j'.m)
    ensures ok == QM.CanAdd(j.s.d.q, sg, vq.TableFor(sg, offer))
    ensures ok ==> Goes(w, j, Drive(Post(u, sg, outNum, vq.TableFor(sg, offer)), []), j') && b == j && j'.m == j.m
    ensures !ok ==> Goes(w, j, UndoFill(u), b) && Goes(w, b, Drive(Abandon(u), []), j')
                    && j'.m == Released(j.m, RowOf(Key(u, slot))) && vq.memory == old(vq.memory)
  {
    hide Attained, Reachable, Steps, FreeLists.Valid, Slots.Valid, UnitState.Counters.Valid, VQ.VirtQueue.Valid,
         QM.Add, QM.CanAdd, VQ.VirtQueue.TableFor, DataHolds, RecordFor, ChainFor, OutFor, Goes, Released;
    ghost var t;
    ok, t := PostSlot(slots, counters, vq, u, slot, io, sg, outNum, offer, j.s);
    b := j;
    if ok {
      j' := PostEvent(w, j, u, Key(u, slot), io, sg, outNum, vq.TableFor(sg, offer), t);
    } else {
      b, j' := Unsubmit(lists, data, u, slot, io, w, j);
    }
  }

  /** Submit's rollback once the slot has been filled. */
  method Unsubmit(lists: FreeLists, data: SlotData, u: nat, slot: nat, io: Io, w: World, ghost j: Joint)
    returns (ghost b: Joint, ghost j': Joint)
    requires ListsHold(lists, j.s.d) && DataHolds(data, j.m) && HasData(w, j, u, Key(u, slot), io)
    modifies lists`free, lists.next, lists.head, data`live, data.table
    ensures ListsHold(lists, j'.s.d) && DataHolds(data, j'.m)
    ensures Goes(w, j, UndoFill(u), b) && Goes(w, b, Drive(Abandon(u), []), j')
    ensures j'.s.d == j.s.d.(free := j'.s.d.free, task := j'.s.d.task) && j'.m == Released(j.m, RowOf(Key(u, slot)))
  {
    hide Attained, Reachable, FreeLists.Valid, StoreOk, Released, RecordFor, Can, After, NextState, Allowed;
    assert RowOf(Key(u, slot)) < data.table.Length;
    data.Release(RowOf(Key(u, slot)));
    b := UndoEvent(w, j, u, Key(u, slot), io);
    ghost var t := ReleaseSlot(lists, u, slot, b.s);
    j' := AbandonEvent(w, b, u, t);
  }

  /** Submit's rollback when the slot could not be filled. */
  method GiveUp(lists: FreeLists, slots: Slots, counters: UnitState.Counters, vq: VQ.VirtQueue,
                u: nat, slot: nat, w: World, ghost j: Joint)
    returns (ghost j': Joint)
    requires ListsHold(lists, j.s.d) && SlotsHold(slots, j.s.d)
    requires CountersHold(counters, j.s.d) && QueueHolds(vq, j.s.d)
    requires Attained(w, j) && Fills(j.s, u, slot)
    requires HasSlot(j.m, RowOf(Key(u, slot))) && !j.m.table[RowOf(Key(u, slot))].mapped
    modifies lists`free, lists.next, lists.head
    ensures ListsHold(lists, j'.s.d) && SlotsHold(slots, j'.s.d)
    ensures CountersHold(counters, j'.s.d) && QueueHolds(vq, j'.s.d)
    ensures Goes(w, j, Drive(Abandon(u), []), j') && j'.m == j.m
  {
    hide Attained, Reachable, FreeLists.Valid, Slots.Valid, UnitState.Counters.Valid, VQ.VirtQueue.Valid,
         NextState, Allowed, Can, After;
    assert FillKey(j.s, u) == Key(u, slot);
    ghost var t := ReleaseSlot(lists, u, slot, j.s);
    j' := AbandonEvent(w, j, u, t);
  }

  /** Submit after its first section: on success the request's own chain is
      posted, header first; on failure the mapping is ended and the slot back on
      the free list. */
  method SubmitReserved(lists: FreeLists, slots: Slots, counters: UnitState.Counters, vq: VQ.VirtQueue, data: SlotData,
                        u: nat, slot: nat, io: Io, w: World, luck: Luck, ghost j: Joint)
    returns (rc: Rc, ghost b: Joint, ghost j': Joint)
    requires ListsHold(lists, j.s.d) && SlotsHold(slots, j.s.d)
    requires CountersHold(counters, j.s.d) && QueueHolds(vq, j.s.d)
    requires DataHolds(data, j.m) && Unfilled(w, j, u, Key(u, slot), io) && CallerOk(w, j.m, io)
    requires vq.cookies != counters.pendingCookie && vq.Honest(luck.offer) && w.header(Key(u, slot)) != []
    modifies lists`free, lists.next, lists.head, slots`slots, slots.inflight
    modifies counters`occupied, counters`mask, counters`count, counters.inflightCount
    modifies vq`freeHead, vq`numFree, vq`availIdx, vq`memory, vq`q, vq`posted
    modifies vq.desc, vq.cookies, vq.indirectTables, vq.availRing
    modifies data`ram, data`live, data.table
    ensures ListsHold(lists, j'.s.d) && SlotsHold(slots, j'.s.d)
    ensures CountersHold(counters, j'.s.d) && QueueHolds(vq, j'.s.d)
    ensures DataHolds(data, j'.m)
    ensures var k := Key(u, slot);
            Submitted(w, vq, luck, u, k, io, j, rc, b, j')
  {
    hide Attained, Reachable, ListsHold, SlotsHold, CountersHold, QueueHolds, VQ.VirtQueue.Valid,
         QM.CanAdd, VQ.VirtQueue.TableFor, DataHolds, RecordFor, Fillable, ChainFor, OutFor, Goes, Filled, Released,
         Undone;
    var k := Key(u, slot);
    ChainBounds(w, k, io, j.m.bounce[RowOf(k)], luck);
    var ok, sg, outNum;
    ghost var filled;
    UndoneLive(j.m, RowOf(k), RecordFor(w, io));
    ok, sg, outNum, filled := FillSlot(data, u, k, io, w, luck, j);
    if !ok {
      b := filled;
      j' := GiveUp(lists, slots, counters, vq, u, slot, w, b);
      rc := DmaError;
    } else {
      ok, b, j' := SendSlot(lists, slots, counters, vq, data, u, slot, io, w, sg, outNum, luck.offer, filled);
      rc := Queued;
      if !ok {
        UndoneBy(w, j, u, filled, b);
        rc := QueueFull;
      }
    }
  }

  /** What Submit comes to once it has slot `k`: its data prepared and its own
      chain posted; or, the data's preparation undone, the slot given back. */
  ghost predicate Submitted(w: World, vq: VQ.VirtQueue, luck: Luck, u: nat, k: Key, io: Io,
                            j: Joint, rc: Rc, b: Joint, j': Joint)
    requires HasSlot(j.m, RowOf(k))
  {
    var bounce, i, x := j.m.bounce[RowOf(k)], RowOf(k), RecordFor(w, io);
    var chain, outNum := ChainFor(w, k, io, bounce), OutFor(w, k, io, bounce);
    var table := vq.TableFor(chain, luck.offer);
    && rc == Outcome(w, k, io, bounce, luck, QM.CanAdd(j.s.d.q, chain, table))
    && (rc.Queued? ==>
          && Goes(w, j, FillData(u), b) && Goes(w, b, Drive(Post(u, chain, outNum, table), []), j')
          && j'.m == Filled(j.m, i, x))
    && (!rc.Queued? ==>
          && Undone(w, j, u, MapsOk(x, luck.mappable, luck.pool), b) && Goes(w, b, Drive(Abandon(u), []), j')
          && j'.m.live == j.m.live)
  }

  lemma ChainBounds(w: World, k: Key, io: Io, bounce: uint32, luck: Luck)
    requires w.header(k) != []
    ensures |ChainFor(w, k, io, bounce)| >= 1 && OutFor(w, k, io, bounce) <= |ChainFor(w, k, io, bounce)|
    ensures Fillable(w, k, io, bounce, luck) ==>
              |ChainFor(w, k, io, bounce)| <= MAX_SG_ENTRIES && MapsOk(RecordFor(w, io), luck.mappable, luck.pool)
  {}

  /** The slot Submit gets. */
  ghost function SlotOf(s: State, u: nat): Key
    requires u in s.d.free && s.d.free[u] != []
  {
    Key(u, s.d.free[u][0])
  }

  /** VirtIOSCSI_Submit, undisturbed. */
  method Submit(lists: FreeLists, slots: Slots, counters: UnitState.Counters, vq: VQ.VirtQueue, data: SlotData,
                u: nat, io: Io, w: World, luck: Luck, ghost j: Joint)
    returns (rc: Rc, slot: int, ghost a: Joint, ghost b: Joint, ghost j': Joint)
    requires ListsHold(lists, j.s.d) && SlotsHold(slots, j.s.d)
    requires CountersHold(counters, j.s.d) && QueueHolds(vq, j.s.d)
    requires DataHolds(data, j.m) && Attained(w, j) && CallerOk(w, j.m, io)
    requires Starts(j.s, u, io) && vq.cookies != counters.pendingCookie && vq.Honest(luck.offer)
    requires forall k :: w.header(k) != []
    modifies lists`free, lists.next, lists.head, slots`slots, slots.inflight
    modifies slots`ids, slots`resp, slots.requestId, slots.response
    modifies counters`occupied, counters`mask, counters`count, counters.inflightCount
    modifies vq`freeHead, vq`numFree, vq`availIdx, vq`memory, vq`q, vq`posted
    modifies vq.desc, vq.cookies, vq.indirectTables, vq.availRing
    modifies data`ram, data`live, data.table
    ensures ListsHold(lists, j'.s.d) && SlotsHold(slots, j'.s.d)
    ensures CountersHold(counters, j'.s.d) && QueueHolds(vq, j'.s.d)
    ensures DataHolds(data, j'.m)
    ensures rc.NoSlot? <==> j.s.d.free[u] == []
    ensures rc.NoSlot? ==> j' == j
    ensures slot == if rc.NoSlot? then -1 else j.s.d.free[u][0]
    ensures !rc.NoSlot? ==>
      && Goes(w, j, Drive(Pop(u, io), []), a) && a.m == j.m && HasSlot(a.m, RowOf(SlotOf(j.s, u)))
      && Submitted(w, vq, luck, u, SlotOf(j.s, u), io, a, rc, b, j')
  {
    hide Attained, Reachable, Steps, Goes, FreeLists.Valid, Slots.Valid, UnitState.Counters.Valid, VQ.VirtQueue.Valid,
         QM.CanAdd, VQ.VirtQueue.TableFor, DataHolds, RecordFor, Submitted, CallerOk;
    ghost var t;
    slot, t := PopSlot(lists, slots, u, j.s, io);
    a, b, j', rc := j, j, j, NoSlot;
    if slot < 0 {
      slot := -1;
    } else {
      a := PopBlank(w, j, u, io, t);
      rc, b, j' := SubmitReserved(lists, slots, counters, vq, data, u, slot, io, w, luck, a);
      SubmittedHasSlot(w, vq, luck, u, SlotOf(j.s, u), io, a, rc, b, j');
    }
  }

  /** When Submit succeeds and how it fails, said of the request, the slot and the
      queue themselves. */
  lemma SubmittedSays(w: World, vq: VQ.VirtQueue, luck: Luck, u: nat, k: Key, io: Io,
                      j: Joint, rc: Rc, b: Joint, j': Joint)
    requires HasSlot(j.m, RowOf(k)) && Submitted(w, vq, luck, u, k, io, j, rc, b, j')
    ensures var t, free := w.transfer(io), |j.s.d.q.free|;
            var n := |w.header(k)| + |w.response(k)|
                     + if t.data.None? || t.length == 0 then 0 else if t.length <= 65536 then 1 else |t.data.value|;
            var fits := n <= 64
                        && (t.data.Some? && t.length > 65536 ==> luck.mappable && luck.pool && |t.data.value| <= 64);
            var indirect := vq.useIndirect && n > 1 && luck.offer.Mapped?;
            && (rc.DmaError? <==> !fits) && !rc.NoSlot?
            && (n > 0 ==> (rc.Queued? <==> fits && if indirect then free >= 1 else free >= n))
  {
    hide Goes, Filled, Undone, RecordFor, ChainFor, OutFor, Outcome, MapsOk, VQ.VirtQueue.TableFor, QM.CanAdd;
    OutcomeSays(w, vq, luck, k, io, j.m.bounce[RowOf(k)], j.s.d.q);
  }

  lemma OutcomeSays(w: World, vq: VQ.VirtQueue, luck: Luck, k: Key, io: Io, bounce: uint32, q: QM.Queue)
    ensures var t, free := w.transfer(io), |q.free|;
            var n := |w.header(k)| + |w.response(k)|
                     + if t.data.None? || t.length == 0 then 0 else if t.length <= 65536 then 1 else |t.data.value|;
            var fits := n <= 64
                        && (t.data.Some? && t.length > 65536 ==> luck.mappable && luck.pool && |t.data.value| <= 64);
            var indirect := vq.useIndirect && n > 1 && luck.offer.Mapped?;
            var chain := ChainFor(w, k, io, bounce);
            var rc := Outcome(w, k, io, bounce, luck, QM.CanAdd(q, chain, vq.TableFor(chain, luck.offer)));
            && (rc.DmaError? <==> !fits) && !rc.NoSlot?
            && (n > 0 ==> (rc.Queued? <==> fits && if indirect then free >= 1 else free >= n))
  {
    var t := w.transfer(io);
    ChainSays(t.data, t.length, t.isWrite, luck.mappable, luck.pool, w.header(k), w.response(k), bounce);
    hide Prepared, ChainOf, ReadableOf, Submittable;
  }

  lemma SubmittedHasSlot(w: World, vq: VQ.VirtQueue, luck: Luck, u: nat, k: Key, io: Io, j: Joint, rc: Rc,
                         b: Joint, j': Joint)
    requires HasSlot(j.m, RowOf(k)) && Submitted(w, vq, luck, u, k, io, j, rc, b, j')
    ensures !rc.NoSlot?
  {}

  // ---------------------------------------------------------------------
  // Completion
  // ---------------------------------------------------------------------

  /** complete_inflight_slot. */
  method CompleteSlot(lists: FreeLists, slots: Slots, counters: UnitState.Counters, data: SlotData, u: nat, k: Key,
                      w: World, ghost j: Joint)
    returns (reply: Reply, actual: uint32, ghost j': Joint)
    requires ListsHold(lists, j.s.d) && SlotsHold(slots, j.s.d) && CountersHold(counters, j.s.d)
    requires DataHolds(data, j.m) && Completes(w, j, u, k)
    modifies lists`free, lists.next, lists.head, slots`slots, slots.inflight
    modifies counters`occupied, counters`mask, counters`count, counters.inflightCount
    modifies data`ram, data`live, data.table
    ensures ListsHold(lists, j'.s.d) && SlotsHold(slots, j'.s.d) && CountersHold(counters, j'.s.d)
    ensures DataHolds(data, j'.m) && CompletedBy(w, j, u, j')
    ensures k in j.s.d.slots && At(j.s.d, k.unit) && reply == Reply(j.s.d.task[u].pc.io, j.s.d.task[u].pc.answer)
    ensures j'.s.d == CloseSlot(j.s.d, k).(task := SetPc(j.s.d, u, Ready), replies := j.s.d.replies + [reply])
    ensures var v, length := w.verdict(reply.answer), w.transfer(reply.io).length;
            && actual == Actual(v.error, v.residual, length)
            && j'.m == Finished(j.m, RowOf(k), v.error, v.residual, length)
            && (v.error != 0 || v.residual > length ==> actual == 0)
            && (v.error == 0 && v.residual <= length ==> actual + v.residual == length)
  {
    hide Attained, Reachable, Steps, Goes, Slots.Valid, FreeLists.Valid, UnitState.Counters.Valid, CloseSlot,
         DataHolds, Finished, RecordFor, Actual;
    ClosingSlot(j.s, u, k);
    ClosingAnswer(j.s, u, k);
    var read := slots.ReadReply(k);
    ghost var a;
    actual, a := FinishSlot(data, u, k, read, w, j);
    ghost var mid, t;
    reply, mid, t := CloseSection(lists, slots, counters, u, k, a.s);
    ghost var b;
    b, j' := CloseEvents(w, a, u, mid, t);
  }

  /** Its first half: io_Actual, the read-back, and the end of the mapping. */
  method FinishSlot(data: SlotData, u: nat, k: Key, read: Reply, w: World, ghost j: Joint)
    returns (actual: uint32, ghost a: Joint)
    requires DataHolds(data, j.m) && Completes(w, j, u, k)
    requires read == Reply(j.s.d.task[u].pc.io, j.s.d.task[u].pc.answer)
    modifies data`ram, data`live, data.table
    ensures DataHolds(data, a.m) && Goes(w, j, FinishData(u), a) && Attained(w, a) && a.s == j.s
    ensures read.io in a.log.delivered
    ensures var v, length := w.verdict(read.answer), w.transfer(read.io).length;
            && (v.error != 0 || v.residual > length ==> actual == 0)
            && (v.error == 0 && v.residual <= length ==> actual + v.residual == length)
            && actual == Actual(v.error, v.residual, length)
            && a.m == Finished(j.m, RowOf(k), v.error, v.residual, length)
  {
    hide Attained, Reachable, Goes, StoreOk, Finished, RecordFor, Actual;
    var v := w.verdict(read.answer);
    BouncedSize(w, read.io);
    assert RowOf(k) < data.table.Length;
    actual := data.Finish(RowOf(k), v.error, v.residual, w.transfer(read.io).length);
    a := FinishEvent(w, j, u, k);
  }

  lemma BouncedSize(w: World, io: Io)
    ensures RecordFor(w, io).usingBounce ==> RecordFor(w, io).size == w.transfer(io).length
  {}

  /** What follows GetBuf in the loop: find the slot and complete it, or leave
      the cookie with its DoIO. */
  method Settle(lists: FreeLists, slots: Slots, counters: UnitState.Counters, data: SlotData, u: nat, c: Cookie,
                w: World, ghost j: Joint)
    returns (reply: Option<Reply>, ghost a: Joint, ghost j': Joint)
    requires ListsHold(lists, j.s.d) && SlotsHold(slots, j.s.d) && CountersHold(counters, j.s.d)
    requires DataHolds(data, j.m) && Attained(w, j) && Carries(j.s, u, c)
    modifies lists`free, lists.next, lists.head, slots`slots, slots.inflight
    modifies counters`occupied, counters`mask, counters`count, counters.inflightCount
    modifies counters`pending, counters.pendingCookie
    modifies data`ram, data`live, data.table
    ensures ListsHold(lists, j'.s.d) && SlotsHold(slots, j'.s.d) && CountersHold(counters, j'.s.d)
    ensures DataHolds(data, j'.m) && Attained(w, j') && Goes(w, j, Drive(Pipeline.Recognise(u), []), a)
    ensures if reply.Some? then CompletedBy(w, a, u, j') else j' == a
    ensures HasBuffer(j.s.d, c) && j'.s.d == Settled(j.s.d, c).(task := SetPc(j.s.d, u, Ready))
    ensures j'.s.d.replies == j.s.d.replies + if reply.Some? then [reply.value] else []
    ensures j'.m == FinishedFor(w, j.s.d, c, j.m)
  {
    hide Attained, Reachable, Steps, Route, FreeLists.Valid, Slots.Valid, UnitState.Counters.Valid, CloseSlot,
         DataHolds, Finished, RecordFor, RowOf, Settled, FinishedFor;
    InHand(j.s, u, c);
    var k;
    ghost var t;
    k, t := ScsiIo.Recognise(slots, counters, u, c, j.s);
    RecognisedIs(j.s, u, c, t);
    a := RecogniseEvent(w, j, u, c, t);
    if k.Some? {
      var r, actual;
      r, actual, j' := CompleteSlot(lists, slots, counters, data, u, k.value, w, a);
      reply := Some(r);
      CloseSettles(j.s, t, j'.s, u, c);
      FinishedForSlot(w, j.s.d, c, j.m);
      CompletedIsAttained(w, a, u, j');
    } else {
      reply, j' := None, a;
      StashSettles(j.s, t, u, c);
      FinishedForNone(w, j.s.d, c, j.m);
    }
  }

  lemma RecognisedIs(s: State, u: nat, c: Cookie, t: State)
    requires Carries(s, u, c) && Steps(s, Pipeline.Recognise(u), t)
    ensures HasBuffer(s.d, c)
    ensures var k := KeyOf(c);
            if Route(s.d, c).Some?
            then && s.d.slots[k].ioreq.Some? && Route(s.d, c) == Some(k) && Holds(s.d, k, c)
                 && t.d == s.d.(task := SetPc(s.d, u, Closing(k, s.d.slots[k].ioreq.value, s.d.resp[k])))
            else t.d == s.d.(pending := s.d.pending[k.unit := Some(c)], task := SetPc(s.d, u, Ready))
  {
    hide Reachable, NextState, Allowed, Route;
    InHand(s, u, c);
    var e := DoRecognise(s, u, c);
  }

  lemma CompletedIsAttained(w: World, j: Joint, u: nat, j': Joint)
    requires CompletedBy(w, j, u, j')
    ensures Attained(w, j')
  {
    hide Attained;
  }

  // ---------------------------------------------------------------------
  // Harvest
  // ---------------------------------------------------------------------

  /** GetBuf concerns the queue alone. */
  lemma GetBufKeepsRest(lists: FreeLists, slots: Slots, counters: UnitState.Counters, s: State, u: nat, t: State)
    requires ListsHold(lists, s.d) && SlotsHold(slots, s.d) && CountersHold(counters, s.d)
    requires s.d.q.used != [] && MayHarvest(s, u) && Steps(s, GetBuf(u), t)
    ensures ListsHold(lists, t.d) && SlotsHold(slots, t.d) && CountersHold(counters, t.d) && HasOldest(s.d)
    ensures !IsOwn(s.d, u, OldestCookie(s.d)) ==>
      && Carries(t, u, OldestCookie(s.d))
      && t.d == s.d.(q := QM.Get(s.d.q), task := SetPc(s.d, u, Hand(OldestCookie(s.d))))
    ensures IsOwn(s.d, u, OldestCookie(s.d)) ==>
      t.d == s.d.(q := QM.Get(s.d.q), task := s.d.task[u := Task(Ready, Got(s.d.task[u].sync.io))])
  {
    hide Reachable, NextState, Allowed, QM.Get, FreeLists.Valid, Slots.Valid, UnitState.Counters.Valid;
    OldestExists(s);
    var e := DoGetBuf(s, u);
  }

  /** Getting a completion changes no slot, so what it calls for is the same
      before and after. */
  lemma SameFinish(w: World, d: Driver, t: Driver, c: Cookie, m: Store)
    requires t.slots == d.slots && t.ids == d.ids && t.resp == d.resp && t.units == d.units
    requires forall u :: At(t, u) <==> At(d, u)
    ensures FinishedFor(w, t, c, m) == FinishedFor(w, d, c, m)
  {
    hide Finished;
  }

  lemma TurnDone(w: World, s: State, t: State, t': State, u: nat, m: Store)
    requires HasOldest(s.d) && At(s.d, u) && s.d.task[u].pc.Ready? && HasBuffer(t.d, OldestCookie(s.d))
    requires t.d == s.d.(q := QM.Get(s.d.q), task := SetPc(s.d, u, Hand(OldestCookie(s.d))))
    requires t'.d == Settled(t.d, OldestCookie(s.d)).(task := SetPc(t.d, u, Ready))
    ensures t'.d == OneTurn(s.d) && t'.d.task == s.d.task && At(t'.d, u) && t'.d.q == t.d.q
    ensures t.d.replies == s.d.replies
    ensures FinishedFor(w, t.d, OldestCookie(s.d), m) == FinishedFor(w, s.d, OldestCookie(s.d), m)
  {
    hide QM.Get, Settled, FinishedFor;
    SettledKeeps(t.d, OldestCookie(s.d));
    TurnIs(s, t, t', u);
    assert SetPc(t.d, u, Ready) == s.d.task;
    SameFinish(w, s.d, t.d, OldestCookie(s.d), m);
  }

  /** One turn of Harvest's drain loop or of DoIO's, undisturbed.  A task inside a
      DoIO stops at its own cookie. */
  method HarvestOne(lists: FreeLists, slots: Slots, counters: UnitState.Counters, vq: VQ.VirtQueue, data: SlotData,
                    u: nat, waiting: bool, w: World, ghost j: Joint)
    returns (more: bool, own: bool, reply: Option<Reply>, ghost j': Joint)
    requires ListsHold(lists, j.s.d) && SlotsHold(slots, j.s.d)
    requires CountersHold(counters, j.s.d) && QueueHolds(vq, j.s.d)
    requires DataHolds(data, j.m) && Attained(w, j) && vq.cookies != counters.pendingCookie
    requires MayHarvest(j.s, u) && waiting == j.s.d.task[u].sync.Waiting?
    modifies lists`free, lists.next, lists.head, slots`slots, slots.inflight
    modifies counters`occupied, counters`mask, counters`count, counters.inflightCount
    modifies counters`pending, counters.pendingCookie
    modifies vq`freeHead, vq`numFree, vq`lastUsedIdx, vq`memory, vq`q, vq`harvested
    modifies vq.desc, vq.cookies, vq.indirectTables, vq.availRing
    modifies data`ram, data`live, data.table
    ensures ListsHold(lists, j'.s.d) && SlotsHold(slots, j'.s.d)
    ensures CountersHold(counters, j'.s.d) && QueueHolds(vq, j'.s.d)
    ensures DataHolds(data, j'.m) && Attained(w, j')
    ensures more <==> j.s.d.q.used != []
    ensures !more ==> j' == j && reply.None? && !own && vq.AimedAtNext() == old(vq.AimedAtNext())
    ensures more ==> HasOldest(j.s.d) && vq.AimedAtNext() && own == IsOwn(j.s.d, u, OldestCookie(j.s.d))
    ensures more && !own ==>
      && j'.s.d == OneTurn(j.s.d) && j'.s.d.task == j.s.d.task && MayHarvest(j'.s, u)
      && j'.s.d.replies == j.s.d.replies + (if reply.Some? then [reply.value] else [])
      && j'.m == FinishedFor(w, j.s.d, OldestCookie(j.s.d), j.m)
    ensures own ==>
      && j'.s.d == j.s.d.(q := QM.Get(j.s.d.q), task := j.s.d.task[u := Task(Ready, Got(j.s.d.task[u].sync.io))])
      && j'.m == j.m
  {
    hide Attained, Reachable, Steps, Goes, ListsHold, SlotsHold, CountersHold, VQ.VirtQueue.Valid, QM.Get, Settled,
         DataHolds, FinishedFor, VQ.VirtQueue.AimedAtNext;
    own, reply := false, None;
    if j.s.d.q.used != [] {
      OldestExists(j.s);
    }
    var cookie;
    ghost var t;
    cookie, t := TakeCompletion(vq, u, j.s);
    if cookie.None? {
      return false, false, None, j;
    }
    more := true;
    GetBufKeepsRest(lists, slots, counters, j.s, u, t);
    ghost var got := Lift(w, j, GetBuf(u), t);
    if waiting && cookie.value == CookieOf(Key(u, 0)) {
      own, j' := true, got;
    } else {
      ghost var a;
      reply, a, j' := Settle(lists, slots, counters, data, u, cookie.value, w, got);
      TurnDone(w, j.s, t, j'.s, u, j.m);
      AttainedReachable(w, j');
    }
  }

  /** The drain loop, undisturbed: every completion in the used ring is dealt
      with, in its order. */
  method Drain(lists: FreeLists, slots: Slots, counters: UnitState.Counters, vq: VQ.VirtQueue, data: SlotData,
               u: nat, w: World, ghost j: Joint)
    returns (replies: seq<Reply>, ghost j': Joint)
    requires ListsHold(lists, j.s.d) && SlotsHold(slots, j.s.d)
    requires CountersHold(counters, j.s.d) && QueueHolds(vq, j.s.d)
    requires DataHolds(data, j.m) && Attained(w, j) && vq.cookies != counters.pendingCookie
    requires MayHarvest(j.s, u) && j.s.d.task[u].sync.NotSync?
    modifies lists`free, lists.next, lists.head, slots`slots, slots.inflight
    modifies counters`occupied, counters`mask, counters`count, counters.inflightCount
    modifies counters`pending, counters.pendingCookie
    modifies vq`freeHead, vq`numFree, vq`lastUsedIdx, vq`memory, vq`q, vq`harvested
    modifies vq.desc, vq.cookies, vq.indirectTables, vq.availRing
    modifies data`ram, data`live, data.table
    ensures ListsHold(lists, j'.s.d) && SlotsHold(slots, j'.s.d)
    ensures CountersHold(counters, j'.s.d) && QueueHolds(vq, j'.s.d)
    ensures DataHolds(data, j'.m) && Attained(w, j') && MayHarvest(j'.s, u) && j'.s.d.task[u].sync.NotSync?
    ensures j'.s.d.q.used == [] && replies == RepliesFor(j.s.d, j.s.d.q.used)
    ensures j'.s.d.replies == j.s.d.replies + replies
    ensures j'.m == StoreAfter(w, j.s.d, j.s.d.q.used, j.m)
    ensures j.s.d.q.used != [] || old(vq.AimedAtNext()) ==> vq.AimedAtNext()
  {
    hide Attained, Reachable, ListsHold, SlotsHold, CountersHold, QueueHolds, QM.Get,
         OneTurn, HasBuffer, RepliesFor, StoreAfter, FinishedFor, DataHolds, VQ.VirtQueue.AimedAtNext;
    replies, j' := [], j;
    var more := true;
    while more
      invariant ListsHold(lists, j'.s.d) && SlotsHold(slots, j'.s.d) && CountersHold(counters, j'.s.d)
      invariant QueueHolds(vq, j'.s.d) && DataHolds(data, j'.m) && Attained(w, j')
      invariant MayHarvest(j'.s, u) && j'.s.d.task[u].sync.NotSync?
      invariant j'.s.d.replies == j.s.d.replies + replies
      invariant j'.s.d.replies + RepliesFor(j'.s.d, j'.s.d.q.used) == j.s.d.replies + RepliesFor(j.s.d, j.s.d.q.used)
      invariant StoreAfter(w, j'.s.d, j'.s.d.q.used, j'.m) == StoreAfter(w, j.s.d, j.s.d.q.used, j.m)
      invariant j'.s.d.q.used != j.s.d.q.used || old(vq.AimedAtNext()) ==> vq.AimedAtNext()
      invariant !more ==> j'.s.d.q.used == []
      decreases more, |j'.s.d.q.used|
    {
      var own, reply;
      ghost var before := j';
      more, own, reply, j' := HarvestOne(lists, slots, counters, vq, data, u, false, w, before);
      if more {
        TurnReplies(before.s);
        TurnStore(w, before.s, before.m);
      }
      if reply.Some? {
        replies := replies + [reply.value];
      }
    }
    NoReplies(j'.s.d);
    NothingToDo(w, j'.s.d, j'.m);
    SameTail(j.s.d.replies, replies, RepliesFor(j.s.d, j.s.d.q.used));
  }

  lemma SameTail(a: seq<Reply>, b: seq<Reply>, c: seq<Reply>)
    requires a + b == a + c
    ensures b == c
  {
    assert b == (a + b)[|a|..];
  }

  /** One wake of DoIO's loop, undisturbed: the completions in front of its own
      are settled, and it stops at its own; without that the ring is drained. */
  method DrainForOwn(lists: FreeLists, slots: Slots, counters: UnitState.Counters, vq: VQ.VirtQueue, data: SlotData,
                     u: nat, w: World, ghost j: Joint)
    returns (own: bool, ghost j': Joint)
    requires ListsHold(lists, j.s.d) && SlotsHold(slots, j.s.d)
    requires CountersHold(counters, j.s.d) && QueueHolds(vq, j.s.d)
    requires DataHolds(data, j.m) && Attained(w, j) && vq.cookies != counters.pendingCookie
    requires MayHarvest(j.s, u) && j.s.d.task[u].sync.Waiting?
    modifies lists`free, lists.next, lists.head, slots`slots, slots.inflight
    modifies counters`occupied, counters`mask, counters`count, counters.inflightCount
    modifies counters`pending, counters.pendingCookie
    modifies vq`freeHead, vq`numFree, vq`lastUsedIdx, vq`memory, vq`q, vq`harvested
    modifies vq.desc, vq.cookies, vq.indirectTables, vq.availRing
    modifies data`ram, data`live, data.table
    ensures ListsHold(lists, j'.s.d) && SlotsHold(slots, j'.s.d)
    ensures CountersHold(counters, j'.s.d) && QueueHolds(vq, j'.s.d)
    ensures DataHolds(data, j'.m) && Attained(w, j') && u in j'.s.d.task
    ensures own <==> OwnAmong(j.s.d, j.s.d.q.used, u)
    ensures j'.s.d.task[u] == Task(Ready, if own then Got(j.s.d.task[u].sync.io) else j.s.d.task[u].sync)
    ensures !own ==> j'.s.d.q.used == [] && j'.m == StoreAfter(w, j.s.d, j.s.d.q.used, j.m)
  {
    hide Attained, Reachable, ListsHold, SlotsHold, CountersHold, QueueHolds, QM.Get, OneTurn, HasBuffer,
         StoreAfter, FinishedFor, DataHolds, VQ.VirtQueue.AimedAtNext, OwnAmong;
    own, j' := false, j;
    var more := true;
    while more && !own
      invariant ListsHold(lists, j'.s.d) && SlotsHold(slots, j'.s.d) && CountersHold(counters, j'.s.d)
      invariant QueueHolds(vq, j'.s.d) && DataHolds(data, j'.m) && Attained(w, j') && u in j'.s.d.task
      invariant !own ==>
        && MayHarvest(j'.s, u) && j'.s.d.task[u] == j.s.d.task[u]
        && OwnAmong(j'.s.d, j'.s.d.q.used, u) == OwnAmong(j.s.d, j.s.d.q.used, u)
        && StoreAfter(w, j'.s.d, j'.s.d.q.used, j'.m) == StoreAfter(w, j.s.d, j.s.d.q.used, j.m)
      invariant own ==> OwnAmong(j.s.d, j.s.d.q.used, u) && j'.s.d.task[u] == Task(Ready, Got(j.s.d.task[u].sync.io))
      invariant !more ==> j'.s.d.q.used == [] && !own
      decreases more && !own, |j'.s.d.q.used|
    {
      ghost var before := j';
      var reply;
      TurnOwn(before.s, u);
      more, own, reply, j' := HarvestOne(lists, slots, counters, vq, data, u, true, w, before);
      if more {
        TurnStore(w, before.s, before.m);
      }
    }
    NoneOwn(j'.s.d, u);
    NothingToDo(w, j'.s.d, j'.m);
  }

  /** VirtIOSCSI_Harvest, undisturbed: drain, then put the next interrupt off to
      the last of the requests still counted. */
  method Harvest(lists: FreeLists, slots: Slots, counters: UnitState.Counters, vq: VQ.VirtQueue, data: SlotData,
                 u: nat, w: World, ghost j: Joint)
    returns (replies: seq<Reply>, ghost j': Joint)
    requires ListsHold(lists, j.s.d) && SlotsHold(slots, j.s.d)
    requires CountersHold(counters, j.s.d) && QueueHolds(vq, j.s.d)
    requires DataHolds(data, j.m) && Attained(w, j) && vq.cookies != counters.pendingCookie
    requires MayHarvest(j.s, u) && j.s.d.task[u].sync.NotSync?
    modifies lists`free, lists.next, lists.head, slots`slots, slots.inflight
    modifies counters`occupied, counters`mask, counters`count, counters.inflightCount
    modifies counters`pending, counters.pendingCookie
    modifies vq`freeHead, vq`numFree, vq`lastUsedIdx, vq`memory, vq`q, vq`harvested
    modifies vq.desc, vq.cookies, vq.indirectTables, vq.availRing
    modifies data`ram, data`live, data.table
    ensures ListsHold(lists, j'.s.d) && SlotsHold(slots, j'.s.d)
    ensures CountersHold(counters, j'.s.d) && QueueHolds(vq, j'.s.d)
    ensures DataHolds(data, j'.m) && Attained(w, j') && MayHarvest(j'.s, u)
    ensures j'.s.d.q.used == [] && replies == RepliesFor(j.s.d, j.s.d.q.used)
    ensures j'.s.d.replies == j.s.d.replies + replies
    ensures j'.m == StoreAfter(w, j.s.d, j.s.d.q.used, j.m)
    ensures j'.s.d.occupied % WRAP >= 2 ==> vq.AimedAtLast(j'.s.d.occupied)
    ensures j'.s.d.occupied % WRAP < 2 && j.s.d.q.used != [] ==> vq.AimedAtNext()
  {
    hide Attained, Reachable, VQ.VirtQueue.Valid, FreeLists.Valid, Slots.Valid, UnitState.Counters.Valid,
         RepliesFor, StoreAfter, DataHolds, VQ.VirtQueue.AimedAtNext, VRing.Vr16;
    replies, j' := Drain(lists, slots, counters, vq, data, u, w, j);
    if vq.useEventIdx {
      var occupied := counters.occupied % WRAP;
      if occupied >= 2 {
        EventArithmetic(vq.lastUsedIdx, counters.occupied);
        vq.SetUsedEvent((vq.lastUsedIdx + (occupied - 1)) % WRAP);
      }
    }
  }

  /** The word behind the ring is then what the coalescing machine computes. */
  lemma AimedSays(vq: VQ.VirtQueue, n: nat, event: uint16)
    requires vq.Valid() && vq.useEventIdx
    ensures vq.num < vq.availRing.Length
    ensures vq.AimedAtLast(n) && n % 0x1_0000 >= 2 ==>
      && vq.availRing[vq.num] == VRing.Vr16(vq.modern, C.Override(vq.lastUsedIdx, n, event))
      && C.Override(vq.lastUsedIdx, n, event) == (vq.lastUsedIdx + n - 1) % 0x1_0000
    ensures vq.AimedAtNext() ==> vq.availRing[vq.num] == VRing.Vr16(vq.modern, vq.lastUsedIdx)
  {
    hide VRing.Vr16;
    if n % 0x1_0000 >= 2 {
      EventArithmetic(vq.lastUsedIdx, n);
    }
  }

  lemma EventArithmetic(last: uint16, occupied: nat)
    requires occupied % WRAP >= 1
    ensures (last + (occupied % WRAP - 1)) % WRAP == (last + occupied - 1) % WRAP
  {
    var r, k := occupied % WRAP, occupied / WRAP;
    assert last + occupied - 1 == WRAP * k + (last + r - 1);
    ModAdd(last + r - 1, k, WRAP);
  }

  // ---------------------------------------------------------------------
  // The beginning
  // ---------------------------------------------------------------------

  /** After VirtQueue_Allocate and, for each unit, preallocate_unit_dma, which
      gives every slot a bounce buffer of its own. */
  method Open(units: set<nat>, vq: VQ.VirtQueue, ram: Ram, bounce: array<uint32>, w: World)
    returns (lists: FreeLists, slots: Slots, counters: UnitState.Counters, data: SlotData, ghost j: Joint)
    requires (forall u | u in units :: u < MAX_UNITS) && vq.Valid() && vq.q == QM.Init(vq.num)
    requires bounce.Length == MAX_UNITS * MAX_INFLIGHT && BouncesApart(|ram|, bounce[..])
    ensures ListsHold(lists, j.s.d) && SlotsHold(slots, j.s.d) && CountersHold(counters, j.s.d) && QueueHolds(vq, j.s.d)
    ensures DataHolds(data, j.m) && j.m.live == multiset{} && vq.cookies != counters.pendingCookie
    ensures Begins(j, units, vq.num) && Attained(w, j)
  {
    hide Initial, InitialDriver, VQ.VirtQueue.Valid, ListsHold, SlotsHold, CountersHold, StoreOk, Attained,
         BouncesApart;
    ghost var s, keys := InitialExists(units, vq.num);
    lists, slots, counters := NewTables(units, vq.num, keys);
    data := new SlotData(ram, bounce);
    j := Joint(s, data.Value(), Log(map[], map[], map[]));
    BeginsAttained(w, j, units, vq.num);
    InitialQueue(units, keys, vq.num);
  }

  method NewTables(units: set<nat>, num: nat, ghost keys: set<Key>)
    returns (lists: FreeLists, slots: Slots, counters: UnitState.Counters)
    requires (forall u | u in units :: u < MAX_UNITS) && forall k :: k in keys <==> Legal(units, k)
    ensures var d := InitialDriver(units, keys, num);
            ListsHold(lists, d) && SlotsHold(slots, d) && CountersHold(counters, d)
    ensures fresh(counters.pendingCookie)
  {
    hide Everywhere, QM.Init, FreeLists.Valid, Slots.Valid, UnitState.Counters.Valid;
    lists := new FreeLists(units);
    slots := new Slots(units, keys);
    counters := new UnitState.Counters(units);
  }

  lemma InitialQueue(units: set<nat>, keys: set<Key>, num: nat)
    ensures InitialDriver(units, keys, num).q == QM.Init(num)
  {}

  lemma BeginsAttained(w: World, j: Joint, units: set<nat>, num: nat)
    requires Begins(j, units, num)
    ensures Attained(w, j)
  {
    hide Begins;
    assert IsHistory(w, [j], units, num) && [j][|[j]| - 1] == j;
  }

  // ---------------------------------------------------------------------
  // The device
  // ---------------------------------------------------------------------

  /** It answers any request it holds, writing the response of that request's own
      buffer and, of a pipelined read, the bytes into the part of the request's own
      chain behind the response. */
  method DeviceAnswers(slots: Slots, vq: VQ.VirtQueue, data: SlotData, head: nat, k: Key, len: uint32, value: nat,
                       into: seq<Sg>, bytes: seq<uint8>, w: World, ghost j: Joint)
    returns (ghost j': Joint)
    requires SlotsHold(slots, j.s.d) && QueueHolds(vq, j.s.d) && DataHolds(data, j.m) && Attained(w, j)
    requires head in j.s.d.q.held && head in j.s.d.q.out && k == KeyOf(j.s.d.q.out[head].cookie)
    requires into == DataIn(w, k, j.s.d.q.out[head]) && (Serves(j, head, k) ==> |bytes| <= Total(into))
    modifies slots`resp, slots.response, vq`usedIdx, vq`q, vq`completed, vq.usedRing, data`ram
    ensures SlotsHold(slots, j'.s.d) && QueueHolds(vq, j'.s.d) && DataHolds(data, j'.m)
    ensures Goes(w, j, Drive(DeviceComplete(head, len, value), bytes), j')
  {
    hide Attained, Reachable, Steps, Slots.Valid, VQ.VirtQueue.Valid, QM.Complete, DataHolds, Goes, DataIn, Scatter;
    AttainedReachable(w, j);
    ghost var t := DoComplete(j.s, head, len, value);
    j' := AnswerEvent(w, j, head, k, len, value, bytes, t);
    var pipelined := IsPipelined(slots, k, w, j, head);
    if pipelined {
      WriteData(data, into, bytes, j.m);
    }
    slots.SetResponse(k, Answer(value));
    vq.DeviceComplete(head, len);
  }

  method WriteData(data: SlotData, into: seq<Sg>, bytes: seq<uint8>, ghost m: Store)
    requires DataHolds(data, m) && Inside(|m.ram|, into) && |bytes| <= Total(into)
    modifies data`ram
    ensures DataHolds(data, m.(ram := Scatter(m.ram, into, bytes)))
  {
    hide StoreOk, Scatter;
    data.DeviceWrites(into, bytes);
  }

  method IsPipelined(slots: Slots, k: Key, w: World, ghost j: Joint, ghost head: nat) returns (pipelined: bool)
    requires SlotsHold(slots, j.s.d) && Attained(w, j)
    requires head in j.s.d.q.held && head in j.s.d.q.out && k == KeyOf(j.s.d.q.out[head].cookie)
    ensures pipelined <==> Serves(j, head, k)
  {
    hide Attained;
    ServesIsSubmitted(w, j, head, k);
    pipelined := slots.inflight[k.unit, k.slot].ioreq.Some?;
  }
}
