/** The lock sections of src/virtio/virtio_scsi_io.c over the driver's real
    state.  Each takes the objects it changes and is one step of the pipeline:
    `s` is the pipeline's state before it and `t` the state after.  By
    JointSteps.Lift each of them is an event of the runs with data too. */
module ScsiIo {
  import opened Types
  import opened Pipeline
  import opened PipelineInv
  import opened PipelineTheorems
  import opened UnitState
  import opened ScsiSteps
  import VQ = VirtQueue
  import QM = QueueModel
  import VRing

  // ---------------------------------------------------------------------
  // How the objects hold a state of the pipeline
  // ---------------------------------------------------------------------

  ghost predicate ListsHold(lists: FreeLists, d: Driver)
    reads lists, lists.next, lists.head
  {
    lists.Valid() && lists.free == d.free
  }

  ghost predicate SlotsHold(slots: Slots, d: Driver)
    reads slots, slots.inflight, slots.requestId, slots.response
  {
    slots.Valid() && slots.units == d.units && slots.slots == d.slots && slots.ids == d.ids && slots.resp == d.resp
  }

  ghost predicate CountersHold(counters: UnitState.Counters, d: Driver)
    reads counters, counters.inflightCount, counters.pendingCookie
  {
    && counters.Valid() && counters.count == d.count && counters.occupied == d.occupied
    && counters.mask == d.mask && counters.pending == d.pending
  }

  ghost predicate QueueHolds(vq: VQ.VirtQueue, d: Driver)
    reads vq, vq.desc, vq.cookies, vq.indirectTables, vq.availRing, vq.usedRing
  {
    vq.Valid() && vq.q == d.q
  }

  // ---------------------------------------------------------------------
  // Submit's sections
  // ---------------------------------------------------------------------

  /** Take a slot off the free list, then blank its response and write its id. */
  method PopSlot(lists: FreeLists, slots: Slots, u: nat, ghost s: State, ghost io: Io)
    returns (slot: int, ghost t: State)
    requires ListsHold(lists, s.d) && SlotsHold(slots, s.d) && Starts(s, u, io)
    modifies lists`free, lists.head, slots`ids, slots`resp, slots.requestId, slots.response
    ensures ListsHold(lists, t.d) && SlotsHold(slots, t.d)
    ensures slot < 0 <==> s.d.free[u] == []
    ensures slot < 0 ==> t == s
    ensures slot >= 0 ==> slot == s.d.free[u][0] && Steps(s, Pop(u, io), t)
  {
    hide Reachable, Steps, FreeLists.Valid, Slots.Valid;
    t := s;
    slot := lists.Pop(u);
    if slot >= 0 {
      var k := Key(u, slot);
      t := DoPop(s, u, io);
      slots.Prepare(k, IdOf(k));
    }
  }

  /** submit_release_slot. */
  method ReleaseSlot(lists: FreeLists, u: nat, slot: nat, ghost s: State) returns (ghost t: State)
    requires ListsHold(lists, s.d) && Fills(s, u, slot)
    modifies lists`free, lists.next, lists.head
    ensures ListsHold(lists, t.d) && Steps(s, Abandon(u), t)
  {
    hide Reachable, Steps, FreeLists.Valid;
    t := DoAbandon(s, u);
    lists.Push(u, slot);
  }

  /** The section under the lock: hand the chain to the queue and count it. */
  method AddAndCount(counters: UnitState.Counters, vq: VQ.VirtQueue, u: nat, cookie: Cookie, sg: seq<Sg>, outNum: nat,
                     offer: VQ.TableOffer)
    returns (ok: bool)
    requires counters.Valid() && vq.Valid() && vq.cookies != counters.pendingCookie && u in counters.count
    requires 1 <= |sg| <= MAX_SG_ENTRIES && outNum <= |sg| && vq.Honest(offer)
    modifies counters`occupied, counters`mask, counters`count, counters.inflightCount
    modifies vq`freeHead, vq`numFree, vq`availIdx, vq`memory, vq`q, vq`posted
    modifies vq.desc, vq.cookies, vq.indirectTables, vq.availRing
    ensures counters.Valid() && vq.Valid()
    ensures ok <==> QM.CanAdd(old(vq.q), sg, vq.TableFor(sg, offer))
    ensures ok ==>
      && vq.q == QM.Add(old(vq.q), sg, outNum, cookie, vq.TableFor(sg, offer))
      && counters.occupied == old(counters.occupied) + 1 && counters.mask == old(counters.mask) + {u}
      && counters.count == old(counters.count)[u := old(counters.count)[u] + 1]
    ensures !ok ==>
      && vq.q == old(vq.q) && vq.memory == old(vq.memory) && counters.occupied == old(counters.occupied)
      && counters.mask == old(counters.mask) && counters.count == old(counters.count)
  {
    hide UnitState.Counters.Valid, VQ.VirtQueue.Valid, QM.Add, QM.CanAdd;
    ok := vq.AddBuf(sg, outNum, cookie, offer);
    if ok {
      counters.Count(u);
    }
  }

  /** Mark the slot, hand the chain to the queue, and count it; when the queue
      will not have it, unmark the slot. */
  method PostSlot(slots: Slots, counters: UnitState.Counters, vq: VQ.VirtQueue, u: nat, slot: nat, ioreq: Io,
                  sg: seq<Sg>, outNum: nat, offer: VQ.TableOffer, ghost s: State)
    returns (ok: bool, ghost t: State)
    requires SlotsHold(slots, s.d) && CountersHold(counters, s.d) && QueueHolds(vq, s.d)
    requires vq.cookies != counters.pendingCookie
    requires Fills(s, u, slot) && s.d.task[u].pc.io == ioreq
    requires 1 <= |sg| <= MAX_SG_ENTRIES && outNum <= |sg| && vq.Honest(offer)
    modifies slots`slots, slots.inflight
    modifies counters`occupied, counters`mask, counters`count, counters.inflightCount
    modifies vq`freeHead, vq`numFree, vq`availIdx, vq`memory, vq`q, vq`posted
    modifies vq.desc, vq.cookies, vq.indirectTables, vq.availRing
    ensures SlotsHold(slots, t.d) && CountersHold(counters, t.d) && QueueHolds(vq, t.d)
    ensures ok <==> QM.CanAdd(s.d.q, sg, vq.TableFor(sg, offer))
    ensures ok ==> Steps(s, Post(u, sg, outNum, vq.TableFor(sg, offer)), t)
    ensures !ok ==> t == s && vq.memory == old(vq.memory)
  {
    hide Reachable, Steps, Slots.Valid, UnitState.Counters.Valid, VQ.VirtQueue.Valid, QM.Add, QM.CanAdd,
         VQ.VirtQueue.TableFor;
    t := s;
    var k := Key(u, slot);
    FillsSlot(s, u, slot);
    slots.SetSlot(k, Slot(Some(ioreq), Some(CookieOf(k))));
    ok := AddAndCount(counters, vq, u, CookieOf(k), sg, outNum, offer);
    if ok {
      t := DoPost(s, u, sg, outNum, vq.TableFor(sg, offer));
    } else {
      slots.SetSlot(k, EMPTY);
    }
  }

  // ---------------------------------------------------------------------
  // Harvest's sections, which DoIO's drain loop shares
  // ---------------------------------------------------------------------

  /** GetBuf under the lock. */
  method TakeCompletion(vq: VQ.VirtQueue, u: nat, ghost s: State) returns (cookie: Option<Cookie>, ghost t: State)
    requires QueueHolds(vq, s.d) && MayHarvest(s, u)
    modifies vq`freeHead, vq`numFree, vq`lastUsedIdx, vq`memory, vq`q, vq`harvested
    modifies vq.desc, vq.cookies, vq.indirectTables, vq.availRing
    ensures QueueHolds(vq, t.d)
    ensures cookie.None? <==> s.d.q.used == []
    ensures cookie.None? ==> t == s && vq.AimedAtNext() == old(vq.AimedAtNext())
    ensures cookie.Some? ==>
      && Steps(s, GetBuf(u), t) && s.d.q.used[0].id in s.d.q.out
      && cookie == Some(s.d.q.out[s.d.q.used[0].id].cookie) && vq.AimedAtNext()
  {
    hide Reachable, Steps, QM.Get;
    var written;
    t := s;
    if s.d.q.used != [] {
      t := DoGetBuf(s, u);
    }
    cookie, written := vq.GetBuf();
  }

  /** Decode the cookie; when it belongs to no submitted slot, look for the unit
      whose DoIO it belongs to and leave it there. */
  method Recognise(slots: Slots, counters: UnitState.Counters, u: nat, c: Cookie, ghost s: State)
    returns (k: Option<Key>, ghost t: State)
    requires SlotsHold(slots, s.d) && CountersHold(counters, s.d) && Carries(s, u, c)
    modifies counters`pending, counters.pendingCookie
    ensures SlotsHold(slots, t.d) && CountersHold(counters, t.d)
    ensures Steps(s, Pipeline.Recognise(u), t)
    ensures KeyOf(c) in s.d.ids && k == Route(s.d, c)
  {
    hide Reachable, Steps, Slots.Valid, UnitState.Counters.Valid, Route;
    InHand(s, u, c);
    t := DoRecognise(s, u, c);
    k := slots.RouteCookie(c);
    if k.None? {
      var owner := FindSyncOwner(slots.units, c);
      if owner.Some? {
        counters.Stash(owner.value, Some(c));
      }
    }
  }

  /** The search for the unit whose synchronous request buffer this is. */
  method FindSyncOwner(units: set<nat>, c: Cookie) returns (owner: Option<nat>)
    requires forall v | v in units :: v < MAX_UNITS
    ensures owner == if c.RequestBuffer? && c.slot == 0 && c.unit in units then Some(c.unit) else None
  {
    owner := None;
    var v := 0;
    while v < MAX_UNITS
      invariant v <= MAX_UNITS
      invariant forall w | 0 <= w < v && w in units :: CookieOf(Key(w, 0)) != c
    {
      if v in units && CookieOf(Key(v, 0)) == c {
        return Some(v);
      }
      v := v + 1;
    }
  }

  /** complete_inflight_slot's lock section. */
  method FreeAndUncount(lists: FreeLists, slots: Slots, counters: UnitState.Counters, k: Key)
    requires lists.Valid() && slots.Valid() && counters.Valid() && Fits(k)
    requires k in slots.slots && k.unit in lists.free && k.slot !in lists.free[k.unit] && k.unit in counters.count
    modifies lists`free, lists.next, lists.head, slots`slots, slots.inflight
    modifies counters`occupied, counters`mask, counters`count, counters.inflightCount
    ensures lists.Valid() && slots.Valid() && counters.Valid()
    ensures lists.free == old(lists.free)[k.unit := [k.slot] + old(lists.free)[k.unit]]
    ensures slots.slots == old(slots.slots)[k := EMPTY]
    ensures counters.occupied == Down(old(counters.occupied))
    ensures counters.count == old(counters.count)[k.unit := Down(old(counters.count)[k.unit])]
    ensures counters.mask == MaskAfter(old(counters.mask), old(counters.count)[k.unit], k.unit)
  {
    hide FreeLists.Valid, Slots.Valid, UnitState.Counters.Valid, Down, MaskAfter;
    slots.SetSlot(k, EMPTY);
    lists.Push(k.unit, k.slot);
    counters.Uncount(k.unit);
  }

  /** The section, and the reply after it. */
  method CloseSection(lists: FreeLists, slots: Slots, counters: UnitState.Counters, u: nat, k: Key, ghost s: State)
    returns (reply: Reply, ghost mid: State, ghost t: State)
    requires ListsHold(lists, s.d) && SlotsHold(slots, s.d) && CountersHold(counters, s.d) && Closes(s, u, k)
    modifies lists`free, lists.next, lists.head, slots`slots, slots.inflight
    modifies counters`occupied, counters`mask, counters`count, counters.inflightCount
    ensures ListsHold(lists, t.d) && SlotsHold(slots, t.d) && CountersHold(counters, t.d)
    ensures Steps(s, Close(u), mid) && Steps(mid, SendReply(u), t) && k in s.d.slots && At(s.d, k.unit)
    ensures reply == Reply(s.d.task[u].pc.io, s.d.task[u].pc.answer)
    ensures t.d == CloseSlot(s.d, k).(task := SetPc(s.d, u, Ready), replies := s.d.replies + [reply])
  {
    hide Reachable, Steps, FreeLists.Valid, UnitState.Counters.Valid;
    ClosingSlot(s, u, k);
    ClosingAnswer(s, u, k);
    reply := slots.ReadReply(k);
    hide Slots.Valid, Down, MaskAfter;
    mid, t := CloseAndReply(s, u, k);
    FreeAndUncount(lists, slots, counters, k);
  }

  // ---------------------------------------------------------------------
  // DoIO's sections
  // ---------------------------------------------------------------------

  /** The section under the lock, and what the call does to the mask if it ends
      here. */
  method AddAndMark(counters: UnitState.Counters, vq: VQ.VirtQueue, u: nat, cookie: Cookie, sg: seq<Sg>, outNum: nat,
                    offer: VQ.TableOffer)
    returns (ok: bool)
    requires counters.Valid() && vq.Valid() && vq.cookies != counters.pendingCookie && u in counters.count
    requires 1 <= |sg| <= MAX_SG_ENTRIES && outNum <= |sg| && vq.Honest(offer)
    modifies counters`mask
    modifies vq`freeHead, vq`numFree, vq`availIdx, vq`memory, vq`q, vq`posted
    modifies vq.desc, vq.cookies, vq.indirectTables, vq.availRing
    ensures counters.Valid() && vq.Valid()
    ensures ok == QM.CanAdd(old(vq.q), sg, vq.TableFor(sg, offer))
    ensures vq.q == AddIf(ok, old(vq.q), sg, outNum, cookie, vq.TableFor(sg, offer))
    ensures counters.mask == MarkIf(ok, old(counters.mask), counters.count[u], u)
  {
    hide UnitState.Counters.Valid, VQ.VirtQueue.Valid, QM.Add, QM.CanAdd;
    ok := vq.AddBuf(sg, outNum, cookie, offer);
    if ok {
      counters.Mark(u);
    } else {
      counters.Unmark(u);
    }
  }

  /** Prepare slot 0's buffers and post the chain; a chain the queue will not
      have ends the call. */
  method StartSync(slots: Slots, counters: UnitState.Counters, vq: VQ.VirtQueue, u: nat, sg: seq<Sg>, outNum: nat,
                   offer: VQ.TableOffer, ghost io: Io, ghost s: State)
    returns (ok: bool, ghost t: State)
    requires SlotsHold(slots, s.d) && CountersHold(counters, s.d) && QueueHolds(vq, s.d)
    requires vq.cookies != counters.pendingCookie
    requires MayStartSync(s, u) && io !in s.r.home
    requires 1 <= |sg| <= MAX_SG_ENTRIES && outNum <= |sg| && vq.Honest(offer)
    modifies slots`ids, slots`resp, slots.requestId, slots.response, counters`mask
    modifies vq`freeHead, vq`numFree, vq`availIdx, vq`memory, vq`q, vq`posted
    modifies vq.desc, vq.cookies, vq.indirectTables, vq.availRing
    ensures SlotsHold(slots, t.d) && CountersHold(counters, t.d) && QueueHolds(vq, t.d)
    ensures ok == QM.CanAdd(s.d.q, sg, vq.TableFor(sg, offer))
    ensures Steps(s, if ok then SyncStart(u, io, sg, outNum, vq.TableFor(sg, offer)) else SyncFail(u), t)
  {
    hide AddIf, MarkIf, Reachable, Steps, Slots.Valid, UnitState.Counters.Valid, VQ.VirtQueue.Valid, QM.Add,
         QM.CanAdd, VQ.VirtQueue.TableFor;
    SlotZeroHere(s, u);
    var k := Key(u, 0);
    slots.Prepare(k, SYNC_ID);
    ok := AddAndMark(counters, vq, u, CookieOf(k), sg, outNum, offer);
    t := DoSyncSection(s, u, io, ok, sg, outNum, vq.TableFor(sg, offer));
  }

  /** Take the cookie another task has left here, if it has. */
  method PickUp(counters: UnitState.Counters, u: nat, ghost s: State) returns (own: bool, ghost t: State)
    requires CountersHold(counters, s.d) && MayHarvest(s, u) && s.d.task[u].sync.Waiting?
    modifies counters`pending, counters.pendingCookie
    ensures CountersHold(counters, t.d)
    ensures own <==> s.d.pending[u] == Some(CookieOf(Key(u, 0)))
    ensures if own then Steps(s, SyncPickup(u), t) else t == s
  {
    hide Reachable, Steps;
    t := s;
    own := counters.pendingCookie[u] == Some(CookieOf(Key(u, 0)));
    if own {
      t := DoSyncPickup(s, u);
      counters.Stash(u, None);
    }
  }

  /** Read the response and leave. */
  method FinishSync(slots: Slots, counters: UnitState.Counters, u: nat, ghost s: State)
    returns (answer: Answer, ghost t: State)
    requires SlotsHold(slots, s.d) && CountersHold(counters, s.d) && HasResult(s, u)
    modifies counters`mask
    ensures SlotsHold(slots, t.d) && CountersHold(counters, t.d) && Steps(s, SyncFinish(u), t)
    ensures t.d.answers == s.d.answers + [Reply(s.d.task[u].sync.io, answer)]
  {
    hide Reachable, Steps, UnitState.Counters.Valid;
    t := DoSyncFinish(s, u);
    answer := slots.response[u, 0];
    counters.Unmark(u);
  }

  // ---------------------------------------------------------------------
  // The device
  // ---------------------------------------------------------------------

  /** The device takes a request and finds it as it was posted. */
  method DeviceTakes(vq: VQ.VirtQueue, ghost s: State)
    returns (head: nat, segments: Option<seq<VRing.Segment>>, ghost t: State)
    requires QueueHolds(vq, s.d) && s.d.q.avail != [] && Reachable(s)
    modifies vq`deviceAvailIdx, vq`q, vq`taken
    ensures QueueHolds(vq, t.d) && Steps(s, DeviceTake, t)
    ensures head == s.d.q.avail[0] && head in t.d.q.out
    ensures segments == Some(VRing.Segments(t.d.q.out[head].sg, t.d.q.out[head].outNum))
  {
    hide Reachable, Steps, VQ.VirtQueue.Valid;
    t := DoTake(s);
    head, segments := vq.DeviceTake();
  }
}
