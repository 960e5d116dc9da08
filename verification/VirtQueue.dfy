/** The split virtqueue of src/virtio/virtqueue.c, with the device's side of
    the shared memory. */
module VirtQueue {
  import opened Types
  import opened VRing
  import opened Counters
  import opened QueueStore
  import opened Rings
  import QM = QueueModel
  import QR = QueueRuns

  /** What the allocator and the DMA layer answer when AddBuf asks for an
      indirect table: memory or not, a mapping or not, an entry list or not. */
  datatype TableOffer =
    | NoMemory
    | NotMapped(virt: nat)
    | NoEntryList(virt: nat, phys: uint32)
    | Mapped(virt: nat, phys: uint32)

  class VirtQueue {
    const num: nat
    const modern: bool
    const useEventIdx: bool
    const useIndirect: bool

    // shared with the device
    const desc: array<Desc>
    const availRing: array<uint16> // num heads, then the used_event word
    const usedRing: array<UsedElem>
    var availIdx: uint16
    var usedIdx: uint16

    // the driver's own
    const cookies: array<Option<Cookie>>
    const indirectTables: array<Option<nat>>
    var freeHead: uint16
    var numFree: uint16
    var lastUsedIdx: uint16
    var memory: Memory

    // the device's own
    var deviceAvailIdx: uint16

    // the queue this represents, and how often each ring index has moved
    ghost var q: QM.Queue
    ghost var posted: nat
    ghost var taken: nat
    ghost var completed: nat
    ghost var harvested: nat

    ghost predicate Shape()
      reads this
    {
      && LegalSize(num)
      && desc.Length == num && cookies.Length == num && indirectTables.Length == num
      && availRing.Length == num + 1 && usedRing.Length == num
    }

    ghost function Snapshot(): Store
      reads this, desc, cookies, indirectTables
    {
      Store(desc[..], cookies[..], indirectTables[..], memory, freeHead, numFree)
    }

    ghost predicate Indices()
      reads this, availRing, usedRing
    {
      && AvailRing(modern, num, availRing[..], availIdx, posted, taken, q.avail)
      && UsedRing(modern, num, usedRing[..], usedIdx, completed, harvested, q.used)
      && lastUsedIdx == Wrap(harvested)
      && deviceAvailIdx == Wrap(taken)
    }

    ghost predicate Valid()
      reads this, desc, cookies, indirectTables, availRing, usedRing
    {
      Shape() && Represents(modern, Snapshot(), q) && Indices()
    }

    /** used_event as GetBuf leaves it: the next completion interrupts. */
    ghost predicate AimedAtNext()
      reads this, availRing
    {
      useEventIdx && num < availRing.Length ==> availRing[num] == Vr16(modern, lastUsedIdx)
    }

    /** used_event as Harvest leaves it with `n` requests counted. */
    ghost predicate AimedAtLast(n: nat)
      reads this, availRing
    {
      useEventIdx && num < availRing.Length && n > 0 ==> availRing[num] == Vr16(modern, (lastUsedIdx + n - 1) % WRAP)
    }

    constructor (size: nat, modern: bool, useEventIdx: bool, useIndirect: bool)
      requires LegalSize(size)
      ensures Valid() && q == QM.Init(size)
      ensures this.modern == modern && this.useEventIdx == useEventIdx && this.useIndirect == useIndirect
      ensures availRing[size] == 0 && lastUsedIdx == 0
      ensures fresh(desc) && fresh(cookies) && fresh(indirectTables) && fresh(availRing) && fresh(usedRing)
    {
      num, this.modern, this.useEventIdx, this.useIndirect := size, modern, useEventIdx, useIndirect;
      desc := new Desc[size](_ => CLEARED);
      availRing := new uint16[size + 1](_ => 0);
      usedRing := new UsedElem[size](_ => UsedElem(0, 0));
      cookies := new Option<Cookie>[size](_ => None);
      indirectTables := new Option<nat>[size](_ => None);
      availIdx, usedIdx, deviceAvailIdx := 0, 0, 0;
      freeHead, numFree, lastUsedIdx := 0, size, 0;
      memory := Memory(map[], map[], map[]);
      q := QM.Init(size);
      posted, taken, completed, harvested := 0, 0, 0, 0;
      new;
      ThreadFreeList(desc);
      QM.InitInv(size);
    }

    /** AddBuf may take the indirect form only when it was negotiated, the
        request has more than one entry, and a table could be had. */
    function TableFor(sg: seq<Sg>, offer: TableOffer): Option<nat>
    {
      if useIndirect && |sg| > 1 && offer.Mapped? then Some(offer.virt) else None
    }

    /** Allocators do not hand out what is already in use. */
    ghost predicate Honest(offer: TableOffer)
      reads this
    {
      && (!offer.NoMemory? ==> offer.virt !in memory.heap)
      && (offer.Mapped? || offer.NoEntryList? ==> offer.phys !in memory.bus)
    }

    /** Allocate, fill and map an indirect table; on any failure give back
        whatever had been obtained. */
    method MakeTable(sg: seq<Sg>, outNum: nat, offer: TableOffer) returns (ghost table: seq<Desc>)
      requires 1 <= |sg| <= WRAP && Honest(offer) && memory.heap.Keys == memory.mapped.Keys
      modifies this`memory
      ensures |table| == |sg| && Spells(modern, table, QueueStore.Indices(|sg|), sg, outNum)
      ensures offer.Mapped? ==>
        memory == old(memory).Allocate(offer.virt, table).StartDMA(offer.virt, offer.phys, TableSize(sg))
      ensures !offer.Mapped? ==> memory == old(memory)
    {
      var itbl := FillTable(modern, sg, outNum);
      table := itbl;
      match offer {
        case NoMemory =>
        case NotMapped(virt) =>
          memory := memory.Allocate(virt, itbl);
          memory := memory.FreeVec(virt);
        case NoEntryList(virt, phys) =>
          memory := memory.Allocate(virt, itbl).StartDMA(virt, phys, 16 * |sg|);
          memory := memory.EndDMA(virt, 16 * |sg|);
          memory := memory.FreeVec(virt);
          assert memory.bus == old(memory).bus;
        case Mapped(virt, phys) =>
          memory := memory.Allocate(virt, itbl).StartDMA(virt, phys, 16 * |sg|);
      }
    }

    method AddBuf(sg: seq<Sg>, outNum: nat, cookie: Cookie, offer: TableOffer) returns (ok: bool)
      requires Valid() && 1 <= |sg| <= WRAP && outNum <= |sg| && Honest(offer)
      modifies this`freeHead, this`numFree, this`availIdx, this`memory, this`q, this`posted
      modifies desc, cookies, indirectTables, availRing
      ensures Valid()
      ensures ok <==> QM.CanAdd(old(q), sg, TableFor(sg, offer))
      ensures ok ==> q == QM.Add(old(q), sg, outNum, cookie, TableFor(sg, offer))
      // the indirect form is taken whenever it can be, and costs one descriptor
      ensures useIndirect && |sg| > 1 && offer.Mapped? ==>
        && (ok <==> old(q).free != [])
        && (ok ==> |q.free| == |old(q).free| - 1 && Added(old(q), q, sg, outNum, cookie, 1, Some(offer.virt)))
      // the direct form costs one for each entry
      ensures !useIndirect || |sg| == 1 || !offer.Mapped? ==>
        && (ok <==> |sg| <= |old(q).free|)
        && (ok ==> |q.free| == |old(q).free| - |sg| && Added(old(q), q, sg, outNum, cookie, |sg|, None))
      ensures !ok ==> q == old(q) && memory == old(memory) && availIdx == old(availIdx)
                      && freeHead == old(freeHead) && numFree == old(numFree)
                      && unchanged(desc, cookies, indirectTables, availRing)
      ensures availRing[num] == old(availRing[num])
    {
      Known();
      AddIs(q, sg, outNum, cookie);
      hide QM.Inv, QM.Add, Added, Represents, AvailRing, UsedRing;
      var total := |sg|;
      if useIndirect && total > 1 {
        if numFree < 1 {
          return false;
        }
        ghost var m0 := memory;
        ghost var table := MakeTable(sg, outNum, offer);
        if offer.Mapped? {
          AddIndirect(sg, outNum, cookie, offer.virt, offer.phys, table, m0);
          return true;
        }
      }
      if numFree < total {
        return false;
      }
      AddDirect(sg, outNum, cookie);
      return true;
    }

    lemma Known()
      requires Valid()
      ensures QM.Inv(q) && numFree == |q.free| && memory.heap.Keys == memory.mapped.Keys
    {}

    /** The direct path: one free descriptor for each entry. */
    method AddDirect(sg: seq<Sg>, outNum: nat, cookie: Cookie)
      requires Valid() && QM.CanAdd(q, sg, None)
      modifies this`freeHead, this`numFree, this`availIdx, this`q, this`posted
      modifies desc, cookies, indirectTables, availRing
      ensures Valid() && q == QM.Add(old(q), sg, outNum, cookie, None)
      ensures availRing[num] == old(availRing[num])
    {
      hide AllStored, Recorded, Balanced, QM.Inv, AvailRing, UsedRing, Spells, OnlyAt;
      ghost var s0 := Snapshot();
      FreeNodes(modern, s0, q);
      var head := freeHead;
      freeHead := FillChain(desc, modern, sg, outNum, head, q.free);
      numFree := numFree - |sg|;
      cookies[head] := Some(cookie);
      indirectTables[head] := None;
      QueueStore.AddDirect(modern, s0, Snapshot(), q, sg, outNum, cookie);
      Post(head, sg, outNum, cookie, None);
    }

    /** The indirect path: one descriptor, which names the table. */
    method AddIndirect(sg: seq<Sg>, outNum: nat, cookie: Cookie, virt: nat, phys: uint32, ghost table: seq<Desc>,
                       ghost m0: Memory)
      requires Shape() && Represents(modern, Snapshot().(memory := m0), q) && Indices()
      requires QM.CanAdd(q, sg, Some(virt)) && |sg| <= WRAP
      requires virt !in m0.heap && virt !in m0.mapped && phys !in m0.bus
      requires |table| == |sg| && Spells(modern, table, QueueStore.Indices(|sg|), sg, outNum)
      requires memory == m0.Allocate(virt, table).StartDMA(virt, phys, TableSize(sg))
      modifies this`freeHead, this`numFree, this`availIdx, this`q, this`posted
      modifies desc, cookies, indirectTables, availRing
      ensures Valid() && q == QM.Add(old(q), sg, outNum, cookie, Some(virt))
      ensures availRing[num] == old(availRing[num])
    {
      hide AllStored, Recorded, Balanced, QM.Inv, AvailRing, UsedRing, Spells, Vr16, Vr32, Vr64;
      ghost var s0 := Snapshot().(memory := m0);
      FreeNodes(modern, s0, q);
      var head := freeHead;
      var nextHead := desc[head].next;
      desc[head] := Desc(Vr64(modern, phys), Vr32(modern, 16 * |sg|), Vr16(modern, F_INDIRECT), 0);
      freeHead := nextHead;
      numFree := numFree - 1;
      cookies[head] := Some(cookie);
      indirectTables[head] := Some(virt);
      QueueStore.AddIndirect(modern, s0, q, sg, outNum, cookie, virt, phys, table);
      assert Snapshot() == IndirectStore(modern, s0, head, sg, cookie, virt, phys, table);
      Post(head, sg, outNum, cookie, Some(virt));
    }

    /** Publish the request just written at the old head of the free list. */
    method Post(head: uint16, ghost sg: seq<Sg>, ghost outNum: nat, ghost cookie: Cookie, ghost table: Option<nat>)
      requires Shape() && Indices() && QM.Inv(q) && QM.CanAdd(q, sg, table) && q.num == num && head == q.free[0]
      requires Represents(modern, Snapshot(), QM.Add(q, sg, outNum, cookie, table))
      modifies this`availIdx, this`q, this`posted, availRing
      ensures Valid() && q == QM.Add(old(q), sg, outNum, cookie, table)
      ensures availRing[num] == old(availRing[num])
    {
      ghost var ring0 := availRing[..];
      hide Vr16, PowerOfTwo, AvailRing, UsedRing, Represents, QM.Inv;
      QR.RoomToPost(q, sg, table);
      Publish(modern, num, ring0, availIdx, posted, taken, q.avail, head);
      var i := Vr16(modern, availIdx);
      availRing[i % num] := Vr16(modern, head);
      availIdx := Vr16(modern, (i + 1) % WRAP);
      posted := posted + 1;
      q := QM.Add(q, sg, outNum, cookie, table);
      assert availRing[..] == ring0[i % num := Vr16(modern, head)];
    }

    /** Take back the oldest completion the device has written, whatever form
        its request had; nothing happens when there is none. */
    method GetBuf() returns (cookie: Option<Cookie>, written: uint32)
      requires Valid()
      modifies this`freeHead, this`numFree, this`lastUsedIdx, this`memory, this`q, this`harvested
      modifies desc, cookies, indirectTables, availRing
      ensures Valid()
      ensures old(q).used == [] ==>
        cookie.None? && q == old(q) && memory == old(memory) && lastUsedIdx == old(lastUsedIdx)
        && freeHead == old(freeHead) && numFree == old(numFree)
        && unchanged(desc, cookies, indirectTables, availRing)
      ensures old(q).used != [] ==>
        var u := old(q).used[0];
        && u.id in old(q).out && cookie == Some(old(q).out[u.id].cookie) && written == u.len
        && q == QM.Get(old(q)) && lastUsedIdx == Wrap(old(harvested) + 1)
        && availRing[num] == if useEventIdx then Vr16(modern, lastUsedIdx) else old(availRing[num])
    {
      hide Represents, AvailRing, UsedRing, QM.Inv, Vr16, Vr32, PowerOfTwo;
      HarvestTest();
      if lastUsedIdx == Vr16(modern, usedIdx) {
        return None, 0;
      }
      Collect(modern, num, usedRing[..], usedIdx, completed, harvested, q.used);
      var elem := usedRing[lastUsedIdx % num];
      var id := Vr32(modern, elem.id);
      written := Vr32(modern, elem.len);
      cookie := TakeBack(id);
      lastUsedIdx := (lastUsedIdx + 1) % WRAP;
      WrapNext(harvested);
      harvested := harvested + 1;
      q := QM.Get(q);
      if useEventIdx {
        ghost var ring0 := availRing[..];
        availRing[num] := Vr16(modern, lastUsedIdx);
        EventWordApart(modern, num, ring0, availRing[..], availIdx, posted, taken, q.avail);
      }
    }

    /** Aim the next interrupt: the word behind the ring the device compares its
        used index with. */
    method SetUsedEvent(event: uint16)
      requires Valid()
      modifies availRing
      ensures Valid() && availRing[num] == Vr16(modern, event)
    {
      hide Represents, AvailRing, UsedRing, QM.Inv, Vr16, PowerOfTwo;
      ghost var ring0 := availRing[..];
      availRing[num] := Vr16(modern, event);
      EventWordApart(modern, num, ring0, availRing[..], availIdx, posted, taken, q.avail);
    }

    /** The equality test GetBuf starts with sees exactly whether a completion
        is waiting. */
    lemma HarvestTest()
      requires Valid()
      ensures lastUsedIdx == Vr16(modern, usedIdx) <==> q.used == []
      ensures q.used != [] ==> q.used[0].id in q.out && q.used[0].id < num
    {
      hide AllStored, Recorded, Balanced;
      QR.Capacity(q);
      EmptyTest(modern, num, usedRing[..], usedIdx, completed, harvested, q.used);
      if q.used != [] {
        QM.GetInv(q);
        QR.HeadsInRange(q);
      }
    }

    /** Free the descriptors of a completed request, and its table if it has
        one, which is unmapped with the size it was mapped with. */
    method TakeBack(id: uint32) returns (cookie: Option<Cookie>)
      requires Shape() && Represents(modern, Snapshot(), q)
      requires q.used != [] && id == q.used[0].id && id in q.out && id < num
      modifies this`freeHead, this`numFree, this`memory, desc, cookies, indirectTables
      ensures cookie == Some(q.out[id].cookie)
      ensures Represents(modern, Snapshot(), QM.Get(q))
    {
      hide AllStored, Balanced, Recorded, FreeList, Spells, OnlyAt, PushedAt, QM.Inv, Vr16, Vr32, Vr64, PowerOfTwo;
      ghost var s0, r := Snapshot(), q.out[id];
      OldestRequest(modern, s0, q, id);
      cookie := cookies[id];
      cookies[id] := None;
      var virt := indirectTables[id];
      indirectTables[id] := None;
      if virt.Some? {
        var size := Vr32(modern, desc[id].len);
        memory := memory.EndDMA(virt.value, size);
        memory := memory.FreeVec(virt.value);
        desc[id] := CLEARED.(next := freeHead);
        freeHead := id;
        numFree := numFree + 1;
        PushOne(s0.desc, s0.desc, desc[..], r.chain, s0.freeHead, 0);
      } else {
        var freed;
        freeHead, freed := ReleaseChain(desc, modern, id, freeHead, r);
        numFree := numFree + freed;
      }
      GetDone(modern, s0, Snapshot(), q, id);
    }

    // -------------------------------------------------------------------
    // The device
    // -------------------------------------------------------------------

    /** The device reads the next posted head and follows it: it gets the oldest
        request it has not taken, exactly as its submitter described it. */
    method DeviceTake() returns (head: nat, segments: Option<seq<Segment>>)
      requires Valid() && q.avail != []
      modifies this`deviceAvailIdx, this`q, this`taken
      ensures Valid() && q == QM.Take(old(q))
      ensures head == old(q).avail[0] && head in q.out
      ensures segments == Some(Segments(q.out[head].sg, q.out[head].outNum))
    {
      hide Represents, AvailRing, UsedRing, Vr16, PowerOfTwo, QM.Inv, ReadRequest;
      Fetch(modern, num, availRing[..], availIdx, posted, taken, q.avail);
      TakeRepresents(modern, Snapshot(), q);
      head := DeviceReads(modern, Stored16(availRing[deviceAvailIdx % num]));
      segments := ReadRequest(modern, desc[..], memory.Reachable(), head);
      PostedReadable(modern, Snapshot(), q, head);
      WrapNext(taken);
      deviceAvailIdx := (deviceAvailIdx + 1) % WRAP;
      taken := taken + 1;
      q := QM.Take(q);
    }

    /** The device completes any request it holds, in any order. */
    method DeviceComplete(head: nat, len: uint32)
      requires Valid() && head in q.held
      modifies this`usedIdx, this`q, this`completed, usedRing
      ensures Valid() && q == QM.Complete(old(q), head, len)
    {
      hide Represents, AvailRing, UsedRing, Vr16, Vr32, PowerOfTwo, QM.Inv;
      CompleteRepresents(modern, Snapshot(), q, head, len);
      ghost var ring0 := usedRing[..];
      Deposit(modern, num, ring0, usedIdx, completed, harvested, q.used, QM.Used(head, len));
      var i := Vr16(modern, usedIdx);
      usedRing[i % num] := UsedElem(Vr32(modern, head), Vr32(modern, len));
      usedIdx := Vr16(modern, (i + 1) % WRAP);
      completed := completed + 1;
      q := QM.Complete(q, head, len);
      assert usedRing[..] == ring0[i % num := UsedElem(Vr32(modern, head), Vr32(modern, len))];
    }
  }


  /** The request has been added at the front of the free list, of which it took
      `n`, and posted behind those posted before. */
  ghost predicate Added(q: QM.Queue, q': QM.Queue, sg: seq<Sg>, outNum: nat, cookie: Cookie, n: nat, table: Option<nat>)
  {
    && 1 <= n <= |q.free| && q.free[0] !in q.out
    && q'.out == q.out[q.free[0] := QM.Request(cookie, sg, outNum, q.free[..n], table)]
    && q'.free == q.free[n..] && q'.avail == q.avail + [q.free[0]]
    && q'.held == q.held && q'.used == q.used && q'.num == q.num
  }

  lemma AddIs(q: QM.Queue, sg: seq<Sg>, outNum: nat, cookie: Cookie)
    requires QM.Inv(q)
    ensures forall table | QM.CanAdd(q, sg, table) ::
              Added(q, QM.Add(q, sg, outNum, cookie, table), sg, outNum, cookie, QM.Cost(sg, table), table)
  {
    hide QM.Inv;
    forall table | QM.CanAdd(q, sg, table)
      ensures Added(q, QM.Add(q, sg, outNum, cookie, table), sg, outNum, cookie, QM.Cost(sg, table), table)
    {
      QM.AddInv(q, sg, outNum, cookie, table);
    }
  }

  /** Link every descriptor to the next; the last link is never followed. */
  method ThreadFreeList(desc: array<Desc>)
    requires 0 < desc.Length <= 0x8000
    modifies desc
    ensures FreeList(desc[..], QM.Init(desc.Length).free, 0, desc.Length)
  {
    var j := 0;
    while j < desc.Length - 1
      invariant 0 <= j <= desc.Length - 1
      invariant forall k | 0 <= k < j :: desc[k].next == k + 1
    {
      desc[j] := desc[j].(next := j + 1);
      j := j + 1;
    }
    desc[desc.Length - 1] := desc[desc.Length - 1].(next := 0);
    ghost var free := QM.Init(desc.Length).free;
    forall k | 0 <= k < |free| - 1
      ensures Linked(desc[..], free, k)
    {
      assert desc[k].next == k + 1;
    }
  }

  /** Write `sg` into the nodes of the free list, starting at `head`, turning
      the free links among them into chain links as they are passed. */
  method FillChain(desc: array<Desc>, modern: bool, sg: seq<Sg>, outNum: nat, head: uint16, ghost free: seq<nat>)
    returns (next: uint16)
    requires 0 < |sg| <= |free| && head == free[0] && QM.Distinct(free)
    requires desc.Length <= 0x8000 && forall k | 0 <= k < |free| :: free[k] < desc.Length
    requires forall k | 0 <= k < |free| - 1 :: Linked(desc[..], free, k)
    modifies desc
    ensures OnlyAt(old(desc[..]), desc[..], free[..|sg|])
    ensures Spells(modern, desc[..], free[..|sg|], sg, outNum)
    ensures next == old(desc[..])[free[|sg| - 1]].next
  {
    hide Vr16, Vr32, Vr64;
    ghost var d0 := desc[..];
    var idx := head;
    var n := 0;
    next := head;
    while n < |sg|
      invariant 0 <= n <= |sg|
      invariant n < |sg| ==> idx == free[n]
      invariant n == |sg| ==> next == d0[free[n - 1]].next
      invariant OnlyAt(d0, desc[..], free[..n])
      invariant forall k | 0 <= k < n :: ChainNode(modern, desc[..], d0, free, sg, outNum, k)
    {
      ghost var before := desc[..];
      next := desc[idx].next;
      assert free[n] !in free[..n] && next == d0[free[n]].next;
      desc[idx] := Encode(modern, sg[n], FlagsAt(n, |sg|, outNum), if n < |sg| - 1 then Vr16(modern, next) else next);
      if n < |sg| - 1 {
        assert Linked(d0, free, n);
        idx := next;
      }
      forall k | 0 <= k < n
        ensures ChainNode(modern, desc[..], d0, free, sg, outNum, k)
      {
        assert ChainNode(modern, before, d0, free, sg, outNum, k);
        assert free[k] != free[n];
      }
      n := n + 1;
    }
    forall k | 0 <= k < |sg|
      ensures SpellsAt(modern, desc[..], free[..|sg|], sg, outNum, k)
    {
      assert ChainNode(modern, desc[..], d0, free, sg, outNum, k);
    }
  }

  ghost predicate ChainNode(modern: bool, d: seq<Desc>, d0: seq<Desc>, free: seq<nat>, sg: seq<Sg>, outNum: nat, k: nat)
    requires k < |sg| <= |free|
  {
    && free[k] < |d| == |d0|
    && d[free[k]].(next := 0) == Encode(modern, sg[k], FlagsAt(k, |sg|, outNum), 0)
    && (k + 1 < |sg| ==> free[k + 1] < WRAP && d[free[k]].next == Vr16(modern, free[k + 1]))
  }

  /** A flat table whose entries link to their successors. */
  method FillTable(modern: bool, sg: seq<Sg>, outNum: nat) returns (table: seq<Desc>)
    requires 1 <= |sg| <= WRAP
    ensures |table| == |sg| && Spells(modern, table, QueueStore.Indices(|sg|), sg, outNum)
  {
    hide Vr16, Encode;
    var itbl := new Desc[|sg|](_ => CLEARED);
    var n := 0;
    while n < |sg|
      invariant 0 <= n <= |sg|
      invariant forall k | 0 <= k < n ::
                  itbl[k] == Encode(modern, sg[k], FlagsAt(k, |sg|, outNum), Vr16(modern, (k + 1) % WRAP))
    {
      itbl[n] := Encode(modern, sg[n], FlagsAt(n, |sg|, outNum), Vr16(modern, (n + 1) % WRAP));
      n := n + 1;
    }
    table := itbl[..];
    TableSpells(modern, table, sg, outNum);
  }

  lemma TableSpells(modern: bool, table: seq<Desc>, sg: seq<Sg>, outNum: nat)
    requires |table| == |sg| <= WRAP
    requires forall k | 0 <= k < |sg| ::
               table[k] == Encode(modern, sg[k], FlagsAt(k, |sg|, outNum), Vr16(modern, (k + 1) % WRAP))
    ensures Spells(modern, table, QueueStore.Indices(|sg|), sg, outNum)
  {
    hide Vr16, Vr32, Vr64;
  }

  /** Push the nodes of a direct chain on the free list one by one.  The walk
      has no bound but the NEXT flags, which end it at the last node. */
  method ReleaseChain(desc: array<Desc>, modern: bool, head: uint16, freeHead: uint16, ghost r: QM.Request)
    returns (newHead: uint16, freed: uint16)
    requires Spells(modern, desc[..], r.chain, r.sg, r.outNum) && QM.Distinct(r.chain)
    requires 0 < |r.chain| <= desc.Length <= 0x8000 && r.chain[0] == head
    modifies desc
    ensures Pushed(old(desc[..]), desc[..], r.chain, freeHead, |r.chain|)
    ensures newHead == r.chain[|r.chain| - 1] && freed == |r.chain|
  {
    hide Vr16, Vr32, Vr64;
    ghost var d0, chain := desc[..], r.chain;
    var idx := head;
    newHead, freed := freeHead, 0;
    while true
      invariant 0 <= freed < |chain| && idx == chain[freed]
      invariant newHead == if freed == 0 then freeHead else chain[freed - 1]
      invariant Pushed(d0, desc[..], chain, freeHead, freed)
      decreases |chain| - freed
    {
      ChainLink(modern, d0, chain, r.sg, r.outNum, freed);
      assert idx !in chain[..freed];
      var next := Vr16(modern, desc[idx].next);
      var hasNext := HasFlag(Vr16(modern, desc[idx].flags), F_NEXT);
      ghost var before := desc[..];
      desc[idx] := CLEARED.(next := newHead);
      newHead := idx;
      freed := freed + 1;
      PushOne(d0, before, desc[..], chain, freeHead, freed - 1);
      if !hasNext {
        break;
      }
      idx := next;
    }
  }

  lemma PushOne(d0: seq<Desc>, d1: seq<Desc>, d2: seq<Desc>, chain: seq<nat>, freeHead: uint16, p: nat)
    requires QM.Distinct(chain) && p < |chain| && chain[p] < |d1| && (p > 0 ==> chain[p - 1] < WRAP)
    requires Pushed(d0, d1, chain, freeHead, p)
    requires d2 == d1[chain[p] := CLEARED.(next := if p == 0 then freeHead else chain[p - 1])]
    ensures Pushed(d0, d2, chain, freeHead, p + 1)
  {
    assert chain[..p + 1] == chain[..p] + [chain[p]];
    forall j | 0 <= j < p + 1
      ensures PushedAt(d2, chain, freeHead, j)
    {
      if j < p {
        assert PushedAt(d1, chain, freeHead, j);
        assert chain[j] != chain[p];
      }
    }
  }

  /** What the driver reads back from a chain node it wrote. */
  lemma ChainLink(modern: bool, d: seq<Desc>, chain: seq<nat>, sg: seq<Sg>, outNum: nat, n: nat)
    requires Spells(modern, d, chain, sg, outNum) && n < |chain|
    ensures chain[n] < |d|
    ensures HasFlag(Vr16(modern, d[chain[n]].flags), F_NEXT) <==> n + 1 < |chain|
    ensures n + 1 < |chain| ==> Vr16(modern, d[chain[n]].next) == chain[n + 1]
  {
    hide Vr16, Vr32, Vr64;
    assert SpellsAt(modern, d, chain, sg, outNum, n);
    Vr16RoundTrip(modern, FlagsAt(n, |sg|, outNum));
    FlagsMean(n, |sg|, outNum);
    if n + 1 < |chain| {
      Vr16RoundTrip(modern, chain[n + 1]);
    }
  }

  /** What TakeBack relies on of the request it takes back. */
  lemma OldestRequest(modern: bool, s: Store, q: QM.Queue, id: nat)
    requires Represents(modern, s, q) && q.used != [] && id == q.used[0].id && id in q.out
    ensures var r := q.out[id];
            && 0 < |r.chain| <= q.num && r.chain[0] == id && QM.Distinct(r.chain)
            && r.chain[|r.chain| - 1] < q.num && |r.chain| + s.numFree <= q.num
            && s.cookies[id] == Some(r.cookie) && s.tables[id] == r.table
            && (r.table.None? ==> Spells(modern, s.desc, r.chain, r.sg, r.outNum))
            && (r.table.Some? ==>
                  var v := r.table.value;
                  && |r.chain| == 1 && v in s.memory.mapped && v in s.memory.heap
                  && Vr32(modern, s.desc[id].len) == s.memory.mapped[v].size)
  {
    hide Balanced, Spells, QM.Disjoint, QM.Covered, QM.Phased, Vr16, Vr32, Vr64;
    var r := q.out[id];
    assert QM.WellFormed(q.num, q.free, id, r);
    assert r.chain[|r.chain| - 1] in r.chain;
    ChainAndFree(r.chain, q.free, q.num);
    StoredTable(modern, s.desc, s.memory, id, r);
  }

  lemma StoredTable(modern: bool, desc: seq<Desc>, m: Memory, head: nat, r: QM.Request)
    requires RequestStored(modern, desc, m, head, r)
    ensures r.table.None? ==> Spells(modern, desc, r.chain, r.sg, r.outNum)
    ensures r.table.Some? ==>
      var v := r.table.value;
      v in m.mapped && v in m.heap && Vr32(modern, desc[head].len) == m.mapped[v].size
  {
    hide Vr16, Vr32, Vr64, Spells;
    if r.table.Some? {
      Vr32RoundTrip(modern, TableSize(r.sg));
    }
  }

  lemma ChainAndFree(chain: seq<nat>, free: seq<nat>, num: nat)
    requires QM.Distinct(chain) && QM.Distinct(free)
    requires forall i | i in chain :: i < num && i !in free
    requires forall i | i in free :: i < num
    ensures |chain| + |free| <= num
  {
    QR.DistinctSize(chain);
    QR.DistinctSize(free);
    QR.BelowIs(num);
    QR.Subset(QR.Members(chain) + QR.Members(free), QR.Below(num));
  }

  lemma TakeRepresents(modern: bool, s: Store, q: QM.Queue)
    requires Represents(modern, s, q) && q.avail != []
    ensures Represents(modern, s, QM.Take(q)) && q.avail[0] in q.out
  {
    QM.TakePhased(q);
  }

  lemma CompleteRepresents(modern: bool, s: Store, q: QM.Queue, head: nat, len: uint32)
    requires Represents(modern, s, q) && head in q.held
    ensures Represents(modern, s, QM.Complete(q, head, len))
    ensures |q.used| < q.num && head < q.num
  {
    QM.CompletePhased(q, head, len);
    QR.RoomToComplete(q, head);
  }

  /** Every outstanding request reads back as its submitter wrote it. */
  lemma PostedReadable(modern: bool, s: Store, q: QM.Queue, head: nat)
    requires Represents(modern, s, q) && head in q.out
    ensures ReadRequest(modern, s.desc, s.memory.Reachable(), head)
         == Some(Segments(q.out[head].sg, q.out[head].outNum))
  {
    DeviceReadsRequest(modern, s.desc, s.memory, q.out, q.num, q.free, head);
  }

  /** The word after the heads belongs to no slot. */
  lemma EventWordApart(modern: bool, num: nat, ring0: seq<uint16>, ring1: seq<uint16>, idx: uint16,
                  posted: nat, taken: nat, avail: seq<nat>)
    requires AvailRing(modern, num, ring0, idx, posted, taken, avail)
    requires |ring1| == |ring0| && forall i | 0 <= i < num :: ring1[i] == ring0[i]
    ensures AvailRing(modern, num, ring1, idx, posted, taken, avail)
  {
    hide Vr16;
    forall j | 0 <= j < |avail|
      ensures AvailSlot(modern, num, ring1, taken, avail, j)
    {
      assert AvailSlot(modern, num, ring0, taken, avail, j);
    }
  }
}
