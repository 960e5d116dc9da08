/** How a request's data reaches the device: through the slot's bounce buffer up
    to 64 KB, by mapping the caller's own pages beyond that
    (src/virtio/virtio_scsi_io.c, the middle of VirtIOSCSI_Submit and the first
    half of complete_inflight_slot). */
module DataPath {
  import opened Types
  import opened VRing
  import opened Memory
  import Ledger

  const BOUNCE_BUF_SIZE: nat := 65536

  // ---------------------------------------------------------------------
  // The slots' data
  // ---------------------------------------------------------------------

  /** A live StartDMA mapping of the caller's pages; EndDMA must name it again. */
  datatype Mapping = Mapping(pages: seq<Sg>, size: uint32, fromRam: bool)

  /** The dma_ fields, using_bounce and is_write of an inflight[] entry.  `pages`
      is the memory dma_addr points to; `mapped` says dma_list is not NULL. */
  datatype Data = Data(isWrite: bool, usingBounce: bool, pages: seq<Sg>, size: uint32, mapped: bool)

  const NOTHING := Data(false, false, [], 0, false)

  function MappingOf(x: Data): multiset<Mapping>
  {
    if x.mapped then multiset{Mapping(x.pages, x.size, x.isWrite)} else multiset{}
  }

  /** The mappings the slots of a table answer for. */
  ghost function Held(table: seq<Data>): multiset<Mapping> { Ledger.Held(table, MappingOf) }

  lemma HeldUpdate(table: seq<Data>, i: nat, x: Data)
    requires i < |table|
    ensures MappingOf(table[i]) <= Held(table)
    ensures Held(table[i := x]) == Held(table) - MappingOf(table[i]) + MappingOf(x)
  {
    hide MappingOf;
    Ledger.HeldUpdate(table, MappingOf, i, x);
  }

  lemma HeldByNone(table: seq<Data>)
    requires forall i | 0 <= i < |table| :: !table[i].mapped
    ensures Held(table) == multiset{}
  {
    Ledger.HeldByNone(table, MappingOf);
  }

  predicate DataOk(size: nat, x: Data)
  {
    && Inside(size, x.pages)
    && (x.usingBounce || x.mapped ==> x.size == Total(x.pages))
    && (x.usingBounce ==> !x.mapped && x.size <= BOUNCE_BUF_SIZE)
  }

  /** The segments a slot's data appears as in a chain. */
  function DataSegments(x: Data, bounce: uint32): seq<Sg>
  {
    if x.usingBounce then [Sg(bounce, x.size)] else if x.mapped then x.pages else []
  }

  // ---------------------------------------------------------------------
  // Memory, the ledger of mappings, and the slots' records
  // ---------------------------------------------------------------------

  /** `live` is what StartDMA has mapped and EndDMA not ended, `table` the data of
      inflight[], unit after unit, `bounce` the slots' bounce_dma_phys[]. */
  datatype Store = Store(ram: Ram, live: multiset<Mapping>, table: seq<Data>, bounce: seq<uint32>)

  predicate HasSlot(m: Store, i: nat)
  {
    i < |m.table| == |m.bounce| && m.bounce[i] + BOUNCE_BUF_SIZE <= |m.ram|
  }

  /** What lies in slot `i`'s bounce buffer. */
  function BufferOf(m: Store, i: nat): (b: seq<uint8>)
    requires HasSlot(m, i)
    ensures |b| == BOUNCE_BUF_SIZE
  {
    m.ram[m.bounce[i]..m.bounce[i] + BOUNCE_BUF_SIZE]
  }

  ghost predicate BouncesApart(size: nat, bounce: seq<uint32>)
  {
    && (forall i | 0 <= i < |bounce| :: bounce[i] + BOUNCE_BUF_SIZE <= size)
    && forall i, j | 0 <= i < j < |bounce| ::
         bounce[i] + BOUNCE_BUF_SIZE <= bounce[j] || bounce[j] + BOUNCE_BUF_SIZE <= bounce[i]
  }

  predicate InBuffer(bounce: uint32, a: nat) { bounce <= a < bounce + BOUNCE_BUF_SIZE }

  /** A caller's buffer: pages of their own, clear of every bounce buffer. */
  ghost predicate Clear(pages: seq<Sg>, bounce: seq<uint32>)
  {
    Apart(pages) && forall i, a: nat | 0 <= i < |bounce| && InBuffer(bounce[i], a) :: !Covered(pages, a)
  }

  ghost predicate RecordsOk(size: nat, table: seq<Data>, bounce: seq<uint32>)
  {
    forall i | 0 <= i < |table| :: DataOk(size, table[i]) && Clear(table[i].pages, bounce)
  }

  ghost predicate StoreOk(m: Store)
  {
    && |m.table| == |m.bounce| && BouncesApart(|m.ram|, m.bounce)
    && RecordsOk(|m.ram|, m.table, m.bounce) && m.live == Held(m.table)
  }

  /** Submit has noted `x` in slot `i`: mapped it, or copied a bounced write. */
  ghost function Filled(m: Store, i: nat, x: Data): (r: Store)
    requires HasSlot(m, i)
    ensures HasSlot(r, i)
  {
    m.(ram := Sent(m.ram, x, m.bounce[i]), live := m.live + MappingOf(x), table := m.table[i := x])
  }

  /** The slot's mapping, if it has one, is ended. */
  ghost function Released(m: Store, i: nat): (r: Store)
    requires HasSlot(m, i)
    ensures HasSlot(r, i)
  {
    m.(live := m.live - MappingOf(m.table[i]), table := m.table[i := m.table[i].(mapped := false)])
  }

  /** The request of slot `i` is complete: a bounced read has been copied back,
      the mapping ended. */
  ghost function Finished(m: Store, i: nat, error: int, residual: uint32, length: uint32): (r: Store)
    requires HasSlot(m, i)
    ensures HasSlot(r, i)
  {
    var back := Returned(m.ram, m.table[i], m.bounce[i], error, Actual(error, residual, length));
    Released(m.(ram := back), i)
  }

  /** The device has written `bytes` where slot `i`'s chain let it. */
  ghost function Written(m: Store, i: nat, bytes: seq<uint8>): (r: Store)
    requires HasSlot(m, i)
    ensures HasSlot(r, i)
  {
    m.(ram := Received(m.ram, m.table[i], m.bounce[i], bytes))
  }

  /** Memory after submission: a bounced write has been copied out. */
  ghost function Sent(ram: Ram, x: Data, bounce: uint32): (r: Ram)
    ensures |r| == |ram|
  {
    if x.usingBounce && x.isWrite && DataOk(|ram|, x) && bounce + BOUNCE_BUF_SIZE <= |ram|
    then Overwrite(ram, bounce, Gather(ram, x.pages)) else ram
  }

  /** Memory after the device's answer to a read. */
  ghost function Received(ram: Ram, x: Data, bounce: uint32, bytes: seq<uint8>): (r: Ram)
    ensures |r| == |ram|
  {
    if x.isWrite || |bytes| > x.size || !DataOk(|ram|, x) || bounce + BOUNCE_BUF_SIZE > |ram| then ram
    else if x.usingBounce then Overwrite(ram, bounce, bytes)
    else if x.mapped then Scatter(ram, x.pages, bytes)
    else ram
  }

  /** Memory after completion: a bounced read has been copied back. */
  ghost function Returned(ram: Ram, x: Data, bounce: uint32, error: int, actual: uint32): (r: Ram)
    ensures |r| == |ram|
  {
    if x.usingBounce && !x.isWrite && error == 0 && 0 < actual <= x.size && DataOk(|ram|, x)
       && bounce + BOUNCE_BUF_SIZE <= |ram|
    then Scatter(ram, x.pages, ram[bounce..bounce + actual]) else ram
  }

  lemma FilledOk(m: Store, i: nat, x: Data)
    requires HasSlot(m, i) && !m.table[i].mapped && DataOk(|m.ram|, x) && Clear(x.pages, m.bounce) && StoreOk(m)
    ensures StoreOk(Filled(m, i, x))
  {
    hide Sent, MappingOf, Clear, DataOk;
    HeldUpdate(m.table, i, x);
    Unmapped(m.table[i]);
  }

  lemma Unmapped(x: Data)
    requires !x.mapped
    ensures MappingOf(x) == multiset{}
  {}

  lemma ReleasedOk(m: Store, i: nat)
    requires HasSlot(m, i) && StoreOk(m)
    ensures StoreOk(Released(m, i)) && MappingOf(m.table[i]) <= m.live
  {
    var x := m.table[i].(mapped := false);
    ReleasedRecords(|m.ram|, m.table, m.bounce, i);
    hide RecordsOk, BouncesApart, MappingOf;
    HeldUpdate(m.table, i, x);
    Unmapped(x);
  }

  lemma ReleasedRecords(size: nat, table: seq<Data>, bounce: seq<uint32>, i: nat)
    requires i < |table| && RecordsOk(size, table, bounce)
    ensures RecordsOk(size, table[i := table[i].(mapped := false)], bounce)
  {
    hide Clear, Inside, Total;
  }

  /** EndDMA names the pages, the size and the direction the mapping was made with. */
  lemma ReleasedSays(m: Store, i: nat)
    requires HasSlot(m, i)
    ensures var x, r := m.table[i], Released(m, i);
            && r.ram == m.ram && r.bounce == m.bounce && r.table == m.table[i := x.(mapped := false)]
            && r.live == if x.mapped then m.live - multiset{Mapping(x.pages, x.size, x.isWrite)} else m.live
  {}

  lemma FinishedOk(m: Store, i: nat, error: int, residual: uint32, length: uint32)
    requires HasSlot(m, i) && StoreOk(m)
    ensures StoreOk(Finished(m, i, error, residual, length)) && MappingOf(m.table[i]) <= m.live
  {
    hide Returned, Clear, DataOk, BouncesApart, MappingOf;
    var back := Returned(m.ram, m.table[i], m.bounce[i], error, Actual(error, residual, length));
    hide Held;
    ReleasedOk(m.(ram := back), i);
  }

  lemma WrittenOk(m: Store, i: nat, bytes: seq<uint8>)
    requires HasSlot(m, i) && StoreOk(m)
    ensures StoreOk(Written(m, i, bytes))
  {
    hide Received;
  }

  // ---------------------------------------------------------------------
  // Slots do not disturb one another
  // ---------------------------------------------------------------------

  /** The buffer of slot `j` is the same in both. */
  ghost predicate SameBuffer(m: Store, m': Store, j: nat)
  {
    HasSlot(m, j) && HasSlot(m', j) && BufferOf(m, j) == BufferOf(m', j)
  }

  lemma OverwriteElsewhere(m: Store, i: nat, bytes: seq<uint8>, j: nat)
    requires HasSlot(m, i) && HasSlot(m, j) && i != j && |bytes| <= BOUNCE_BUF_SIZE && StoreOk(m)
    ensures SameBuffer(m, m.(ram := Overwrite(m.ram, m.bounce[i], bytes)), j)
  {
    hide RecordsOk, Held;
    var r := Overwrite(m.ram, m.bounce[i], bytes);
    assert forall a: nat | InBuffer(m.bounce[j], a) :: r[a] == m.ram[a];
  }

  lemma ScatterClear(m: Store, pages: seq<Sg>, bytes: seq<uint8>, j: nat)
    requires HasSlot(m, j) && Inside(|m.ram|, pages) && |bytes| <= Total(pages) && Clear(pages, m.bounce)
    ensures SameBuffer(m, m.(ram := Scatter(m.ram, pages, bytes)), j)
  {
    hide Scatter, Covered, Total;
    var r := Scatter(m.ram, pages, bytes);
    forall a: nat | InBuffer(m.bounce[j], a)
      ensures r[a] == m.ram[a]
    {
      ScatterElsewhere(m.ram, pages, bytes, a);
    }
  }

  lemma FilledElsewhere(m: Store, i: nat, x: Data, j: nat)
    requires HasSlot(m, i) && HasSlot(m, j) && i != j && StoreOk(m)
    ensures SameBuffer(m, Filled(m, i, x), j) && Filled(m, i, x).table[j] == m.table[j]
  {
    hide StoreOk, Overwrite, MappingOf;
    if x.usingBounce && x.isWrite && DataOk(|m.ram|, x) {
      OverwriteElsewhere(m, i, Gather(m.ram, x.pages), j);
    }
  }

  /** A bounced write leaves the caller's bytes in the slot's buffer. */
  lemma FilledBuffer(m: Store, i: nat, x: Data)
    requires HasSlot(m, i) && DataOk(|m.ram|, x) && x.usingBounce && x.isWrite
    ensures HasSlot(Filled(m, i, x), i) && BufferOf(Filled(m, i, x), i)[..x.size] == Gather(m.ram, x.pages)
  {
    hide MappingOf;
    var bytes := Gather(m.ram, x.pages);
    WrittenSlice(m.ram, m.bounce[i], bytes, BOUNCE_BUF_SIZE);
  }

  lemma WrittenElsewhere(m: Store, i: nat, bytes: seq<uint8>, j: nat)
    requires HasSlot(m, i) && HasSlot(m, j) && i != j && StoreOk(m)
    ensures SameBuffer(m, Written(m, i, bytes), j)
  {
    var x := m.table[i];
    assert DataOk(|m.ram|, x) && Clear(x.pages, m.bounce);
    hide StoreOk, Overwrite, Scatter, Clear;
    if !x.isWrite && |bytes| <= x.size {
      if x.usingBounce {
        OverwriteElsewhere(m, i, bytes, j);
      } else if x.mapped {
        ScatterClear(m, x.pages, bytes, j);
      }
    }
  }

  /** A bounced read leaves the device's bytes in the slot's buffer; the answer
      to a write leaves the buffer alone. */
  lemma WrittenBuffer(m: Store, i: nat, bytes: seq<uint8>)
    requires HasSlot(m, i) && StoreOk(m) && m.table[i].usingBounce && |bytes| <= m.table[i].size
    ensures var x, r := m.table[i], Written(m, i, bytes);
            HasSlot(r, i) && if x.isWrite then BufferOf(r, i) == BufferOf(m, i) else BufferOf(r, i)[..|bytes|] == bytes
  {
    assert DataOk(|m.ram|, m.table[i]);
    hide StoreOk, Total;
    if !m.table[i].isWrite {
      WrittenSlice(m.ram, m.bounce[i], bytes, BOUNCE_BUF_SIZE);
    }
  }

  lemma FinishedElsewhere(m: Store, i: nat, error: int, residual: uint32, length: uint32, j: nat)
    requires HasSlot(m, i) && HasSlot(m, j) && StoreOk(m)
    ensures SameBuffer(m, Finished(m, i, error, residual, length), j)
    ensures i != j ==> Finished(m, i, error, residual, length).table[j] == m.table[j]
  {
    var x := m.table[i];
    assert DataOk(|m.ram|, x) && Clear(x.pages, m.bounce);
    hide StoreOk, Scatter, Clear, MappingOf, Actual;
    var n := Actual(error, residual, length);
    if x.usingBounce && n <= x.size {
      ScatterClear(m, x.pages, m.ram[m.bounce[i]..m.bounce[i] + n], j);
    }
  }

  /** What completing a request leaves in the caller's pages: of a bounced read,
      the first io_Actual bytes of the bounce buffer, then what they held. */
  lemma FinishedPages(m: Store, i: nat, error: int, residual: uint32, length: uint32)
    requires HasSlot(m, i) && StoreOk(m) && (m.table[i].usingBounce ==> length == m.table[i].size)
    ensures var x, n := m.table[i], Actual(error, residual, length);
            && Inside(|m.ram|, x.pages)
            && var before := Gather(m.ram, x.pages);
               && (x.usingBounce ==> n <= x.size == |before| <= BOUNCE_BUF_SIZE)
               && Gather(Finished(m, i, error, residual, length).ram, x.pages)
                  == if x.usingBounce && !x.isWrite then BufferOf(m, i)[..n] + before[n..] else before
  {
    var x := m.table[i];
    assert DataOk(|m.ram|, x) && Clear(x.pages, m.bounce);
    hide StoreOk;
    ReturnedPages(m.ram, x, m.bounce[i], error, Actual(error, residual, length));
  }

  lemma ReturnedPages(ram: Ram, x: Data, bounce: uint32, error: int, n: uint32)
    requires DataOk(|ram|, x) && Apart(x.pages) && bounce + BOUNCE_BUF_SIZE <= |ram|
    requires (x.usingBounce ==> n <= x.size) && (error != 0 ==> n == 0)
    ensures var before := Gather(ram, x.pages);
            Gather(Returned(ram, x, bounce, error, n), x.pages)
            == if x.usingBounce && !x.isWrite
               then ram[bounce..bounce + BOUNCE_BUF_SIZE][..n] + before[n..] else before
  {
    hide Scatter, Gather, Apart, Inside, Total;
    if x.usingBounce && !x.isWrite && n > 0 {
      GatherScatter(ram, x.pages, ram[bounce..bounce + n]);
      assert ram[bounce..bounce + BOUNCE_BUF_SIZE][..n] == ram[bounce..bounce + n];
    }
  }

  /** What completing a request comes to, said of the slot's record itself. */
  lemma FinishedSays(m: Store, i: nat, error: int, residual: uint32, length: uint32)
    requires HasSlot(m, i) && StoreOk(m) && (m.table[i].usingBounce ==> length == m.table[i].size)
    ensures var x, r, at := m.table[i], Finished(m, i, error, residual, length), m.bounce[i];
            var actual := if error != 0 || residual > length then 0 else length - residual;
            && r.table == m.table[i := x.(mapped := false)] && |r.ram| == |m.ram|
            && r.live == (if x.mapped then m.live - multiset{Mapping(x.pages, x.size, x.isWrite)} else m.live)
            && (!x.usingBounce || x.isWrite ==> r.ram == m.ram)
            && (x.usingBounce && !x.isWrite ==>
                  && Inside(|m.ram|, x.pages) && actual <= Total(x.pages) <= 65536
                  && Gather(r.ram, x.pages) == m.ram[at..at + actual] + Gather(m.ram, x.pages)[actual..])
  {
    FinishedPages(m, i, error, residual, length);
    hide StoreOk, Scatter, Gather, Inside, Total;
    var x, actual := m.table[i], Actual(error, residual, length);
    var at: nat := m.bounce[i];
    if x.usingBounce {
      assert BufferOf(m, i)[..actual] == m.ram[at..at + actual];
    }
  }

  // ---------------------------------------------------------------------
  // The slots' data, changed in place
  // ---------------------------------------------------------------------

  class SlotData {
    var ram: Ram
    var live: multiset<Mapping>
    const table: array<Data>
    const bounce: array<uint32>

    ghost function Value(): Store
      reads this, table, bounce
    {
      Store(ram, live, table[..], bounce[..])
    }

    ghost predicate Valid()
      reads this, table, bounce
    {
      StoreOk(Value())
    }

    constructor (ram: Ram, bounce: array<uint32>)
      requires BouncesApart(|ram|, bounce[..])
      ensures Valid() && fresh(table)
      ensures Value() == Store(ram, multiset{}, seq(bounce.Length, _ => NOTHING), bounce[..])
    {
      this.ram, live, this.bounce := ram, multiset{}, bounce;
      table := new Data[bounce.Length](_ => NOTHING);
      new;
      HeldByNone(table[..]);
      assert table[..] == seq(bounce.Length, _ => NOTHING);
    }

    lemma SlotHere(i: nat)
      requires Valid() && i < table.Length
      ensures HasSlot(Value(), i) && table.Length == bounce.Length && bounce[i] + BOUNCE_BUF_SIZE <= |ram|
      ensures DataOk(|ram|, table[i]) && MappingOf(table[i]) <= live
    {
      HeldUpdate(table[..], i, table[i]);
    }

    /** Make the caller's data reachable for the device.  `mappable` is StartDMA's
        answer, `pool` whether the slot has an entry array. */
    method Prepare(i: nat, x: Data, mappable: bool, pool: bool) returns (ok: bool)
      requires Valid() && i < table.Length && !table[i].mapped && DataOk(|ram|, x) && Clear(x.pages, bounce[..])
      modifies this`ram, this`live, table
      ensures Valid() && HasSlot(old(Value()), i) && ok == MapsOk(x, mappable, pool)
      ensures Value() == if ok then Filled(old(Value()), i, x) else old(Value())
    {
      hide Gather, Overwrite, StoreOk;
      SlotHere(i);
      FilledOk(Value(), i, x);
      if x.mapped {
        ok := MapPages(x, mappable, pool);
        if !ok {
          assert Value() == old(Value());
          return;
        }
      } else {
        ok := true;
        if x.usingBounce && x.isWrite {
          ram := Overwrite(ram, bounce[i], Gather(ram, x.pages));
        }
      }
      ghost var before := table[..];
      table[i] := x;
      assert table[..] == before[i := x];
      assert Value() == Filled(old(Value()), i, x);
    }

    /** The direct path's mapping, taken back if the entry array is missing or
        too short for it. */
    method MapPages(x: Data, mappable: bool, pool: bool) returns (ok: bool)
      requires x.mapped
      modifies this`live
      ensures ok <==> mappable && pool && |x.pages| <= 64
      ensures live == old(live) + if ok then multiset{Mapping(x.pages, x.size, x.isWrite)} else multiset{}
    {
      if !mappable {
        return false;
      }
      live := live + MappingOf(x);
      ok := pool && |x.pages| <= MAX_SG_ENTRIES;
      if !ok {
        EndDMA(Mapping(x.pages, x.size, x.isWrite));
      }
    }

    method EndDMA(m: Mapping)
      requires m in live
      modifies this`live
      ensures live == old(live) - multiset{m}
    {
      live := live - multiset{m};
    }

    /** Submit between its two lock sections: map the data and build the chain,
        or, if it will not fit the sg array, give the mapping back. */
    method Fill(i: nat, data: Option<seq<Sg>>, length: uint32, isWrite: bool, mappable: bool, pool: bool,
                req: seq<Sg>, resp: seq<Sg>)
      returns (ok: bool, sg: seq<Sg>, outNum: nat)
      requires Valid() && i < table.Length && !table[i].mapped
      requires data.Some? ==> Inside(|ram|, data.value) && Total(data.value) == length && Clear(data.value, bounce[..])
      modifies this`ram, this`live, table
      ensures Valid() && HasSlot(old(Value()), i)
      ensures var x := Prepared(data, length, isWrite);
              var filled := Filled(old(Value()), i, x);
              && ok == Submittable(x, req, resp, bounce[i], mappable, pool)
              && (ok ==> Value() == filled)
              && (!ok ==> Value() == if MapsOk(x, mappable, pool) then Released(filled, i) else old(Value()))
              && (ok ==> sg == ChainOf(x, req, resp, bounce[i]) && outNum == ReadableOf(x, req, bounce[i]))
      // up to 64 KB go through the bounce buffer, more is mapped where it is
      ensures var list := if data.None? || length == 0 then []
                          else if length <= 65536 then [Sg(bounce[i], length)] else data.value;
              && (ok <==> (data.Some? && length > 65536 ==> mappable && pool && |data.value| <= 64)
                          && |req| + |list| + |resp| <= 64)
              && (ok ==> sg == (if isWrite then req + list + resp else req + resp + list)
                         && outNum == if isWrite then |req| + |list| else |req|)
    {
      ChainSays(data, length, isWrite, mappable, pool, req, resp, if i < bounce.Length then bounce[i] else 0);
      SlotHere(i);
      PreparedOk(|ram|, data, length, isWrite);
      PreparedClear(data, length, isWrite, bounce[..]);
      hide SlotData.Valid, Filled, Released, ChainOf, ReadableOf, MapsOk, DataOk, Clear, Prepared;
      var x := Prepared(data, length, isWrite);
      sg, outNum := [], 0;
      ok := Prepare(i, x, mappable, pool);
      if !ok {
        return;
      }
      FilledRecord(old(Value()), i, x);
      sg, outNum := BuildChain(i, req, resp);
      ok := |sg| <= MAX_SG_ENTRIES;
      if !ok {
        Release(i);
      }
    }

    /** Release the slot's mapping, if it has one: what every failure after
        Prepare does, and completion too. */
    method Release(i: nat)
      requires Valid() && i < table.Length
      modifies this`live, table
      ensures Valid() && HasSlot(old(Value()), i) && Value() == Released(old(Value()), i)
    {
      hide StoreOk, DataOk;
      SlotHere(i);
      ReleasedOk(Value(), i);
      var x := table[i];
      if x.mapped {
        EndDMA(Mapping(x.pages, x.size, x.isWrite));
      }
      ghost var before := table[..];
      table[i] := x.(mapped := false);
      assert table[..] == before[i := x.(mapped := false)];
    }

    /** complete_inflight_slot up to its lock section: io_Actual, the read-back
        of a bounced read, and the end of a mapping. */
    method Finish(i: nat, error: int, residual: uint32, length: uint32) returns (actual: uint32)
      requires Valid() && i < table.Length && (table[i].usingBounce ==> length == table[i].size)
      modifies this`ram, this`live, table
      ensures Valid() && HasSlot(old(Value()), i) && actual == Actual(error, residual, length)
      ensures Value() == Finished(old(Value()), i, error, residual, length)
      ensures error != 0 || residual > length ==> actual == 0
      ensures error == 0 && residual <= length ==> actual + residual == length
      ensures var x := old(table[i]);
              && table[..] == old(table[..])[i := x.(mapped := false)]
              && live == if x.mapped then old(live) - multiset{Mapping(x.pages, x.size, x.isWrite)} else old(live)
    {
      SlotHere(i);
      FinishedOk(Value(), i, error, residual, length);
      FinishedSays(Value(), i, error, residual, length);
      hide StoreOk, Scatter, Gather, Finished, Inside, Total;
      actual := if error != 0 || residual > length then 0 else length - residual;
      ReadBack(i, error, actual);
      hide DataOk, Returned;
      Release(i);
    }

    /** Copy a bounced read to the caller's pages. */
    method ReadBack(i: nat, error: int, actual: uint32)
      requires Valid() && i < table.Length && (table[i].usingBounce ==> actual <= table[i].size)
      modifies this`ram
      ensures Valid() && HasSlot(old(Value()), i)
      ensures Value() == old(Value()).(ram := Returned(old(ram), table[i], bounce[i], error, actual))
    {
      SlotHere(i);
      hide Held, Scatter, Clear, BouncesApart;
      var x := table[i];
      if x.usingBounce && !x.isWrite && error == 0 && actual > 0 {
        ram := Scatter(ram, x.pages, ram[bounce[i]..bounce[i] + actual]);
      }
    }

    /** The device writes where a chain lets it. */
    method DeviceWrites(into: seq<Sg>, bytes: seq<uint8>)
      requires Valid() && Inside(|ram|, into) && |bytes| <= Total(into)
      modifies this`ram
      ensures Valid() && Value() == old(Value()).(ram := Scatter(old(ram), into, bytes))
    {
      hide Scatter, Held, Clear, DataOk;
      ram := Scatter(ram, into, bytes);
    }

    /** Submit's scatter-gather list. */
    method BuildChain(i: nat, req: seq<Sg>, resp: seq<Sg>) returns (sg: seq<Sg>, outNum: nat)
      requires i < table.Length == bounce.Length
      ensures sg == ChainOf(table[i], req, resp, bounce[i]) && outNum == ReadableOf(table[i], req, bounce[i])
      ensures var x := table[i];
              var list := if x.usingBounce then [Sg(bounce[i], x.size)] else if x.mapped then x.pages else [];
              && sg == (if x.isWrite then req + list + resp else req + resp + list)
              && outNum == if x.isWrite then |req| + |list| else |req|
    {
      var x := table[i];
      sg := Append([], req);
      outNum := |req|;
      if x.usingBounce {
        if x.isWrite {
          sg := sg + [Sg(bounce[i], x.size)];
          outNum := outNum + 1;
          sg := Append(sg, resp);
        } else {
          sg := Append(sg, resp);
          sg := sg + [Sg(bounce[i], x.size)];
        }
      } else {
        var list := if x.mapped then x.pages else [];
        if x.isWrite {
          sg := Append(sg, list);
          outNum := outNum + |list|;
          sg := Append(sg, resp);
        } else {
          sg := Append(sg, resp);
          sg := Append(sg, list);
        }
      }
    }
  }

  /** The chain of a request and when it can be submitted, said of the request
      itself. */
  lemma ChainSays(data: Option<seq<Sg>>, length: uint32, isWrite: bool, mappable: bool, pool: bool,
                  req: seq<Sg>, resp: seq<Sg>, at: uint32)
    ensures var x := Prepared(data, length, isWrite);
            var list := if data.None? || length == 0 then []
                        else if length <= 65536 then [Sg(at, length)] else data.value;
            && (Submittable(x, req, resp, at, mappable, pool) <==>
                  (data.Some? && length > 65536 ==> mappable && pool && |data.value| <= 64)
                  && |req| + |list| + |resp| <= 64)
            && ChainOf(x, req, resp, at) == (if isWrite then req + list + resp else req + resp + list)
            && ReadableOf(x, req, at) == (if isWrite then |req| + |list| else |req|)
  {}

  /** What preparing a request's data leaves, said of the request itself: up to
      64 KB go through the bounce buffer, more is mapped where it is. */
  lemma FilledSays(m: Store, i: nat, data: Option<seq<Sg>>, length: uint32, isWrite: bool)
    requires HasSlot(m, i) && (data.Some? ==> Inside(|m.ram|, data.value) && Total(data.value) == length)
    ensures var r, at := Filled(m, i, Prepared(data, length, isWrite)), m.bounce[i];
            && Released(r, i).live == m.live && r.bounce == m.bounce
            && (data.Some? && 0 < length <= 65536 ==>
                  && r.table == m.table[i := Data(isWrite, true, data.value, length, false)] && r.live == m.live
                  && r.ram == if isWrite then Overwrite(m.ram, at, Gather(m.ram, data.value)) else m.ram)
            && (data.Some? && length > 65536 ==>
                  && r.table == m.table[i := Data(isWrite, false, data.value, length, true)] && r.ram == m.ram
                  && r.live == m.live + multiset{Mapping(data.value, length, isWrite)})
            && (data.None? || length == 0 ==>
                  r.table == m.table[i := Data(isWrite, false, [], 0, false)] && r.live == m.live && r.ram == m.ram)
  {
    hide Gather, Overwrite;
    PreparedOk(|m.ram|, data, length, isWrite);
  }

  lemma FilledRecord(m: Store, i: nat, x: Data)
    requires HasSlot(m, i)
    ensures Filled(m, i, x).table[i] == x
  {}

  /** What Submit notes of a request's data: bounced up to the threshold, mapped
      beyond it. */
  function Prepared(data: Option<seq<Sg>>, length: uint32, isWrite: bool): Data
  {
    if data.None? || length == 0 then Data(isWrite, false, [], 0, false)
    else Data(isWrite, length <= BOUNCE_BUF_SIZE, data.value, length, length > BOUNCE_BUF_SIZE)
  }

  lemma PreparedOk(size: nat, data: Option<seq<Sg>>, length: uint32, isWrite: bool)
    requires data.Some? ==> Inside(size, data.value) && Total(data.value) == length
    ensures DataOk(size, Prepared(data, length, isWrite))
  {}

  lemma PreparedClear(data: Option<seq<Sg>>, length: uint32, isWrite: bool, bounce: seq<uint32>)
    requires data.Some? ==> Clear(data.value, bounce)
    ensures Clear(Prepared(data, length, isWrite).pages, bounce)
  {}

  /** One of Submit's copying loops. */
  method Append(sg: seq<Sg>, list: seq<Sg>) returns (r: seq<Sg>)
    ensures r == sg + list
  {
    r := sg;
    var i := 0;
    while i < |list|
      invariant 0 <= i <= |list| && r == sg + list[..i]
    {
      r := r + [list[i]];
      i := i + 1;
    }
  }

  function Actual(error: int, residual: uint32, length: uint32): uint32
  {
    if error != 0 || residual > length then 0 else length - residual
  }

  /** Whether the direct path's mapping can be made and fits the entry array. */
  predicate MapsOk(x: Data, mappable: bool, pool: bool)
  {
    x.mapped ==> mappable && pool && |x.pages| <= MAX_SG_ENTRIES
  }

  /** Whether the data can be mapped and the chain fits the sg array. */
  predicate Submittable(x: Data, req: seq<Sg>, resp: seq<Sg>, bounce: uint32, mappable: bool, pool: bool)
  {
    MapsOk(x, mappable, pool) && |ChainOf(x, req, resp, bounce)| <= MAX_SG_ENTRIES
  }

  /** The chain of a request with record `x`, and how much of it is readable. */
  function ChainOf(x: Data, req: seq<Sg>, resp: seq<Sg>, bounce: uint32): seq<Sg>
  {
    Chain(req, DataSegments(x, bounce), resp, x.isWrite)
  }

  function ReadableOf(x: Data, req: seq<Sg>, bounce: uint32): nat
  {
    |req| + if x.isWrite then |DataSegments(x, bounce)| else 0
  }

  function Chain(req: seq<Sg>, data: seq<Sg>, resp: seq<Sg>, isWrite: bool): seq<Sg>
  {
    req + if isWrite then data + resp else resp + data
  }

  // ---------------------------------------------------------------------
  // The bounce path refines the direct one
  // ---------------------------------------------------------------------

  /** The caller's pages and the bounce buffer share no address. */
  ghost predicate Separate(pages: seq<Sg>, bounce: uint32)
  {
    Apart(pages) && forall a: nat | Covers(Sg(bounce, BOUNCE_BUF_SIZE), a) :: !Covered(pages, a)
  }

  /** A write through either path: the device reads the same bytes as from the
      caller's own pages, and nothing but the bounce buffer has changed. */
  lemma WriteIsFaithful(ram: Ram, pages: seq<Sg>, bounce: uint32, length: uint32)
    requires Inside(|ram|, pages) && bounce + BOUNCE_BUF_SIZE <= |ram| && Total(pages) == length
    ensures var x := Prepared(Some(pages), length, true);
            var r, seen := Sent(ram, x, bounce), DataSegments(x, bounce);
            && |r| == |ram|
            && Inside(|r|, seen) && Gather(r, seen) == Gather(ram, pages)
            && forall a: nat | a < |ram| && !Covers(Sg(bounce, BOUNCE_BUF_SIZE), a) :: r[a] == ram[a]
  {
    var bytes := Gather(ram, pages);
    if 0 < length <= BOUNCE_BUF_SIZE {
      WrittenSlice(ram, bounce, bytes, |bytes|);
      GatherStep(Overwrite(ram, bounce, bytes), [Sg(bounce, length)]);
    }
  }

  /** A bounced read without error: once io_Actual bytes have been copied back,
      memory is what a transfer straight into the caller's pages would have left,
      the bounce buffer apart; so the caller finds the device's bytes first and
      the rest of its buffer as it was. */
  lemma BouncedRead(ram: Ram, pages: seq<Sg>, bounce: uint32, bytes: seq<uint8>, x: Data, residual: uint32)
    requires Inside(|ram|, pages) && bounce + BOUNCE_BUF_SIZE <= |ram| && Separate(pages, bounce)
    requires Total(pages) <= BOUNCE_BUF_SIZE && x == Prepared(Some(pages), Total(pages), false) && x.usingBounce
    requires |bytes| + residual == Total(pages)
    ensures var direct := Scatter(ram, pages, bytes);
            var end := Returned(Overwrite(ram, bounce, bytes), x, bounce, 0, Actual(0, residual, x.size));
            && (forall a: nat | a < |ram| && !Covers(Sg(bounce, BOUNCE_BUF_SIZE), a) :: end[a] == direct[a])
            && Gather(end, pages) == Gather(direct, pages) == bytes + Gather(ram, pages)[|bytes|..]
  {
    var mid := Overwrite(ram, bounce, bytes);
    var direct, end := Scatter(ram, pages, bytes), Scatter(mid, pages, bytes);
    WrittenSlice(ram, bounce, bytes, |bytes|);
    assert mid[bounce..bounce + |bytes|] == bytes;
    ReturnedIs(mid, x, bounce, |bytes|);
    hide Scatter, Gather, Covered, Returned, Total, Apart, Inside;
    forall a: nat | a < |ram| && !Covers(Sg(bounce, BOUNCE_BUF_SIZE), a)
      ensures end[a] == direct[a]
    {
      ScatterAgree(mid, ram, pages, bytes, a);
    }
    GatherSame(end, direct, pages);
    GatherScatter(ram, pages, bytes);
  }

  lemma {:induction false} ScatterNothing(ram: Ram, pages: seq<Sg>)
    requires Inside(|ram|, pages)
    ensures Scatter(ram, pages, []) == ram
    decreases |pages|
  {
    if pages != [] {
      assert Overwrite(ram, pages[0].addr, []) == ram;
      ScatterNothing(ram, pages[1..]);
    }
  }

  /** A read that reports an error leaves the caller's memory alone. */
  lemma FailedRead(ram: Ram, pages: seq<Sg>, bounce: uint32, bytes: seq<uint8>, x: Data, error: int, residual: uint32)
    requires Inside(|ram|, pages) && bounce + BOUNCE_BUF_SIZE <= |ram| && Separate(pages, bounce)
    requires Total(pages) <= BOUNCE_BUF_SIZE && x == Prepared(Some(pages), Total(pages), false) && x.usingBounce
    requires error != 0
    requires |bytes| <= BOUNCE_BUF_SIZE
    ensures var end := Returned(Overwrite(ram, bounce, bytes), x, bounce, error, Actual(error, residual, x.size));
            Gather(end, pages) == Gather(ram, pages)
  {
    hide Covered;
    GatherSame(Overwrite(ram, bounce, bytes), ram, pages);
  }

  /** After a bounced read of `n` bytes the caller has the first `n` of the
      bounce buffer: what the device wrote, then what was there before. */
  lemma BouncedBytes(ram: Ram, pages: seq<Sg>, bounce: uint32, bytes: seq<uint8>, n: nat)
    requires Inside(|ram|, pages) && bounce + BOUNCE_BUF_SIZE <= |ram| && Separate(pages, bounce)
    requires |bytes| <= Total(pages) <= BOUNCE_BUF_SIZE && n <= Total(pages)
    ensures var mid, stale := Overwrite(ram, bounce, bytes), ram[bounce..bounce + Total(pages)];
            Gather(Scatter(mid, pages, mid[bounce..bounce + n]), pages)
            == (bytes + stale[|bytes|..])[..n] + Gather(ram, pages)[n..]
  {
    var mid, stale := Overwrite(ram, bounce, bytes), ram[bounce..bounce + Total(pages)];
    WrittenSlice(ram, bounce, bytes, Total(pages));
    hide Scatter, Gather, Covered, Total;
    assert mid[bounce..bounce + n] == mid[bounce..bounce + Total(pages)][..n];
    GatherScatter(mid, pages, mid[bounce..bounce + n]);
    GatherSame(mid, ram, pages);
  }

  /** The bounce path trusts the residual.  Of the bytes it reports, those beyond
      what the device wrote are whatever an earlier request left in the bounce
      buffer: the caller gets what the direct path would have given exactly when
      these agree with what its own buffer held. */
  lemma BouncedReadTrustsResidual(ram: Ram, pages: seq<Sg>, bounce: uint32, bytes: seq<uint8>, x: Data,
                                  residual: uint32)
    requires Inside(|ram|, pages) && bounce + BOUNCE_BUF_SIZE <= |ram| && Separate(pages, bounce)
    requires Total(pages) <= BOUNCE_BUF_SIZE && x == Prepared(Some(pages), Total(pages), false) && x.usingBounce
    requires |bytes| <= Total(pages)
    ensures var n := Actual(0, residual, x.size);
            var stale, before := ram[bounce..bounce + Total(pages)], Gather(ram, pages);
            var end := Gather(Returned(Overwrite(ram, bounce, bytes), x, bounce, 0, n), pages);
            var direct := Gather(Scatter(ram, pages, bytes), pages);
            && n <= Total(pages)
            && (end[..n] == direct[..n] <==> n <= |bytes| || stale[|bytes|..n] == before[|bytes|..n])
  {
    var n := Actual(0, residual, x.size);
    ReturnedIs(Overwrite(ram, bounce, bytes), x, bounce, n);
    hide *;
    BouncedPrefix(ram, pages, bounce, bytes, n);
  }

  lemma BouncedPrefix(ram: Ram, pages: seq<Sg>, bounce: uint32, bytes: seq<uint8>, n: nat)
    requires Inside(|ram|, pages) && bounce + BOUNCE_BUF_SIZE <= |ram| && Separate(pages, bounce)
    requires |bytes| <= Total(pages) <= BOUNCE_BUF_SIZE && n <= Total(pages)
    ensures var mid, stale := Overwrite(ram, bounce, bytes), ram[bounce..bounce + Total(pages)];
            var before := Gather(ram, pages);
            var end := Gather(Scatter(mid, pages, mid[bounce..bounce + n]), pages);
            var direct := Gather(Scatter(ram, pages, bytes), pages);
            end[..n] == direct[..n] <==> n <= |bytes| || stale[|bytes|..n] == before[|bytes|..n]
  {
    hide Scatter, Gather, Overwrite, Total, Covered, Apart, Inside;
    GatherScatter(ram, pages, bytes);
    hide Separate;
    BouncedBytes(ram, pages, bounce, bytes, n);
    hide *;
    var stale := ram[bounce..bounce + Total(pages)];
    Prefixes(bytes, (bytes + stale[|bytes|..])[..n], Gather(ram, pages), stale);
  }

  lemma ReturnedIs(ram: Ram, x: Data, bounce: uint32, n: uint32)
    requires DataOk(|ram|, x) && bounce + BOUNCE_BUF_SIZE <= |ram| && x.usingBounce && !x.isWrite && n <= x.size
    ensures Returned(ram, x, bounce, 0, n) == Scatter(ram, x.pages, ram[bounce..bounce + n])
  {
    ScatterNothing(ram, x.pages);
    hide Scatter, Inside, Total;
  }

  lemma Prefixes(bytes: seq<uint8>, copied: seq<uint8>, before: seq<uint8>, stale: seq<uint8>)
    requires |bytes| <= |before| == |stale| && |copied| <= |before|
    requires copied == (bytes + stale[|bytes|..])[..|copied|]
    ensures var n := |copied|;
            (copied + before[n..])[..n] == (bytes + before[|bytes|..])[..n]
            <==> n <= |bytes| || stale[|bytes|..n] == before[|bytes|..n]
  {
    var n := |copied|;
    assert (copied + before[n..])[..n] == copied;
    if n > |bytes| {
      assert copied == bytes + stale[|bytes|..n];
      assert (bytes + before[|bytes|..])[..n] == bytes + before[|bytes|..n];
      assert copied[|bytes|..] == stale[|bytes|..n];
      assert (bytes + before[|bytes|..n])[|bytes|..] == before[|bytes|..n];
    } else {
      assert copied == bytes[..n];
      assert (bytes + before[|bytes|..])[..n] == bytes[..n];
    }
  }

  // ---------------------------------------------------------------------
  // The order of a request's segments
  // ---------------------------------------------------------------------

  function Marked(sg: seq<Sg>, writable: bool): seq<Segment>
  {
    seq(|sg|, n requires 0 <= n < |sg| => Segment(sg[n].addr, sg[n].len, writable))
  }

  /** On either path and in either direction the device sees the request header,
      then the data going out, then the response, then the data coming in; the
      first two to be read, the others to be written. */
  lemma ChainOrder(req: seq<Sg>, data: seq<Sg>, resp: seq<Sg>, isWrite: bool)
    ensures var dataOut, dataIn := if isWrite then data else [], if isWrite then [] else data;
            Segments(Chain(req, data, resp, isWrite), |req| + |dataOut|)
            == Marked(req, false) + Marked(dataOut, false) + Marked(resp, true) + Marked(dataIn, true)
  {}
}
