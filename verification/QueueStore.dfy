/** How the memory of a virtqueue represents a queue: the free list threaded
    through the descriptor table, the chains of outstanding requests, and the
    ledger of the indirect tables they own. */
module QueueStore {
  import opened Types
  import opened VRing
  import opened Counters
  import QM = QueueModel
  import QR = QueueRuns

  // ---------------------------------------------------------------------
  // Indirect tables: host memory, DMA mappings, and what the bus resolves
  // ---------------------------------------------------------------------

  datatype Mapping = Mapping(phys: uint32, size: nat)

  /** `heap` holds the allocated tables by host address, `mapped` their live
      DMA mappings, and `bus` what each mapped physical address denotes. */
  datatype Memory = Memory(heap: map<nat, seq<Desc>>, mapped: map<nat, Mapping>, bus: map<nat, nat>)
  {
    function Allocate(virt: nat, table: seq<Desc>): Memory
      requires virt !in heap
    {
      this.(heap := heap[virt := table])
    }

    /** StartDMA: the address handed out denotes nothing else yet. */
    function StartDMA(virt: nat, phys: uint32, size: nat): Memory
      requires virt in heap && virt !in mapped && phys !in bus
    {
      this.(mapped := mapped[virt := Mapping(phys, size)], bus := bus[phys := virt])
    }

    /** EndDMA must name a live mapping and the size it was made with. */
    function EndDMA(virt: nat, size: nat): Memory
      requires virt in mapped && mapped[virt].size == size
    {
      this.(mapped := mapped - {virt}, bus := bus - {mapped[virt].phys})
    }

    /** FreeVec must name allocated memory that is no longer mapped. */
    function FreeVec(virt: nat): Memory
      requires virt in heap && virt !in mapped
    {
      this.(heap := heap - {virt})
    }

    /** The memory as the device can reach it. */
    function Reachable(): map<nat, seq<Desc>>
    {
      map p | p in bus && bus[p] in heap :: heap[bus[p]]
    }
  }

  // ---------------------------------------------------------------------
  // The free list
  // ---------------------------------------------------------------------

  ghost predicate Linked(desc: seq<Desc>, free: seq<nat>, k: nat)
    requires k < |free| - 1
  {
    free[k] < |desc| && desc[free[k]].next == free[k + 1]
  }

  /** The list has no terminator: the link of its last node means nothing, and
      when it is empty neither does `freeHead`. */
  ghost predicate FreeList(desc: seq<Desc>, free: seq<nat>, freeHead: uint16, numFree: uint16)
  {
    && numFree == |free|
    && (free != [] ==> freeHead == free[0])
    && forall k | 0 <= k < |free| - 1 :: Linked(desc, free, k)
  }

  // ---------------------------------------------------------------------
  // Outstanding requests
  // ---------------------------------------------------------------------

  function TableSize(sg: seq<Sg>): nat { 16 * |sg| }

  ghost function Indices(n: nat): (s: seq<nat>)
    ensures |s| == n && forall i | 0 <= i < n :: s[i] == i
  {
    seq(n, i => i)
  }

  ghost predicate TableStored(modern: bool, m: Memory, d: Desc, virt: nat, sg: seq<Sg>, outNum: nat)
  {
    && virt in m.heap && virt in m.mapped
    && m.mapped[virt].size == TableSize(sg) < 0x1_0000_0000
    && |m.heap[virt]| == |sg|
    && Spells(modern, m.heap[virt], Indices(|sg|), sg, outNum)
    && d == TableHead(modern, m.mapped[virt].phys, TableSize(sg))
  }

  ghost predicate RequestStored(modern: bool, desc: seq<Desc>, m: Memory, head: nat, r: QM.Request)
  {
    && r.chain != []
    && head < |desc|
    && (r.table.None? ==> Spells(modern, desc, r.chain, r.sg, r.outNum))
    && (r.table.Some? ==> TableStored(modern, m, desc[head], r.table.value, r.sg, r.outNum))
  }

  ghost predicate AllStored(modern: bool, desc: seq<Desc>, m: Memory, out: map<nat, QM.Request>)
  {
    forall h | h in out :: RequestStored(modern, desc, m, h, out[h])
  }

  ghost predicate Recorded(cookies: seq<Option<Cookie>>, tables: seq<Option<nat>>, out: map<nat, QM.Request>)
  {
    forall h | h in out ::
      h < |cookies| && h < |tables| && cookies[h] == Some(out[h].cookie) && tables[h] == out[h].table
  }

  ghost predicate Owns(out: map<nat, QM.Request>, head: nat, virt: nat)
  {
    head in out && out[head].table == Some(virt)
  }

  /** Every allocated table is mapped once and owned by exactly one request. */
  ghost predicate Balanced(m: Memory, out: map<nat, QM.Request>)
  {
    && m.heap.Keys == m.mapped.Keys
    && (forall v | v in m.mapped :: m.mapped[v].phys in m.bus && m.bus[m.mapped[v].phys] == v)
    && (forall p | p in m.bus :: m.bus[p] in m.mapped && m.mapped[m.bus[p]].phys == p)
    && (forall v | v in m.heap :: exists h :: Owns(out, h, v))
    && (forall h, g, v | Owns(out, h, v) && Owns(out, g, v) :: h == g)
    && (forall h, v | Owns(out, h, v) :: v in m.heap)
  }

  /** The driver's memory of the queue, the ring indices apart. */
  datatype Store = Store(desc: seq<Desc>, cookies: seq<Option<Cookie>>, tables: seq<Option<nat>>, memory: Memory,
                         freeHead: uint16, numFree: uint16)

  ghost predicate Represents(modern: bool, s: Store, q: QM.Queue)
  {
    && QM.Inv(q)
    && |s.desc| == |s.cookies| == |s.tables| == q.num <= 0x8000
    && FreeList(s.desc, q.free, s.freeHead, s.numFree)
    && AllStored(modern, s.desc, s.memory, q.out)
    && Recorded(s.cookies, s.tables, q.out)
    && Balanced(s.memory, q.out)
  }

  lemma FreeNodes(modern: bool, s: Store, q: QM.Queue)
    requires Represents(modern, s, q)
    ensures QM.Distinct(q.free) && forall k | 0 <= k < |q.free| :: q.free[k] < q.num
    ensures FreeList(s.desc, q.free, s.freeHead, s.numFree)
    ensures s.memory.heap.Keys == s.memory.mapped.Keys
  {
    assert forall k | 0 <= k < |q.free| :: q.free[k] in q.free;
  }

  /** A request is unaffected by writes elsewhere. */
  lemma StoredFrame(modern: bool, d0: seq<Desc>, d1: seq<Desc>, m0: Memory, m1: Memory, head: nat, r: QM.Request)
    requires RequestStored(modern, d0, m0, head, r)
    requires |d0| == |d1| && d1[head] == d0[head]
    requires forall i | i in r.chain && i < |d0| :: d1[i] == d0[i]
    requires r.table.Some? ==>
      var v := r.table.value;
      v in m1.heap && v in m1.mapped && m1.heap[v] == m0.heap[v] && m1.mapped[v] == m0.mapped[v]
    ensures RequestStored(modern, d1, m1, head, r)
  {
    if r.table.None? {
      forall n | 0 <= n < |r.sg|
        ensures SpellsAt(modern, d1, r.chain, r.sg, r.outNum, n)
      {
        assert SpellsAt(modern, d0, r.chain, r.sg, r.outNum, n);
        assert r.chain[n] in r.chain;
      }
    }
  }

  /** Representation independence: whichever form a request takes, and in
      either byte order, a device reading the posted head finds the caller's
      list, readable entries first. */
  lemma DeviceReadsRequest(modern: bool, desc: seq<Desc>, m: Memory, out: map<nat, QM.Request>, num: nat,
                           free: seq<nat>, head: nat)
    requires AllStored(modern, desc, m, out) && Balanced(m, out)
    requires head in out && QM.WellFormed(num, free, head, out[head]) && num <= |desc|
    ensures ReadRequest(modern, desc, m.Reachable(), head) == Some(Segments(out[head].sg, out[head].outNum))
  {
    var r := out[head];
    assert RequestStored(modern, desc, m, head, r);
    match r.table
    case None =>
      assert SpellsAt(modern, desc, r.chain, r.sg, r.outNum, 0);
      var v := ViewOfNode(modern, desc, r.chain, r.sg, r.outNum, 0);
      FlagsMean(0, |r.sg|, r.outNum);
      ChainFits(r.chain, num);
      WalkReadsSegments(modern, desc, r.chain, r.sg, r.outNum, 0, |desc|);
      assert Segments(r.sg, r.outNum)[0..] == Segments(r.sg, r.outNum);
    case Some(virt) =>
      assert Owns(out, head, virt);
      var phys, table := m.mapped[virt].phys, m.heap[virt];
      assert m.Reachable()[phys] == table;
      ViewOfTableHead(modern, desc[head], phys, TableSize(r.sg));
      WalkReadsSegments(modern, table, Indices(|r.sg|), r.sg, r.outNum, 0, |table|);
      assert Segments(r.sg, r.outNum)[0..] == Segments(r.sg, r.outNum);
  }

  lemma ViewOfTableHead(modern: bool, d: Desc, phys: uint32, size: uint32)
    requires d == Desc(Vr64(modern, phys), Vr32(modern, size), Vr16(modern, F_INDIRECT), 0)
    ensures var v := View(modern, d); v.addr == phys && v.len == size && HasFlag(v.flags, F_INDIRECT)
  {
    Vr64RoundTrip(modern, phys);
    Vr32RoundTrip(modern, size);
    Vr16RoundTrip(modern, F_INDIRECT);
  }

  /** A chain of distinct nodes is no longer than the table. */
  lemma ChainFits(chain: seq<nat>, num: nat)
    requires QM.Distinct(chain) && forall i | i in chain :: i < num
    ensures |chain| <= num
  {
    QR.DistinctSize(chain);
    QR.BelowIs(num);
    QR.Subset(QR.Members(chain), QR.Below(num));
  }

  // ---------------------------------------------------------------------
  // AddBuf
  // ---------------------------------------------------------------------

  /** `after` differs from `before` at the nodes of `chain` only. */
  ghost predicate OnlyAt(before: seq<Desc>, after: seq<Desc>, chain: seq<nat>)
  {
    |before| == |after| && forall i | 0 <= i < |before| && i !in chain :: after[i] == before[i]
  }

  /** Requests already outstanding do not notice writes to free nodes. */
  lemma AddKeepsStored(modern: bool, d0: seq<Desc>, d1: seq<Desc>, m0: Memory, m1: Memory, q: QM.Queue, used: seq<nat>)
    requires QM.Shaped(q) && q.num == |d0| && AllStored(modern, d0, m0, q.out) && Balanced(m0, q.out)
    requires OnlyAt(d0, d1, used) && forall i | i in used :: i in q.free
    requires forall v | v in m0.heap ::
               && v in m1.heap && v in m0.mapped && v in m1.mapped
               && m1.heap[v] == m0.heap[v] && m1.mapped[v] == m0.mapped[v]
    ensures AllStored(modern, d1, m1, q.out)
  {
    forall h | h in q.out
      ensures RequestStored(modern, d1, m1, h, q.out[h])
    {
      var r := q.out[h];
      assert QM.WellFormed(q.num, q.free, h, r);
      assert r.chain[0] in r.chain;
      if r.table.Some? {
        assert Owns(q.out, h, r.table.value);
      }
      StoredFrame(modern, d0, d1, m0, m1, h, r);
    }
  }

  /** Dropping the first `n` nodes leaves a free list headed by the link of
      the last node dropped. */
  lemma FreeListTail(d0: seq<Desc>, d1: seq<Desc>, free: seq<nat>, freeHead: uint16, numFree: uint16, n: nat)
    requires FreeList(d0, free, freeHead, numFree) && QM.Distinct(free)
    requires 0 < n <= |free| && free[n - 1] < |d0|
    requires OnlyAt(d0, d1, free[..n])
    ensures FreeList(d1, free[n..], d0[free[n - 1]].next, numFree - n)
  {
    if n < |free| {
      assert Linked(d0, free, n - 1);
    }
    forall k | 0 <= k < |free[n..]| - 1
      ensures Linked(d1, free[n..], k)
    {
      assert Linked(d0, free, n + k);
      assert free[n + k] !in free[..n];
    }
  }

  lemma AddRecorded(cookies: seq<Option<Cookie>>, tables: seq<Option<nat>>, out: map<nat, QM.Request>,
                    head: nat, r: QM.Request)
    requires Recorded(cookies, tables, out) && head < |cookies| && head < |tables|
    ensures Recorded(cookies[head := Some(r.cookie)], tables[head := r.table], out[head := r])
  {}

  lemma AddBalancedDirect(m: Memory, out: map<nat, QM.Request>, head: nat, r: QM.Request)
    requires Balanced(m, out) && head !in out && r.table.None?
    ensures Balanced(m, out[head := r])
  {
    var out' := out[head := r];
    forall h, v
      ensures Owns(out', h, v) <==> Owns(out, h, v)
    {}
    forall v | v in m.heap
      ensures exists h :: Owns(out', h, v)
    {
      var h :| Owns(out, h, v);
      assert Owns(out', h, v);
    }
  }

  lemma AddBalancedIndirect(m: Memory, out: map<nat, QM.Request>, head: nat, r: QM.Request, table: seq<Desc>,
                            phys: uint32, size: nat)
    requires Balanced(m, out) && head !in out
    requires r.table.Some? && r.table.value !in m.heap && phys !in m.bus
    ensures Balanced(m.Allocate(r.table.value, table).StartDMA(r.table.value, phys, size), out[head := r])
  {
    var virt := r.table.value;
    var m' := m.Allocate(virt, table).StartDMA(virt, phys, size);
    var out' := out[head := r];
    forall h, v
      ensures Owns(out', h, v) <==> Owns(out, h, v) || (h == head && v == virt)
      ensures Owns(out, h, v) ==> v != virt
    {}
    forall v | v in m'.heap
      ensures exists h :: Owns(out', h, v)
    {
      if v == virt {
        assert Owns(out', head, v);
      } else {
        var h :| Owns(out, h, v);
        assert Owns(out', h, v);
      }
    }
  }

  /** The direct path: the entries are spelt out in the first free nodes. */
  lemma AddDirect(modern: bool, s0: Store, s1: Store, q: QM.Queue, sg: seq<Sg>, outNum: nat, cookie: Cookie)
    requires Represents(modern, s0, q) && QM.CanAdd(q, sg, None)
    requires OnlyAt(s0.desc, s1.desc, q.free[..|sg|]) && Spells(modern, s1.desc, q.free[..|sg|], sg, outNum)
    requires q.free[|sg| - 1] < |s0.desc| && q.free[0] < |s0.desc|
    requires s1 == Store(s1.desc, s0.cookies[q.free[0] := Some(cookie)], s0.tables[q.free[0] := None], s0.memory,
                         s0.desc[q.free[|sg| - 1]].next, s0.numFree - |sg|)
    ensures Represents(modern, s1, QM.Add(q, sg, outNum, cookie, None))
  {
    var head, r := q.free[0], QM.Request(cookie, sg, outNum, q.free[..|sg|], None);
    QM.AddInv(q, sg, outNum, cookie, None);
    AddKeepsStored(modern, s0.desc, s1.desc, s0.memory, s1.memory, q, r.chain);
    FreeListTail(s0.desc, s1.desc, q.free, s0.freeHead, s0.numFree, |sg|);
    AddRecorded(s0.cookies, s0.tables, q.out, head, r);
    AddBalancedDirect(s0.memory, q.out, head, r);
  }

  /** A head descriptor naming a table. */
  function TableHead(modern: bool, phys: uint32, size: uint32): Desc
  {
    Desc(Vr64(modern, phys), Vr32(modern, size), Vr16(modern, F_INDIRECT), 0)
  }

  lemma AddIndirectStored(modern: bool, d0: seq<Desc>, m: Memory, q: QM.Queue, r: QM.Request, virt: nat, phys: uint32,
                          table: seq<Desc>)
    requires QM.Shaped(q) && q.num == |d0| && AllStored(modern, d0, m, q.out) && Balanced(m, q.out)
    requires q.free != [] && r.chain == [q.free[0]] && r.table == Some(virt) && |r.sg| <= WRAP
    requires m.heap.Keys == m.mapped.Keys
    requires virt !in m.heap && phys !in m.bus && q.free[0] < |d0|
    requires |table| == |r.sg| && Spells(modern, table, Indices(|r.sg|), r.sg, r.outNum)
    ensures AllStored(modern, d0[q.free[0] := TableHead(modern, phys, TableSize(r.sg))],
                      m.Allocate(virt, table).StartDMA(virt, phys, TableSize(r.sg)), q.out[q.free[0] := r])
  {
    hide TableHead, Balanced, Spells;
    var head := q.free[0];
    var d1 := d0[head := TableHead(modern, phys, TableSize(r.sg))];
    var m1 := m.Allocate(virt, table).StartDMA(virt, phys, TableSize(r.sg));
    AddKeepsStored(modern, d0, d1, m, m1, q, r.chain);
    assert RequestStored(modern, d1, m1, head, r);
  }

  /** The indirect path: one descriptor naming a table. */
  lemma AddIndirect(modern: bool, s0: Store, q: QM.Queue, sg: seq<Sg>, outNum: nat, cookie: Cookie,
                    virt: nat, phys: uint32, table: seq<Desc>)
    requires Represents(modern, s0, q) && QM.CanAdd(q, sg, Some(virt)) && |sg| <= WRAP
    requires virt !in s0.memory.heap && phys !in s0.memory.bus
    requires |table| == |sg| && Spells(modern, table, Indices(|sg|), sg, outNum)
    requires q.free[0] < |s0.desc|
    ensures Represents(modern, IndirectStore(modern, s0, q.free[0], sg, cookie, virt, phys, table),
                       QM.Add(q, sg, outNum, cookie, Some(virt)))
  {
    var s1 := IndirectStore(modern, s0, q.free[0], sg, cookie, virt, phys, table);
    var head, r := q.free[0], QM.Request(cookie, sg, outNum, q.free[..1], Some(virt));
    QM.AddInv(q, sg, outNum, cookie, Some(virt));
    FreeNodes(modern, s0, q);
    AddIndirectStored(modern, s0.desc, s0.memory, q, r, virt, phys, table);
    FreeListTail(s0.desc, s1.desc, q.free, s0.freeHead, s0.numFree, 1);
    AddRecorded(s0.cookies, s0.tables, q.out, head, r);
    AddBalancedIndirect(s0.memory, q.out, head, r, table, phys, TableSize(sg));
  }

  function IndirectStore(modern: bool, s: Store, head: nat, sg: seq<Sg>, cookie: Cookie, virt: nat, phys: uint32,
                         table: seq<Desc>): Store
    requires head < |s.desc| == |s.cookies| == |s.tables| && 1 <= s.numFree && |sg| <= WRAP
    requires virt !in s.memory.heap && virt !in s.memory.mapped && phys !in s.memory.bus
  {
    Store(s.desc[head := TableHead(modern, phys, TableSize(sg))],
          s.cookies[head := Some(cookie)], s.tables[head := Some(virt)],
          s.memory.Allocate(virt, table).StartDMA(virt, phys, TableSize(sg)),
          s.desc[head].next, s.numFree - 1)
  }

  // ---------------------------------------------------------------------
  // GetBuf
  // ---------------------------------------------------------------------

  /** Clearing the nodes of the oldest completed request, and giving up its
      table if it had one, leaves the others as they were. */
  lemma GetKeepsStored(modern: bool, d0: seq<Desc>, d1: seq<Desc>, m0: Memory, m1: Memory, q: QM.Queue, head: nat)
    requires QM.Shaped(q) && QM.Disjoint(q.out) && head in q.out && q.num == |d0|
    requires AllStored(modern, d0, m0, q.out)
    requires OnlyAt(d0, d1, q.out[head].chain)
    requires Balanced(m0, q.out)
    requires forall v | v in m0.heap && !Owns(q.out, head, v) ::
               && v in m1.heap && v in m0.mapped && v in m1.mapped
               && m1.heap[v] == m0.heap[v] && m1.mapped[v] == m0.mapped[v]
    ensures AllStored(modern, d1, m1, q.out - {head})
  {
    forall h | h in q.out - {head}
      ensures RequestStored(modern, d1, m1, h, q.out[h])
    {
      var r := q.out[h];
      assert QM.WellFormed(q.num, q.free, h, r);
      assert r.chain[0] in r.chain;
      forall i | i in r.chain
        ensures i !in q.out[head].chain
      {
        assert QM.InChain(q.out, h, i);
        assert !QM.InChain(q.out, head, i);
      }
      if r.table.Some? {
        assert Owns(q.out, h, r.table.value);
      }
      StoredFrame(modern, d0, d1, m0, m1, h, r);
    }
  }

  /** After `p` nodes of the chain have been pushed. */
  ghost predicate Pushed(d0: seq<Desc>, d1: seq<Desc>, chain: seq<nat>, oldHead: uint16, p: nat)
  {
    && p <= |chain|
    && OnlyAt(d0, d1, chain[..p])
    && forall j | 0 <= j < p :: PushedAt(d1, chain, oldHead, j)
  }

  ghost predicate PushedAt(d: seq<Desc>, chain: seq<nat>, oldHead: uint16, j: nat)
    requires j < |chain|
  {
    && chain[j] < |d|
    && (if j == 0 then oldHead else chain[j - 1]) < 0x1_0000
    && d[chain[j]] == CLEARED.(next := if j == 0 then oldHead else chain[j - 1])
  }

  lemma FreeListGrown(d0: seq<Desc>, d1: seq<Desc>, free: seq<nat>, oldHead: uint16, numFree: uint16, chain: seq<nat>)
    requires FreeList(d0, free, oldHead, numFree)
    requires chain != [] && chain[|chain| - 1] < 0x1_0000 && numFree + |chain| < 0x1_0000
    requires Pushed(d0, d1, chain, oldHead, |chain|)
    requires forall i | i in chain :: i !in free
    ensures FreeList(d1, QM.Reversed(chain) + free, chain[|chain| - 1], numFree + |chain|)
  {
    var grown := QM.Reversed(chain) + free;
    var n := |chain|;
    forall k | 0 <= k < |grown| - 1
      ensures Linked(d1, grown, k)
    {
      if k < n {
        assert PushedAt(d1, chain, oldHead, n - 1 - k);
        assert grown[k] == chain[n - 1 - k];
      } else {
        assert Linked(d0, free, k - n);
        assert grown[k] == free[k - n] && grown[k + 1] == free[k + 1 - n];
        assert free[k - n] in free;
        assert chain[..n] == chain;
      }
    }
  }

  lemma GetRecorded(cookies: seq<Option<Cookie>>, tables: seq<Option<nat>>, out: map<nat, QM.Request>, head: nat)
    requires Recorded(cookies, tables, out) && head < |cookies| && head < |tables|
    ensures Recorded(cookies[head := None], tables[head := None], out - {head})
  {}

  lemma GetBalancedDirect(m: Memory, out: map<nat, QM.Request>, head: nat)
    requires Balanced(m, out) && head in out && out[head].table.None?
    ensures Balanced(m, out - {head})
  {
    var out' := out - {head};
    forall h, v
      ensures Owns(out', h, v) <==> Owns(out, h, v)
    {}
    forall v | v in m.heap
      ensures exists h :: Owns(out', h, v)
    {
      var h :| Owns(out, h, v);
      assert Owns(out', h, v);
    }
  }

  lemma GetBalancedIndirect(m: Memory, out: map<nat, QM.Request>, head: nat, virt: nat)
    requires Balanced(m, out) && Owns(out, head, virt) && virt in m.mapped
    ensures Balanced(m.EndDMA(virt, m.mapped[virt].size).FreeVec(virt), out - {head})
  {
    var m' := m.EndDMA(virt, m.mapped[virt].size).FreeVec(virt);
    var out' := out - {head};
    forall h, v
      ensures Owns(out', h, v) <==> Owns(out, h, v) && v != virt
    {
      assert Owns(out, h, v) && v == virt ==> h == head;
    }
    forall v | v in m'.heap
      ensures exists h :: Owns(out', h, v)
    {
      var h :| Owns(out, h, v);
      assert Owns(out', h, v);
    }
  }

  /** What GetBuf does to the tables when it takes `r` back. */
  ghost predicate Released(m0: Memory, m1: Memory, r: QM.Request)
  {
    match r.table
    case None => m1 == m0
    case Some(v) =>
      v in m0.mapped && v in m0.heap && m1 == m0.EndDMA(v, m0.mapped[v].size).FreeVec(v)
  }

  lemma GetMemory(modern: bool, d0: seq<Desc>, d1: seq<Desc>, m0: Memory, m1: Memory, q: QM.Queue, head: nat)
    requires QM.Shaped(q) && QM.Disjoint(q.out) && head in q.out && q.num == |d0|
    requires AllStored(modern, d0, m0, q.out) && Balanced(m0, q.out)
    requires OnlyAt(d0, d1, q.out[head].chain) && Released(m0, m1, q.out[head])
    ensures AllStored(modern, d1, m1, q.out - {head}) && Balanced(m1, q.out - {head})
  {
    GetKeepsStored(modern, d0, d1, m0, m1, q, head);
    match q.out[head].table
    case None => GetBalancedDirect(m0, q.out, head);
    case Some(v) => GetBalancedIndirect(m0, q.out, head, v);
  }

  /** GetBuf: the nodes of the oldest completed request have been pushed on the
      free list, and its table, if any, unmapped and freed. */
  lemma GetDone(modern: bool, s0: Store, s1: Store, q: QM.Queue, head: nat)
    requires Represents(modern, s0, q) && q.used != [] && head == q.used[0].id && head in q.out
    requires var chain := q.out[head].chain;
             && chain != [] && chain[|chain| - 1] < WRAP && s0.numFree + |chain| < WRAP
             && Pushed(s0.desc, s1.desc, chain, s0.freeHead, |chain|)
             && head < |s0.cookies| && head < |s0.tables|
             && s1 == Store(s1.desc, s0.cookies[head := None], s0.tables[head := None], s1.memory,
                            chain[|chain| - 1], s0.numFree + |chain|)
    requires Released(s0.memory, s1.memory, q.out[head])
    ensures Represents(modern, s1, QM.Get(q))
  {
    hide AllStored, Recorded, Balanced, Released, PushedAt, Linked, QM.Disjoint, QM.Covered, QM.Phased;
    var r := q.out[head];
    QM.GetInv(q);
    assert QM.WellFormed(q.num, q.free, head, r);
    assert r.chain[..|r.chain|] == r.chain;
    GetMemory(modern, s0.desc, s1.desc, s0.memory, s1.memory, q, head);
    FreeListGrown(s0.desc, s1.desc, q.free, s0.freeHead, s0.numFree, r.chain);
    GetRecorded(s0.cookies, s0.tables, q.out, head);
  }
}
