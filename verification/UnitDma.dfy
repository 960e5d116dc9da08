/** The buffers of a unit, allocated all or none (src/unit_task.c, from
    alloc_one_slot to free_unit_dma), over a ledger of what has been obtained
    from the system and not given back. */
module UnitDma {
  import opened Types
  import Ledger

  const REQ_SIZE: nat := 51
  const RESP_SIZE: nat := 108
  const BOUNCE_SIZE: nat := 65536

  // ---------------------------------------------------------------------
  // The system
  // ---------------------------------------------------------------------

  /** Memory from AllocVec, with the size of its DMA mapping if it has one, and
      DMA entry arrays. */
  datatype Resource = Block(id: nat, mapped: Option<nat>) | Entries(id: nat)

  type Live = multiset<Resource>

  /** Every call may fail; what is given back must be there to give, and memory
      is not freed while mapped.  `rest` is whatever else is live, `refusals` how
      often the system has refused. */
  class Exec {
    ghost var live: Live
    ghost var refusals: nat
    var next: nat

    /** Each thing there is there once. */
    ghost predicate Valid()
      reads this
    {
      && (forall r | r in live :: r.id < next && live[r] == 1)
      && (forall r, q | r in live && q in live && r.id == q.id :: r == q)
    }

    constructor ()
      ensures Valid() && live == multiset{}
    {
      live, refusals, next := multiset{}, 0, 0;
    }

    method AllocVec() returns (p: Option<nat>)
      requires Valid()
      modifies this
      ensures Valid() && live == old(live) + if p.Some? then multiset{Block(p.value, None)} else multiset{}
      ensures refusals == old(refusals) + if p.Some? then 0 else 1
    {
      p := None;
      var granted := *;
      refusals := refusals + if granted then 0 else 1;
      if granted {
        p := Some(next);
        live := live + multiset{Block(next, None)};
        next := next + 1;
      }
    }

    method FreeVec(id: nat, ghost rest: Live)
      requires Valid() && live == rest + multiset{Block(id, None)}
      modifies this`live
      ensures Valid() && live == rest
    {
      live := live - multiset{Block(id, None)};
    }

    /** The number of entries the mapping needs; 0 is failure. */
    method StartDMA(id: nat, size: nat, ghost rest: Live) returns (entries: nat)
      requires Valid() && live == rest + multiset{Block(id, None)}
      modifies this`live, this`refusals
      ensures Valid() && live == rest + multiset{Block(id, if entries > 0 then Some(size) else None)}
      ensures refusals == old(refusals) + if entries > 0 then 0 else 1
    {
      entries := *;
      refusals := refusals + if entries > 0 then 0 else 1;
      assert Block(id, None) in live;
      if entries > 0 {
        live := live - multiset{Block(id, None)} + multiset{Block(id, Some(size))};
      }
    }

    method EndDMA(id: nat, size: nat, ghost rest: Live)
      requires Valid() && live == rest + multiset{Block(id, Some(size))}
      modifies this`live
      ensures Valid() && live == rest + multiset{Block(id, None)}
    {
      assert Block(id, Some(size)) in live;
      live := live - multiset{Block(id, Some(size))} + multiset{Block(id, None)};
    }

    method AllocEntries() returns (p: Option<nat>)
      requires Valid()
      modifies this
      ensures Valid() && live == old(live) + if p.Some? then multiset{Entries(p.value)} else multiset{}
      ensures refusals == old(refusals) + if p.Some? then 0 else 1
    {
      p := None;
      var granted := *;
      refusals := refusals + if granted then 0 else 1;
      if granted {
        p := Some(next);
        live := live + multiset{Entries(next)};
        next := next + 1;
      }
    }

    method FreeEntries(id: nat, ghost rest: Live)
      requires Valid() && live == rest + multiset{Entries(id)}
      modifies this`live
      ensures Valid() && live == rest
    {
      live := live - multiset{Entries(id)};
    }
  }

  // ---------------------------------------------------------------------
  // The unit's tables
  // ---------------------------------------------------------------------

  /** A buffer: req_bufs[s], dma_req_entries_arr[s] and dma_req_lists[s], the
      same three for the response, or bounce_bufs[s] and bounce_dma_entries[s]. */
  datatype Buffer = Buffer(block: Option<nat>, entries: nat, list: Option<nat>)

  const NO_BUFFER := Buffer(None, 0, None)

  predicate Ready(b: Buffer) { b.block.Some? && b.entries > 0 && b.list.Some? }

  function BlockOf(b: Buffer, size: nat): Live
  {
    if b.block.Some? then multiset{Block(b.block.value, if b.entries > 0 then Some(size) else None)} else multiset{}
  }

  function ListOf(p: Option<nat>): Live { if p.Some? then multiset{Entries(p.value)} else multiset{} }

  function OwnedBy(b: Buffer, size: nat): Live { BlockOf(b, size) + ListOf(b.list) }

  /** A slot's row; `pool` is data_dma_pool[s]. */
  datatype Row = Row(req: Buffer, resp: Buffer, bounce: Buffer, pool: Option<nat>)

  const NO_ROW := Row(NO_BUFFER, NO_BUFFER, NO_BUFFER, None)

  /** Everything there; the bounce buffer's mapping has been given back. */
  predicate Complete(r: Row)
  {
    Ready(r.req) && Ready(r.resp) && r.bounce == Buffer(r.bounce.block, 0, None) && r.bounce.block.Some? && r.pool.Some?
  }

  function Owned(r: Row): Live
  {
    OwnedBy(r.req, REQ_SIZE) + OwnedBy(r.resp, RESP_SIZE) + OwnedBy(r.bounce, BOUNCE_SIZE) + ListOf(r.pool)
  }

  // ---------------------------------------------------------------------
  // One buffer
  // ---------------------------------------------------------------------

  /** Map memory and list its entries; on failure it is left as it was. */
  method MapBuffer(exec: Exec, id: nat, size: nat, ghost rest: Live) returns (b: Buffer)
    requires exec.Valid() && exec.live == rest + multiset{Block(id, None)}
    modifies exec
    ensures exec.Valid() && exec.live == rest + OwnedBy(b, size)
    ensures b.block == Some(id) && (Ready(b) || b == Buffer(Some(id), 0, None))
    ensures exec.refusals >= old(exec.refusals) && (b.entries > 0 <==> exec.refusals == old(exec.refusals))
  {
    hide Exec.Valid;
    b := Buffer(Some(id), 0, None);
    var entries := exec.StartDMA(id, size, rest);
    if entries == 0 {
      return;
    }
    var list := exec.AllocEntries();
    if list.None? {
      exec.EndDMA(id, size, rest);
      return;
    }
    b := Buffer(Some(id), entries, list);
  }

  /** Undo the mapping of a buffer, if there is one. */
  method Unmap(exec: Exec, b: Buffer, size: nat, ghost rest: Live) returns (r: Buffer)
    requires exec.Valid() && exec.live == rest + OwnedBy(b, size)
    requires b == Buffer(b.block, 0, None) || Ready(b)
    modifies exec`live
    ensures exec.Valid() && r == Buffer(b.block, 0, None) && exec.live == rest + OwnedBy(r, size)
  {
    r := b;
    if r.list.Some? {
      exec.FreeEntries(r.list.value, rest + BlockOf(b, size));
      r := r.(list := None);
    }
    if r.entries > 0 && r.block.Some? {
      exec.EndDMA(r.block.value, size, rest);
      r := r.(entries := 0);
    }
  }

  method FreeBlock(exec: Exec, b: Buffer, size: nat, ghost rest: Live) returns (r: Buffer)
    requires exec.Valid() && exec.live == rest + OwnedBy(b, size) && b == Buffer(b.block, 0, None)
    modifies exec`live
    ensures exec.Valid() && r == NO_BUFFER && exec.live == rest
  {
    r := b;
    if r.block.Some? {
      exec.FreeVec(r.block.value, rest);
      r := NO_BUFFER;
    }
  }

  // ---------------------------------------------------------------------
  // One slot
  // ---------------------------------------------------------------------

  /** alloc_one_slot: both buffers mapped, or nothing kept. */
  method AllocOneSlot(exec: Exec) returns (ok: bool, req: Buffer, resp: Buffer)
    requires exec.Valid()
    modifies exec
    ensures exec.Valid() && exec.live == old(exec.live) + OwnedBy(req, REQ_SIZE) + OwnedBy(resp, RESP_SIZE)
    ensures if ok then Ready(req) && Ready(resp) else req == NO_BUFFER && resp == NO_BUFFER
    ensures exec.refusals >= old(exec.refusals) && (ok <==> exec.refusals == old(exec.refusals))
  {
    hide Exec.Valid;
    ghost var rest := exec.live;
    ok, req, resp := false, NO_BUFFER, NO_BUFFER;
    var q := exec.AllocVec();
    if q.None? {
      return;
    }
    var p := exec.AllocVec();
    if p.None? {
      exec.FreeVec(q.value, rest);
      return;
    }
    ok, req, resp := MapBoth(exec, q.value, p.value, rest);
    if !ok {
      resp := FreeBlock(exec, resp, RESP_SIZE, rest + OwnedBy(req, REQ_SIZE));
      req := FreeBlock(exec, req, REQ_SIZE, rest);
    }
  }

  lemma Bare(id: nat)
    ensures forall size :: OwnedBy(Buffer(Some(id), 0, None), size) == multiset{Block(id, None)}
  {}

  /** Map the two buffers, or neither. */
  method MapBoth(exec: Exec, q: nat, p: nat, ghost rest: Live) returns (ok: bool, req: Buffer, resp: Buffer)
    requires exec.Valid() && exec.live == rest + multiset{Block(q, None)} + multiset{Block(p, None)}
    modifies exec
    ensures exec.Valid() && exec.live == rest + OwnedBy(req, REQ_SIZE) + OwnedBy(resp, RESP_SIZE)
    ensures req.block == Some(q) && resp.block == Some(p)
    ensures if ok then Ready(req) && Ready(resp)
            else req == Buffer(req.block, 0, None) && resp == Buffer(resp.block, 0, None)
    ensures exec.refusals >= old(exec.refusals) && (ok <==> exec.refusals == old(exec.refusals))
  {
    hide Exec.Valid, OwnedBy;
    Bare(p);
    ok, resp := false, Buffer(Some(p), 0, None);
    req := MapBuffer(exec, q, REQ_SIZE, rest + multiset{Block(p, None)});
    if req.entries > 0 {
      resp := MapBuffer(exec, p, RESP_SIZE, rest + OwnedBy(req, REQ_SIZE));
      ok := resp.entries > 0;
      if !ok {
        req := Unmap(exec, req, REQ_SIZE, rest + OwnedBy(resp, RESP_SIZE));
      }
    }
  }

  /** free_one_slot. */
  method FreeOneSlot(exec: Exec, r: Row, ghost rest: Live) returns (r': Row)
    requires exec.Valid() && exec.live == rest + OwnedBy(r.req, REQ_SIZE) + OwnedBy(r.resp, RESP_SIZE)
    requires (r.req == NO_BUFFER || Ready(r.req)) && (r.resp == NO_BUFFER || Ready(r.resp))
    modifies exec`live
    ensures exec.Valid() && r' == r.(req := NO_BUFFER, resp := NO_BUFFER) && exec.live == rest
  {
    hide Exec.Valid, OwnedBy;
    var resp := Unmap(exec, r.resp, RESP_SIZE, rest + OwnedBy(r.req, REQ_SIZE));
    var req := Unmap(exec, r.req, REQ_SIZE, rest + OwnedBy(resp, RESP_SIZE));
    resp := FreeBlock(exec, resp, RESP_SIZE, rest + OwnedBy(req, REQ_SIZE));
    req := FreeBlock(exec, req, REQ_SIZE, rest);
    r' := r.(req := req, resp := resp);
  }

  /** alloc_one_bounce: the buffer is mapped only to learn its address. */
  method AllocOneBounce(exec: Exec) returns (ok: bool, b: Buffer)
    requires exec.Valid()
    modifies exec
    ensures exec.Valid() && exec.live == old(exec.live) + OwnedBy(b, BOUNCE_SIZE)
    ensures b == Buffer(b.block, 0, None) && ok == b.block.Some?
    ensures exec.refusals >= old(exec.refusals) && (ok <==> exec.refusals == old(exec.refusals))
  {
    hide Exec.Valid;
    ghost var rest := exec.live;
    ok, b := false, NO_BUFFER;
    var p := exec.AllocVec();
    if p.None? {
      return;
    }
    b := MapBuffer(exec, p.value, BOUNCE_SIZE, rest);
    if b.entries == 0 {
      b := FreeBlock(exec, b, BOUNCE_SIZE, rest);
      return;
    }
    b := Unmap(exec, b, BOUNCE_SIZE, rest);
    ok := true;
  }

  /** A slot's share of preallocate_unit_dma, its own rollback included. */
  method AllocRow(exec: Exec) returns (ok: bool, r: Row)
    requires exec.Valid()
    modifies exec
    ensures exec.Valid() && exec.live == old(exec.live) + Owned(r)
    ensures if ok then Complete(r) else r == NO_ROW
    ensures exec.refusals >= old(exec.refusals) && (ok <==> exec.refusals == old(exec.refusals))
    ensures ok ==> r.req.block.Some? && r.req.list.Some? && r.resp.block.Some? && r.resp.list.Some?
                   && r.bounce.block.Some? && r.pool.Some?
  {
    hide Exec.Valid, OwnedBy;
    ghost var rest := exec.live;
    NothingOwned();
    r := NO_ROW;
    var req, resp;
    ok, req, resp := AllocOneSlot(exec);
    if !ok {
      return;
    }
    r := r.(req := req, resp := resp);
    var bounce;
    ok, bounce := AllocOneBounce(exec);
    if !ok {
      r := FreeOneSlot(exec, r, rest);
      return;
    }
    r := r.(bounce := bounce);
    var pool := exec.AllocEntries();
    if pool.None? {
      bounce := FreeBlock(exec, bounce, BOUNCE_SIZE, rest + OwnedBy(r.req, REQ_SIZE) + OwnedBy(r.resp, RESP_SIZE));
      r := FreeOneSlot(exec, r.(bounce := bounce), rest);
      return false, r;
    }
    r := r.(pool := pool);
  }

  lemma NothingOwned()
    ensures forall size :: OwnedBy(NO_BUFFER, size) == multiset{}
  {}

  /** The same for a slot's share of free_unit_dma. */
  method FreeRow(exec: Exec, r: Row, ghost rest: Live) returns (r': Row)
    requires exec.Valid() && exec.live == rest + Owned(r) && (r == NO_ROW || Complete(r))
    modifies exec`live
    ensures exec.Valid() && exec.live == rest && r' == NO_ROW
  {
    hide Exec.Valid, OwnedBy;
    NothingOwned();
    r' := r;
    if r'.pool.Some? {
      exec.FreeEntries(r'.pool.value,
                       rest + OwnedBy(r.req, REQ_SIZE) + OwnedBy(r.resp, RESP_SIZE) + OwnedBy(r.bounce, BOUNCE_SIZE));
      r' := r'.(pool := None);
    }
    var bounce := FreeBlock(exec, r'.bounce, BOUNCE_SIZE, rest + OwnedBy(r.req, REQ_SIZE) + OwnedBy(r.resp, RESP_SIZE));
    r' := FreeOneSlot(exec, r'.(bounce := bounce), rest);
  }

  // ---------------------------------------------------------------------
  // The sixteen slots
  // ---------------------------------------------------------------------

  ghost predicate RowOk(r: Row) { r == NO_ROW || Complete(r) }

  class UnitBuffers {
    const rows: array<Row>

    constructor ()
      ensures rows.Length == MAX_INFLIGHT && fresh(rows) && forall i | 0 <= i < rows.Length :: rows[i] == NO_ROW
    {
      rows := new Row[MAX_INFLIGHT](_ => NO_ROW);
    }

    ghost function AllOwned(): Live
      reads rows
    {
      Ledger.Held(rows[..], Owned)
    }

    /** Free the first `n` rows. */
    method FreeRows(exec: Exec, n: nat, ghost rest: Live)
      requires exec.Valid() && exec.live == rest + AllOwned() && n <= rows.Length
      requires forall i | 0 <= i < rows.Length :: RowOk(rows[i])
      requires forall i | n <= i < rows.Length :: rows[i] == NO_ROW
      modifies exec`live, rows
      ensures exec.Valid() && exec.live == rest
      ensures forall i | 0 <= i < rows.Length :: rows[i] == NO_ROW
    {
      hide Owned, Exec.Valid, Ledger.Held;
      var k := 0;
      while k < n
        invariant 0 <= k <= n && exec.Valid() && exec.live == rest + AllOwned()
        invariant forall i | 0 <= i < rows.Length :: RowOk(rows[i])
        invariant forall i | 0 <= i < k || n <= i < rows.Length :: rows[i] == NO_ROW
      {
        ghost var before := rows[..];
        ghost var others := Ledger.Held(before[k := NO_ROW], Owned);
        Ledger.HeldUpdate(before, Owned, k, NO_ROW);
        OwnsNothing();
        var r := FreeRow(exec, rows[k], rest + others);
        rows[k] := r;
        assert rows[..] == before[k := NO_ROW];
        k := k + 1;
      }
      OwnsNothing();
      Ledger.HeldByNone(rows[..], Owned);
    }

    /** preallocate_unit_dma: all sixteen slots complete, or everything that had
        been obtained given back. */
    method Preallocate(exec: Exec) returns (ok: bool)
      requires exec.Valid() && rows.Length == MAX_INFLIGHT && forall i | 0 <= i < rows.Length :: rows[i] == NO_ROW
      modifies exec, rows
      ensures exec.Valid() && exec.live == old(exec.live) + AllOwned()
      ensures if ok then forall i | 0 <= i < rows.Length :: Complete(rows[i])
              else exec.live == old(exec.live) && forall i | 0 <= i < rows.Length :: rows[i] == NO_ROW
      ensures exec.refusals >= old(exec.refusals) && (ok <==> exec.refusals == old(exec.refusals))
      ensures ok ==> forall i | 0 <= i < 16 ::
                rows[i].req.list.Some? && rows[i].resp.list.Some? && rows[i].bounce.block.Some? && rows[i].pool.Some?
    {
      hide Owned, Exec.Valid, Ledger.Held;
      ghost var rest := exec.live;
      OwnsNothing();
      Ledger.HeldByNone(rows[..], Owned);
      var s := 0;
      while s < rows.Length
        invariant 0 <= s <= rows.Length && exec.Valid() && exec.live == rest + AllOwned()
        invariant forall i | 0 <= i < s :: Complete(rows[i])
        invariant forall i | s <= i < rows.Length :: rows[i] == NO_ROW
        invariant exec.refusals == old(exec.refusals)
      {
        ghost var before := rows[..];
        var made, r := AllocRow(exec);
        if !made {
          FreeRows(exec, s, rest);
          Ledger.HeldByNone(rows[..], Owned);
          return false;
        }
        Ledger.HeldUpdate(before, Owned, s, r);
        rows[s] := r;
        assert rows[..] == before[s := r];
        s := s + 1;
      }
      ok := true;
    }

    /** free_unit_dma: whatever preallocate_unit_dma left is given back, once. */
    method FreeAll(exec: Exec, ghost rest: Live)
      requires exec.Valid() && exec.live == rest + AllOwned()
      requires forall i | 0 <= i < rows.Length :: RowOk(rows[i])
      modifies exec`live, rows
      ensures exec.Valid() && exec.live == rest
      ensures forall i | 0 <= i < rows.Length :: rows[i] == NO_ROW
    {
      FreeRows(exec, rows.Length, rest);
    }
  }

  lemma OwnsNothing()
    ensures Owned(NO_ROW) == multiset{}
  {}

  /** A complete slot answers for six things: three blocks of memory and three
      entry arrays. */
  lemma CompleteOwns(r: Row)
    requires Complete(r)
    ensures |Owned(r)| == 6
  {}

  lemma {:induction false} RowsOwn(rows: seq<Row>)
    requires forall i | 0 <= i < |rows| :: Complete(rows[i])
    ensures |Ledger.Held(rows, Owned)| == 6 * |rows|
  {
    if rows != [] {
      RowsOwn(rows[..|rows| - 1]);
      CompleteOwns(rows[|rows| - 1]);
    }
  }

  /** However the allocations turn out, a unit opened and shut down leaves the
      system as it was; so does shutting down again.  In between, sixteen slots'
      worth is live if the system refused nothing, and nothing more if it did. */
  method Lifecycle(exec: Exec, unit: UnitBuffers) returns (ok: bool, ghost during: Live)
    requires exec.Valid() && unit.rows.Length == MAX_INFLIGHT
    requires forall i | 0 <= i < unit.rows.Length :: unit.rows[i] == NO_ROW
    modifies exec, unit.rows
    ensures exec.Valid() && exec.live == old(exec.live)
    ensures forall i | 0 <= i < unit.rows.Length :: unit.rows[i] == NO_ROW
    ensures ok <==> exec.refusals == old(exec.refusals)
    ensures |during| == |old(exec.live)| + if ok then 96 else 0
  {
    hide Owned, Exec.Valid, Ledger.Held;
    ghost var rest := exec.live;
    ok := unit.Preallocate(exec);
    during := exec.live;
    if ok {
      RowsOwn(unit.rows[..]);
    }
    unit.FreeAll(exec, rest);
    OwnsNothing();
    Ledger.HeldByNone(unit.rows[..], Owned);
    unit.FreeAll(exec, rest);
  }
}
