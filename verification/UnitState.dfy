/** The in-flight tables of the unit structures, changed in place: the units'
    free lists, their slots with the request and response buffers, and the
    counters.  Row u of a table belongs to units[u]. */
module UnitState {
  import opened Types
  import opened Pipeline
  import QM = QueueModel

  /** free_head and inflight_next[]. */
  class FreeLists {
    const next: array2<int>
    const head: array<int>
    ghost var free: map<nat, seq<nat>>

    ghost predicate Valid()
      reads this, next, head
    {
      && next.Length0 == head.Length == MAX_UNITS && next.Length1 == MAX_INFLIGHT
      && forall u | u in free :: u < MAX_UNITS && QM.Distinct(free[u]) && Threaded(next, u, head[u], free[u])
    }

    /** preallocate_unit_dma links every slot to the next. */
    constructor (ghost units: set<nat>)
      requires forall u | u in units :: u < MAX_UNITS
      ensures Valid() && free == Everywhere(units, QM.Init(MAX_INFLIGHT).free)
      ensures fresh(next) && fresh(head)
    {
      next := new int[MAX_UNITS, MAX_INFLIGHT]((_, i) => if i + 1 < MAX_INFLIGHT then i + 1 else -1);
      head := new int[MAX_UNITS](_ => 0);
      free := Everywhere(units, QM.Init(MAX_INFLIGHT).free);
    }

    method Pop(u: nat) returns (slot: int)
      requires Valid() && u in free
      modifies this`free, head
      ensures Valid()
      ensures old(free[u]) == [] ==> slot == -1 && free == old(free)
      ensures old(free[u]) != [] ==>
        slot == old(free[u])[0] && slot < MAX_INFLIGHT && free == old(free)[u := old(free[u])[1..]]
    {
      slot := head[u];
      if slot >= 0 {
        ThreadedTail(next, u, slot, free[u]);
        QM.HeadAndTail(free[u]);
        head[u] := next[u, slot];
        free := free[u := free[u][1..]];
      }
    }

    method Push(u: nat, slot: nat)
      requires Valid() && u in free && slot < MAX_INFLIGHT && slot !in free[u]
      modifies this`free, next, head
      ensures Valid() && free == old(free)[u := [slot] + old(free)[u]]
    {
      ghost var before := free[u];
      ghost var after := [slot] + before;
      label entry:
      next[u, slot] := head[u];
      head[u] := slot;
      free := free[u := after];
      forall i | 0 <= i < |after|
        ensures LinkOk(next, u, after, i)
      {
        if i > 0 {
          assert old@entry(LinkOk(next, u, before, i - 1));
          assert before[i - 1] in before;
        }
      }
      forall v | v in free && v != u
        ensures Threaded(next, v, head[v], free[v])
      {
        forall i | 0 <= i < |free[v]|
          ensures LinkOk(next, v, free[v], i)
        {
          assert old@entry(LinkOk(next, v, free[v], i));
        }
      }
    }
  }

  /** inflight_next[] threads the list `free` from `head`; -1 ends it. */
  ghost predicate Threaded(next: array2<int>, u: nat, head: int, free: seq<nat>)
    requires u < next.Length0
    reads next
  {
    && head == (if free == [] then -1 else free[0])
    && forall i | 0 <= i < |free| :: LinkOk(next, u, free, i)
  }

  ghost predicate LinkOk(next: array2<int>, u: nat, free: seq<nat>, i: nat)
    requires u < next.Length0 && i < |free|
    reads next
  {
    free[i] < next.Length1 && next[u, free[i]] == if i + 1 < |free| then free[i + 1] else -1
  }

  lemma ThreadedTail(next: array2<int>, u: nat, head: int, free: seq<nat>)
    requires u < next.Length0 && Threaded(next, u, head, free) && head >= 0
    ensures free != [] && head < next.Length1 && Threaded(next, u, next[u, head], free[1..])
  {
    var tail := free[1..];
    assert LinkOk(next, u, free, 0);
    forall i | 0 <= i < |tail|
      ensures LinkOk(next, u, tail, i)
    {
      assert LinkOk(next, u, free, i + 1);
    }
  }

  predicate Fits(k: Key) { k.unit < MAX_UNITS && k.slot < MAX_INFLIGHT }

  /** The rows of `table` hold what `m` says. */
  ghost predicate Matches<T>(table: array2<T>, m: map<Key, T>)
    reads table
  {
    && table.Length0 == MAX_UNITS && table.Length1 == MAX_INFLIGHT
    && forall k | k in m :: Fits(k) && table[k.unit, k.slot] == m[k]
  }

  method NewTable<T>(ghost keys: set<Key>, v: T) returns (table: array2<T>)
    requires forall k | k in keys :: Fits(k)
    ensures fresh(table) && Matches(table, Everywhere(keys, v))
  {
    table := new T[MAX_UNITS, MAX_INFLIGHT]((_, _) => v);
  }

  /** inflight[], and what of req_bufs[] and resp_bufs[] the pipeline reads. */
  class Slots {
    const units: set<nat> // the entries of units[] that are not NULL
    const inflight: array2<Slot>
    const requestId: array2<nat>
    const response: array2<Answer>
    ghost var slots: map<Key, Slot>
    ghost var ids: map<Key, nat>
    ghost var resp: map<Key, Answer>

    ghost predicate Valid()
      reads this, inflight, requestId, response
    {
      Matches(inflight, slots) && Matches(requestId, ids) && Matches(response, resp)
    }

    constructor (units: set<nat>, ghost keys: set<Key>)
      requires forall k | k in keys :: Fits(k)
      ensures Valid() && this.units == units && fresh(inflight) && fresh(requestId) && fresh(response)
      ensures slots == Everywhere(keys, EMPTY) && ids == Everywhere(keys, 0) && resp == Everywhere(keys, Blank)
    {
      hide Everywhere, Matches;
      this.units := units;
      var table := NewTable(keys, EMPTY);
      var headers := NewTable<nat>(keys, 0);
      var answers := NewTable(keys, Blank);
      inflight, requestId, response := table, headers, answers;
      slots, ids, resp := Everywhere(keys, EMPTY), Everywhere(keys, 0), Everywhere(keys, Blank);
    }

    method SetSlot(k: Key, slot: Slot)
      requires Valid() && k in slots
      modifies this`slots, inflight
      ensures Valid() && slots == old(slots)[k := slot]
    {
      inflight[k.unit, k.slot] := slot;
      slots := slots[k := slot];
    }

    /** Blank the response fields and write the request's id. */
    method Prepare(k: Key, id: nat)
      requires Valid() && k in ids && k in resp
      modifies this`ids, this`resp, requestId, response
      ensures Valid() && ids == old(ids)[k := id] && resp == old(resp)[k := Blank]
    {
      response[k.unit, k.slot] := Blank;
      requestId[k.unit, k.slot] := id;
      resp := resp[k := Blank];
      ids := ids[k := id];
    }

    /** The device writes a response buffer. */
    method SetResponse(k: Key, a: Answer)
      requires Valid() && k in resp
      modifies this`resp, response
      ensures Valid() && resp == old(resp)[k := a]
    {
      response[k.unit, k.slot] := a;
      resp := resp[k := a];
    }

    /** What complete_inflight_slot reads of a slot in use. */
    method ReadReply(k: Key) returns (reply: Reply)
      requires Valid() && k in slots && slots[k].ioreq.Some? && k in resp
      ensures reply == Reply(slots[k].ioreq.value, resp[k])
    {
      var entry := inflight[k.unit, k.slot];
      reply := Reply(entry.ioreq.value, response[k.unit, k.slot]);
    }

    /** The constant-time routing of a cookie. */
    method RouteCookie(c: Cookie) returns (k: Option<Key>)
      requires Valid() && KeyOf(c) in ids && forall k :: k in slots <==> k.unit in units && k.slot < MAX_INFLIGHT
      ensures forall d: Driver | d.slots == slots && d.ids == ids :: k == Route(d, c)
    {
      var from := KeyOf(c);
      var id := requestId[from.unit, from.slot];
      var unit, slot := id / 0x1_0000, id % 0x1_0000;
      k := None;
      if slot < MAX_INFLIGHT && unit < MAX_UNITS && unit in units {
        var entry := inflight[unit, slot];
        if entry.cookie == Some(c) && entry.ioreq.Some? {
          k := Some(Key(unit, slot));
        }
      }
    }
  }

  /** occupied_count, active_units_mask, and each unit's inflight_count and
      doio_pending_cookie. */
  class Counters {
    var occupied: nat
    var mask: set<nat>
    const inflightCount: array<nat>
    const pendingCookie: array<Option<Cookie>>
    ghost var count: map<nat, nat>
    ghost var pending: map<nat, Option<Cookie>>

    ghost predicate Valid()
      reads this, inflightCount, pendingCookie
    {
      && inflightCount.Length == pendingCookie.Length == MAX_UNITS
      && (forall u | u in count :: u < MAX_UNITS && inflightCount[u] == count[u])
      && (forall u | u in pending :: u < MAX_UNITS && pendingCookie[u] == pending[u])
    }

    constructor (ghost units: set<nat>)
      requires forall u | u in units :: u < MAX_UNITS
      ensures Valid() && fresh(inflightCount) && fresh(pendingCookie)
      ensures occupied == 0 && mask == {} && count == Everywhere(units, 0) && pending == Everywhere(units, None)
    {
      inflightCount := new nat[MAX_UNITS](_ => 0);
      pendingCookie := new Option<Cookie>[MAX_UNITS](_ => None);
      occupied, mask, count, pending := 0, {}, Everywhere(units, 0), Everywhere(units, None);
    }

    /** Submit's bookkeeping once the queue has taken the request. */
    method Count(u: nat)
      requires Valid() && u in count
      modifies this`occupied, this`mask, this`count, inflightCount
      ensures Valid() && occupied == old(occupied) + 1 && mask == old(mask) + {u}
      ensures count == old(count)[u := old(count)[u] + 1]
    {
      occupied := occupied + 1;
      inflightCount[u] := inflightCount[u] + 1;
      mask := mask + {u};
      count := count[u := count[u] + 1];
    }

    /** complete_inflight_slot's; the guards against going below zero are its own. */
    method Uncount(u: nat)
      requires Valid() && u in count
      modifies this`occupied, this`mask, this`count, inflightCount
      ensures Valid()
      ensures occupied == Down(old(occupied)) && count == old(count)[u := Down(old(count)[u])]
      ensures mask == MaskAfter(old(mask), old(count)[u], u)
    {
      if occupied > 0 {
        occupied := occupied - 1;
      }
      if inflightCount[u] > 0 {
        inflightCount[u] := inflightCount[u] - 1;
        if inflightCount[u] == 0 {
          mask := mask - {u};
        }
      }
      count := count[u := Down(count[u])];
    }

    /** DoIO marks its unit for the interrupt handler. */
    method Mark(u: nat)
      requires Valid()
      modifies this`mask
      ensures Valid() && mask == old(mask) + {u}
    {
      mask := mask + {u};
    }

    /** On its way out it takes the mark back, unless the pipeline has work. */
    method Unmark(u: nat)
      requires Valid() && u in count
      modifies this`mask
      ensures Valid() && mask == if count[u] == 0 then old(mask) - {u} else old(mask)
    {
      if inflightCount[u] == 0 {
        mask := mask - {u};
      }
    }

    method Stash(u: nat, c: Option<Cookie>)
      requires Valid() && u in pending
      modifies this`pending, pendingCookie
      ensures Valid() && pending == old(pending)[u := c]
    {
      pendingCookie[u] := c;
      pending := pending[u := c];
    }

    /** The interrupt handler: of the units whose mask bit is set, signal those
        with a task waiting. */
    method Interrupt(isr: nat, waiting: seq<bool>) returns (claimed: bool, signalled: set<nat>)
      requires |waiting| == MAX_UNITS
      ensures claimed <==> isr != 0
      ensures signalled == if isr % 2 == 1 then set u | u in mask && u < MAX_UNITS && waiting[u] else {}
    {
      signalled := {};
      if isr == 0 {
        return false, {};
      }
      if isr % 2 == 1 {
        var i := 0;
        while i < MAX_UNITS
          invariant 0 <= i <= MAX_UNITS
          invariant signalled == set u | u in mask && u < i && waiting[u]
        {
          if i in mask && waiting[i] {
            signalled := signalled + {i};
          }
          i := i + 1;
        }
      }
      claimed := true;
    }
  }
}
