/** The virtqueue as its users see it: which descriptors are free, which
    requests are outstanding, and how far each of those has got. */
module QueueModel {
  import opened Types

  /** An accepted request.  A direct request owns one descriptor per entry; an
      indirect one owns a single descriptor and a table. */
  datatype Request = Request(cookie: Cookie, sg: seq<Sg>, outNum: nat, chain: seq<nat>, table: Option<nat>)

  datatype Used = Used(id: nat, len: uint32)

  /** `free` is the free list in walking order.  Every head in `out` is posted
      and not yet taken by the device (`avail`), in the device's hands (`held`),
      or completed and not yet harvested (`used`). */
  datatype Queue = Queue(num: nat, free: seq<nat>, out: map<nat, Request>,
                         avail: seq<nat>, held: set<nat>, used: seq<Used>)

  function Init(num: nat): Queue
  {
    Queue(num, seq(num, i => i), map[], [], {}, [])
  }

  function Cost(sg: seq<Sg>, table: Option<nat>): nat { if table.Some? then 1 else |sg| }

  predicate CanAdd(q: Queue, sg: seq<Sg>, table: Option<nat>)
  {
    sg != [] && Cost(sg, table) <= |q.free|
  }

  function Add(q: Queue, sg: seq<Sg>, outNum: nat, cookie: Cookie, table: Option<nat>): Queue
    requires CanAdd(q, sg, table)
  {
    var n := Cost(sg, table);
    var head := q.free[0];
    q.(free := q.free[n..],
       out := q.out[head := Request(cookie, sg, outNum, q.free[..n], table)],
       avail := q.avail + [head])
  }

  function Take(q: Queue): Queue
    requires q.avail != []
  {
    q.(avail := q.avail[1..], held := q.held + {q.avail[0]})
  }

  function Complete(q: Queue, head: nat, len: uint32): Queue
    requires head in q.held
  {
    q.(held := q.held - {head}, used := q.used + [Used(head, len)])
  }

  function Reversed(s: seq<nat>): (r: seq<nat>)
    ensures |r| == |s|
  {
    seq(|s|, i requires 0 <= i < |s| => s[|s| - 1 - i])
  }

  /** GetBuf pushes the nodes of the chain one by one, so they come to lie
      reversed in front of the free list. */
  function Get(q: Queue): Queue
    requires q.used != [] && q.used[0].id in q.out
  {
    var head := q.used[0].id;
    q.(free := Reversed(q.out[head].chain) + q.free, out := q.out - {head}, used := q.used[1..])
  }

  // ---------------------------------------------------------------------
  // The invariant
  // ---------------------------------------------------------------------

  ghost predicate Distinct(s: seq<nat>) { forall i, j | 0 <= i < j < |s| :: s[i] != s[j] }

  predicate InChain(out: map<nat, Request>, head: nat, i: nat) { head in out && i in out[head].chain }

  function UsedIds(used: seq<Used>): (ids: seq<nat>)
    ensures |ids| == |used|
  {
    seq(|used|, k requires 0 <= k < |used| => used[k].id)
  }

  ghost predicate WellFormed(num: nat, free: seq<nat>, head: nat, r: Request)
  {
    && r.sg != []
    && |r.chain| == Cost(r.sg, r.table)
    && r.chain[0] == head
    && Distinct(r.chain)
    && forall i | i in r.chain :: i < num && i !in free
  }

  ghost predicate Shaped(q: Queue)
  {
    && Distinct(q.free)
    && (forall i | i in q.free :: i < q.num)
    && (forall h | h in q.out :: WellFormed(q.num, q.free, h, q.out[h]))
  }

  ghost predicate Disjoint(out: map<nat, Request>)
  {
    forall h, g, i | InChain(out, h, i) && InChain(out, g, i) :: h == g
  }

  ghost predicate Covered(q: Queue)
  {
    forall i | 0 <= i < q.num :: i in q.free || exists h :: InChain(q.out, h, i)
  }

  /** Free nodes and chains share nothing and leave nothing out. */
  ghost predicate Partitioned(q: Queue) { Shaped(q) && Disjoint(q.out) && Covered(q) }

  /** Every outstanding head is in exactly one of three phases. */
  ghost predicate InOnePhase(heads: set<nat>, avail: seq<nat>, held: set<nat>, used: seq<nat>)
  {
    && Distinct(avail)
    && Distinct(used)
    && (forall h | h in avail :: h in heads && h !in held && h !in used)
    && (forall h | h in held :: h in heads && h !in used)
    && (forall h | h in used :: h in heads)
    && (forall h | h in heads :: h in avail || h in held || h in used)
  }

  ghost predicate Phased(q: Queue) { InOnePhase(q.out.Keys, q.avail, q.held, UsedIds(q.used)) }

  ghost predicate Inv(q: Queue) { Partitioned(q) && Phased(q) }

  lemma InitInv(num: nat)
    ensures Inv(Init(num))
  {
    var q := Init(num);
    forall i | 0 <= i < num
      ensures i in q.free
    {
      assert q.free[i] == i;
    }
  }

  lemma FreeIsNotHead(q: Queue, i: nat)
    requires Shaped(q) && i in q.free
    ensures i !in q.out
    ensures forall h :: !InChain(q.out, h, i)
  {
    forall h | h in q.out
      ensures h != i && !InChain(q.out, h, i)
    {
      assert WellFormed(q.num, q.free, h, q.out[h]);
      assert q.out[h].chain[0] in q.out[h].chain;
    }
  }

  lemma AddShaped(q: Queue, sg: seq<Sg>, outNum: nat, cookie: Cookie, table: Option<nat>)
    requires Shaped(q) && CanAdd(q, sg, table)
    ensures Shaped(Add(q, sg, outNum, cookie, table))
  {
    var q' := Add(q, sg, outNum, cookie, table);
    var head, n := q.free[0], Cost(sg, table);
    forall i | i in q'.free
      ensures i in q.free && i !in q.free[..n]
    {
      var k :| 0 <= k < |q'.free| && q'.free[k] == i;
      assert q.free[n + k] == i;
    }
    forall h | h in q'.out
      ensures WellFormed(q.num, q'.free, h, q'.out[h])
    {
      if h != head {
        assert WellFormed(q.num, q.free, h, q.out[h]);
      } else {
        assert q'.out[h].chain == q.free[..n];
        assert forall i | i in q.free[..n] :: i in q.free;
      }
    }
  }

  lemma AddDisjoint(q: Queue, sg: seq<Sg>, outNum: nat, cookie: Cookie, table: Option<nat>)
    requires Shaped(q) && Disjoint(q.out) && CanAdd(q, sg, table)
    ensures Disjoint(Add(q, sg, outNum, cookie, table).out)
  {
    var out := Add(q, sg, outNum, cookie, table).out;
    var head := q.free[0];
    forall h, i | InChain(out, h, i)
      ensures if h == head then i in q.free else InChain(q.out, h, i) && i !in q.free
    {
      if h != head && i in q.free {
        FreeIsNotHead(q, i);
      }
    }
  }

  lemma AddCovered(q: Queue, sg: seq<Sg>, outNum: nat, cookie: Cookie, table: Option<nat>)
    requires Covered(q) && Shaped(q) && CanAdd(q, sg, table)
    ensures Covered(Add(q, sg, outNum, cookie, table))
  {
    var q' := Add(q, sg, outNum, cookie, table);
    var head := q.free[0];
    FreeIsNotHead(q, head);
    assert q.free == q'.out[head].chain + q'.free;
    forall i | 0 <= i < q.num
      ensures i in q'.free || exists h :: InChain(q'.out, h, i)
    {
      if i in q'.out[head].chain {
        assert InChain(q'.out, head, i);
      } else if i !in q.free {
        var h :| InChain(q.out, h, i);
        assert InChain(q'.out, h, i);
      }
    }
  }

  lemma AddInv(q: Queue, sg: seq<Sg>, outNum: nat, cookie: Cookie, table: Option<nat>)
    requires Inv(q) && CanAdd(q, sg, table)
    ensures Inv(Add(q, sg, outNum, cookie, table))
    ensures q.free[0] !in q.out
  {
    FreeIsNotHead(q, q.free[0]);
    AddShaped(q, sg, outNum, cookie, table);
    AddDisjoint(q, sg, outNum, cookie, table);
    AddCovered(q, sg, outNum, cookie, table);
    AddPhased(q, sg, outNum, cookie, table);
  }

  lemma HeadAndTail(s: seq<nat>)
    requires s != [] && Distinct(s)
    ensures Distinct(s[1..])
    ensures s[0] !in s[1..]
    ensures forall i :: i in s <==> i == s[0] || i in s[1..]
  {
    assert s == [s[0]] + s[1..];
  }

  lemma AddPhased(q: Queue, sg: seq<Sg>, outNum: nat, cookie: Cookie, table: Option<nat>)
    requires Phased(q) && CanAdd(q, sg, table) && q.free[0] !in q.out
    ensures Phased(Add(q, sg, outNum, cookie, table))
  {
    assert Add(q, sg, outNum, cookie, table).out.Keys == q.out.Keys + {q.free[0]};
  }

  lemma TakePhased(q: Queue)
    requires Phased(q) && q.avail != []
    ensures Phased(Take(q))
  {
    HeadAndTail(q.avail);
  }

  lemma CompletePhased(q: Queue, head: nat, len: uint32)
    requires Phased(q) && head in q.held
    ensures Phased(Complete(q, head, len))
  {
    assert UsedIds(Complete(q, head, len).used) == UsedIds(q.used) + [head];
  }

  lemma GetPhased(q: Queue)
    requires Phased(q) && q.used != []
    ensures q.used[0].id in q.out && Phased(Get(q))
    ensures q.used[0].id !in UsedIds(q.used)[1..]
  {
    var ids := UsedIds(q.used);
    HeadAndTail(ids);
    assert UsedIds(q.used[1..]) == ids[1..];
    assert Get(q).out.Keys == q.out.Keys - {ids[0]};
  }

  lemma ReversedMembers(s: seq<nat>)
    ensures forall i :: i in Reversed(s) <==> i in s
    ensures Distinct(s) ==> Distinct(Reversed(s))
  {
    forall i | i in s
      ensures i in Reversed(s)
    {
      var k :| 0 <= k < |s| && s[k] == i;
      assert Reversed(s)[|s| - 1 - k] == i;
    }
  }

  lemma GetShaped(q: Queue)
    requires Partitioned(q) && q.used != [] && q.used[0].id in q.out
    ensures Shaped(Get(q))
  {
    var q' := Get(q);
    var head := q.used[0].id;
    var chain := q.out[head].chain;
    assert WellFormed(q.num, q.free, head, q.out[head]);
    ReversedMembers(chain);
    forall i, j | 0 <= i < j < |q'.free|
      ensures q'.free[i] != q'.free[j]
    {
      if i < |chain| <= j {
        assert Reversed(chain)[i] in chain;
        assert q.free[j - |chain|] in q.free;
      }
    }
    forall h | h in q'.out
      ensures WellFormed(q.num, q'.free, h, q'.out[h])
    {
      assert WellFormed(q.num, q.free, h, q.out[h]);
      forall i | i in q.out[h].chain
        ensures i !in chain
      {
        assert InChain(q.out, h, i);
        assert !InChain(q.out, head, i);
      }
    }
  }

  lemma GetPartitioned(q: Queue)
    requires Partitioned(q) && q.used != [] && q.used[0].id in q.out
    ensures Partitioned(Get(q))
  {
    var q' := Get(q);
    var head := q.used[0].id;
    var chain := q.out[head].chain;
    GetShaped(q);
    ReversedMembers(chain);
    forall h, i | InChain(q'.out, h, i)
      ensures InChain(q.out, h, i)
    {}
    forall i | 0 <= i < q.num
      ensures i in q'.free || exists h :: InChain(q'.out, h, i)
    {
      if i !in q.free && i !in chain {
        var h :| InChain(q.out, h, i);
        assert InChain(q'.out, h, i);
      }
    }
  }

  lemma GetInv(q: Queue)
    requires Inv(q) && q.used != []
    ensures q.used[0].id in q.out && Inv(Get(q))
  {
    GetPhased(q);
    GetPartitioned(q);
  }
}
