/** What holds of the queue over every run of AddBuf, the device and GetBuf. */
module QueueRuns {
  import opened Types
  import opened QueueModel

  // ---------------------------------------------------------------------
  // Counting
  // ---------------------------------------------------------------------

  ghost function Members(s: seq<nat>): set<nat> { set i | i in s }

  lemma {:induction false} DistinctSize(s: seq<nat>)
    requires Distinct(s)
    ensures |Members(s)| == |s|
  {
    if s == [] {
      assert Members(s) == {};
    } else {
      var init, last := s[..|s| - 1], s[|s| - 1];
      DistinctSize(init);
      assert s == init + [last];
      assert Members(s) == Members(init) + {last};
    }
  }

  ghost function Below(n: nat): set<nat> { if n == 0 then {} else Below(n - 1) + {n - 1} }

  lemma {:induction false} BelowIs(n: nat)
    ensures forall i: nat :: i in Below(n) <==> i < n
    ensures |Below(n)| == n
  {
    if n > 0 {
      BelowIs(n - 1);
    }
  }

  /** The descriptors in the chains of heads below `n`, and their number. */
  ghost function ChainNodes(out: map<nat, Request>, n: nat): set<nat>
  {
    if n == 0 then {}
    else ChainNodes(out, n - 1) + if n - 1 in out then Members(out[n - 1].chain) else {}
  }

  ghost function ChainTotal(out: map<nat, Request>, n: nat): nat
  {
    if n == 0 then 0
    else ChainTotal(out, n - 1) + if n - 1 in out then |out[n - 1].chain| else 0
  }

  lemma {:induction false} ChainNodesAre(out: map<nat, Request>, n: nat)
    ensures forall i :: i in ChainNodes(out, n) <==> exists h | 0 <= h < n :: InChain(out, h, i)
  {
    if n > 0 {
      ChainNodesAre(out, n - 1);
      forall i
        ensures i in ChainNodes(out, n) <==> exists h | 0 <= h < n :: InChain(out, h, i)
      {
        if InChain(out, n - 1, i) {
          assert i in ChainNodes(out, n);
        }
      }
    }
  }

  lemma {:induction false} ChainNodesSize(out: map<nat, Request>, n: nat)
    requires Disjoint(out)
    requires forall h | h in out :: Distinct(out[h].chain)
    ensures |ChainNodes(out, n)| == ChainTotal(out, n)
  {
    if n > 0 {
      var h := n - 1;
      ChainNodesSize(out, h);
      if h in out {
        DistinctSize(out[h].chain);
        ChainNodesAre(out, h);
        forall i | InChain(out, h, i)
          ensures i !in ChainNodes(out, h)
        {}
        assert ChainNodes(out, h) !! Members(out[h].chain) by {
          assert forall i | i in Members(out[h].chain) :: InChain(out, h, i);
        }
      }
    }
  }

  /** Heads and free nodes are indices of the table. */
  lemma HeadsInRange(q: Queue)
    requires Shaped(q)
    ensures forall h | h in q.out :: h < q.num
  {
    forall h | h in q.out
      ensures h < q.num
    {
      assert WellFormed(q.num, q.free, h, q.out[h]);
      assert q.out[h].chain[0] in q.out[h].chain;
    }
  }

  /** The table is the disjoint union of the free list and the outstanding
      chains, and the counts add up. */
  lemma PartitionTheorem(q: Queue)
    requires Partitioned(q)
    ensures Members(q.free) + ChainNodes(q.out, q.num) == Below(q.num)
    ensures Members(q.free) !! ChainNodes(q.out, q.num)
    ensures |q.free| + ChainTotal(q.out, q.num) == q.num
  {
    BelowIs(q.num);
    DistinctSize(q.free);
    ChainNodesSize(q.out, q.num);
    forall i: nat
      ensures i in ChainNodes(q.out, q.num) <==> i < q.num && i !in q.free
    {
      NodePlace(q, i);
    }
    FreeBelow(q);
    hide *;
    SplitsBelow(q.free, ChainNodes(q.out, q.num), q.num);
  }

  /** A node is in some chain exactly if it is in the table and not free. */
  lemma NodePlace(q: Queue, i: nat)
    requires Partitioned(q)
    ensures i in ChainNodes(q.out, q.num) <==> i < q.num && i !in q.free
  {
    HeadsInRange(q);
    ChainNodesAre(q.out, q.num);
    hide Disjoint, ChainNodes;
    if h: nat :| InChain(q.out, h, i) {
      assert WellFormed(q.num, q.free, h, q.out[h]);
    }
  }

  lemma FreeBelow(q: Queue)
    requires Partitioned(q)
    ensures forall i | i in q.free :: i < q.num
  {}

  lemma SplitsBelow(free: seq<nat>, nodes: set<nat>, num: nat)
    requires forall i: nat :: i in nodes <==> i < num && i !in free
    requires forall i | i in free :: i < num
    ensures Members(free) + nodes == Below(num) && Members(free) !! nodes
    ensures |Members(free)| + |nodes| == num
  {
    BelowIs(num);
  }

  /** The three phases account for every outstanding request, and there are
      never more of those than descriptors in use: neither ring can overrun. */
  lemma Capacity(q: Queue)
    requires Inv(q)
    ensures |q.avail| + |q.held| + |q.used| == |q.out|
    ensures |q.out| + |q.free| <= q.num
  {
    PhaseSizes(q.out.Keys, q.avail, q.held, UsedIds(q.used));
    HeadsAndFree(q);
  }

  lemma RoomToPost(q: Queue, sg: seq<Sg>, table: Option<nat>)
    requires Inv(q) && CanAdd(q, sg, table)
    ensures |q.avail| < q.num && q.free[0] < q.num
  {
    Capacity(q);
    assert q.free[0] in q.free;
  }

  lemma RoomToComplete(q: Queue, head: nat)
    requires Inv(q) && head in q.held
    ensures |q.used| < q.num && head < q.num && head in q.out
  {
    Capacity(q);
    HeadsInRange(q);
  }

  lemma HeadsAndFree(q: Queue)
    requires Shaped(q)
    ensures |q.out| + |q.free| <= q.num
  {
    var heads, free := q.out.Keys, Members(q.free);
    HeadsInRange(q);
    BelowIs(q.num);
    DistinctSize(q.free);
    forall i | i in free
      ensures i !in heads
    {
      FreeIsNotHead(q, i);
    }
    Subset(heads + free, Below(q.num));
    assert |heads + free| == |heads| + |free|;
  }

  lemma PhaseSizes(heads: set<nat>, avail: seq<nat>, held: set<nat>, used: seq<nat>)
    requires InOnePhase(heads, avail, held, used)
    ensures |avail| + |held| + |used| == |heads|
  {
    DistinctSize(avail);
    DistinctSize(used);
    assert Members(avail) + held + Members(used) == heads;
  }

  lemma Subset<T>(a: set<T>, b: set<T>)
    requires a <= b
    ensures |a| <= |b|
  {
    assert b == a + (b - a);
  }

  // ---------------------------------------------------------------------
  // Runs
  // ---------------------------------------------------------------------

  datatype Step =
    | AddStep(sg: seq<Sg>, outNum: nat, cookie: Cookie, table: Option<nat>)
    | TakeStep
    | CompleteStep(head: nat, len: uint32)
    | GetStep

  /** The queue with the cookies that have gone in and come out. */
  datatype History = History(q: Queue, given: multiset<Cookie>, returned: multiset<Cookie>)

  predicate Enabled(q: Queue, s: Step)
  {
    match s
    case AddStep(sg, _, _, table) => CanAdd(q, sg, table)
    case TakeStep => q.avail != []
    case CompleteStep(head, _) => head in q.held
    case GetStep => q.used != [] && q.used[0].id in q.out
  }

  function Next(h: History, s: Step): History
    requires Enabled(h.q, s)
  {
    match s
    case AddStep(sg, outNum, cookie, table) =>
      h.(q := Add(h.q, sg, outNum, cookie, table), given := h.given + multiset{cookie})
    case TakeStep => h.(q := Take(h.q))
    case CompleteStep(head, len) => h.(q := Complete(h.q, head, len))
    case GetStep => h.(q := Get(h.q), returned := h.returned + multiset{h.q.out[h.q.used[0].id].cookie})
  }

  ghost predicate IsRun(num: nat, run: seq<History>)
  {
    && run != []
    && run[0] == History(Init(num), multiset{}, multiset{})
    && forall k | 0 <= k < |run| - 1 :: Follows(run, k)
  }

  ghost predicate Follows(run: seq<History>, k: nat)
    requires k + 1 < |run|
  {
    exists s :: Enabled(run[k].q, s) && run[k + 1] == Next(run[k], s)
  }

  /** The cookies of the outstanding heads below `n`. */
  ghost function CookiesBelow(out: map<nat, Request>, n: nat): multiset<Cookie>
  {
    if n == 0 then multiset{}
    else CookiesBelow(out, n - 1) + if n - 1 in out then multiset{out[n - 1].cookie} else multiset{}
  }

  ghost function Outstanding(q: Queue): multiset<Cookie> { CookiesBelow(q.out, q.num) }

  lemma {:induction false} CookiesOfAdded(out: map<nat, Request>, head: nat, r: Request, n: nat)
    requires head !in out
    ensures CookiesBelow(out[head := r], n)
         == CookiesBelow(out, n) + if head < n then multiset{r.cookie} else multiset{}
  {
    if n > 0 {
      CookiesOfAdded(out, head, r, n - 1);
    }
  }

  /** AddBuf adds exactly its cookie to the outstanding ones, GetBuf removes
      exactly the one it returns. */
  lemma AddOutstanding(q: Queue, sg: seq<Sg>, outNum: nat, cookie: Cookie, table: Option<nat>)
    requires Inv(q) && CanAdd(q, sg, table)
    ensures Outstanding(Add(q, sg, outNum, cookie, table)) == Outstanding(q) + multiset{cookie}
  {
    var head := q.free[0];
    FreeIsNotHead(q, head);
    CookiesOfAdded(q.out, head, Add(q, sg, outNum, cookie, table).out[head], q.num);
  }

  lemma GetOutstanding(q: Queue)
    requires Inv(q) && q.used != [] && q.used[0].id in q.out
    ensures Outstanding(q) == Outstanding(Get(q)) + multiset{q.out[q.used[0].id].cookie}
  {
    var head := q.used[0].id;
    HeadsInRange(q);
    CookiesOfAdded(q.out - {head}, head, q.out[head], q.num);
    assert (q.out - {head})[head := q.out[head]] == q.out;
  }

  /** One step keeps the invariant and the balance of cookies. */
  lemma StepConserves(h: History, s: Step)
    requires Inv(h.q) && Enabled(h.q, s)
    requires h.given == h.returned + Outstanding(h.q)
    ensures var h' := Next(h, s); Inv(h'.q) && h'.q.num == h.q.num && h'.given == h'.returned + Outstanding(h'.q)
  {
    var q := h.q;
    match s
    case AddStep(sg, outNum, cookie, table) =>
      AddInv(q, sg, outNum, cookie, table);
      AddOutstanding(q, sg, outNum, cookie, table);
    case TakeStep =>
      TakePhased(q);
    case CompleteStep(head, len) =>
      CompletePhased(q, head, len);
    case GetStep =>
      GetInv(q);
      GetOutstanding(q);
  }

  /** Over every run, however direct and indirect requests mix and in whatever
      order the device completes them: the table stays partitioned, the cookies
      given are those returned plus those outstanding, and the rings hold. */
  lemma {:induction false} RunTheorem(num: nat, run: seq<History>)
    requires IsRun(num, run)
    ensures var h := run[|run| - 1];
            && Inv(h.q) && h.q.num == num
            && h.given == h.returned + Outstanding(h.q)
            && |h.q.free| + ChainTotal(h.q.out, num) == num
            && |h.q.avail| + |h.q.held| + |h.q.used| <= num
  {
    var k := |run| - 1;
    if k == 0 {
      InitInv(num);
      NoCookies(num);
    } else {
      var before := run[..k];
      assert forall j | 0 <= j < k - 1 :: Follows(run, j) ==> Follows(before, j);
      RunTheorem(num, before);
      assert Follows(run, k - 1);
      var s :| Enabled(run[k - 1].q, s) && run[k] == Next(run[k - 1], s);
      StepConserves(run[k - 1], s);
    }
    PartitionTheorem(run[k].q);
    Capacity(run[k].q);
  }

  lemma {:induction false} NoCookies(n: nat)
    ensures CookiesBelow(map[], n) == multiset{}
  {
    if n > 0 {
      NoCookies(n - 1);
    }
  }
}
