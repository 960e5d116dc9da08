/** What occupied_count is worth when Harvest coalesces.  It is lowered after
    the lock has been dropped, so it may still include a completion some other
    task has taken from the used ring. */
module LostInterrupts {
  import opened Types
  import opened Counters
  import opened Pipeline
  import opened PipelineInv
  import opened PipelineSteps
  import opened PipelineTheorems
  import opened ScsiSteps
  import C = Coalesce
  import QM = QueueModel
  import QR = QueueRuns

  // ---------------------------------------------------------------------
  // The count
  // ---------------------------------------------------------------------

  /** Outstanding requests of pending DoIOs, which are not counted. */
  ghost function SyncHeads(d: Driver): set<nat>
  {
    set h | h in d.q.out && IsSyncCookie(d, d.q.out[h].cookie)
  }

  predicate IsSyncCookie(d: Driver, c: Cookie) { KeyOf(c) in d.ids && Route(d, c).None? }

  /** Tasks with a completion in hand that is still counted. */
  ghost function Holders(d: Driver): set<nat>
  {
    set u | u in d.task && IsHolder(d, d.task[u].pc)
  }

  predicate IsHolder(d: Driver, pc: Pc)
  {
    pc.Closing? || (pc.Hand? && KeyOf(pc.cookie) in d.ids && Route(d, pc.cookie).Some?)
  }

  /** The count is off by exactly the completions in hand. */
  lemma CountIs(s: State)
    requires Reachable(s)
    ensures s.d.occupied + |SyncHeads(s.d)| == |s.d.q.out| + |Holders(s.d)|
  {
    hide Reachable;
    ReachableInv(s);
    hide *;
    Counted(s);
    FlyingAreHeads(s);
    HeldAreHolders(s);
    Parts(s.r.stage);
    SyncAreHeads(s.d);
    Less(s.d.q.out.Keys, SyncHeads(s.d));
    assert |s.d.q.out.Keys| == |s.d.q.out|;
  }

  lemma SyncAreHeads(d: Driver)
    ensures SyncHeads(d) <= d.q.out.Keys
  {}

  lemma Less(a: set<nat>, b: set<nat>)
    requires b <= a
    ensures |a| == |a - b| + |b|
  {
    assert a == (a - b) + b;
  }

  ghost function FlyingKeys(stage: map<Key, Stage>): set<Key> { set k | k in stage && stage[k].Flying? }

  ghost function HeldKeys(stage: map<Key, Stage>): set<Key>
  {
    set k | k in stage && (stage[k].Carried? || stage[k].Closed?)
  }

  lemma Counted(s: State)
    requires Inv(s)
    ensures s.d.occupied == |BusyKeys(s.r.stage)|
  {}

  lemma Parts(stage: map<Key, Stage>)
    ensures |BusyKeys(stage)| == |FlyingKeys(stage)| + |HeldKeys(stage)|
  {
    assert BusyKeys(stage) == FlyingKeys(stage) + HeldKeys(stage);
  }

  lemma {:induction false} OneToOne<A, B>(m: map<A, B>)
    requires forall a, b | a in m && b in m && m[a] == m[b] :: a == b
    ensures |m.Values| == |m.Keys|
  {
    if m != map[] {
      var a :| a in m;
      var rest := m - {a};
      OneToOne(rest);
      assert m.Keys == rest.Keys + {a};
      assert m.Values == rest.Values + {m[a]};
    }
  }

  /** The outstanding head of each flying buffer. */
  ghost function HeadsOf(stage: map<Key, Stage>): (m: map<Key, nat>)
    ensures m.Keys == FlyingKeys(stage)
  {
    map k | k in FlyingKeys(stage) :: stage[k].head
  }

  lemma FlyingAreHeads(s: State)
    requires Inv(s)
    ensures |FlyingKeys(s.r.stage)| == |s.d.q.out.Keys - SyncHeads(s.d)|
  {
    hide Inv, SyncHeads, CookieOf, KeyOf;
    var m := HeadsOf(s.r.stage);
    forall k | k in m
      ensures FlyingHeadIs(s, k)
    {
      FlyingHead(s, k);
    }
    forall h | h in s.d.q.out.Keys - SyncHeads(s.d)
      ensures h in m.Values
    {
      HeadFlying(s, h);
      assert m[KeyOf(s.d.q.out[h].cookie)] == h;
    }
    assert m.Values == s.d.q.out.Keys - SyncHeads(s.d);
    OneToOne(m);
  }

  ghost predicate FlyingHeadIs(s: State, k: Key)
    requires k in s.r.stage && s.r.stage[k].Flying?
  {
    var h := s.r.stage[k].head;
    h in s.d.q.out && KeyOf(s.d.q.out[h].cookie) == k && h !in SyncHeads(s.d)
  }

  lemma FlyingHead(s: State, k: Key)
    requires Inv(s) && k in s.r.stage && s.r.stage[k].Flying?
    ensures FlyingHeadIs(s, k)
  {
    InvHeads(s);
    RouteIsRight(s, k);
    hide Inv, Route, HeadOk;
  }

  lemma HeadFlying(s: State, h: nat)
    requires Inv(s) && h in s.d.q.out && h !in SyncHeads(s.d)
    ensures var k := KeyOf(s.d.q.out[h].cookie);
            k in s.r.stage && s.r.stage[k] == Flying(s.r.stage[k].io, h)
  {
    InvHeads(s);
    hide Inv;
    var k := KeyOf(s.d.q.out[h].cookie);
    AtKey(s, k);
    RouteIsRight(s, k);
  }

  lemma InvHeads(s: State)
    requires Inv(s)
    ensures forall h | h in s.d.q.out :: HeadOk(h, s.d.q.out[h].cookie, s.r.stage)
    ensures forall k | k in s.r.stage && HeadOf(s.r.stage[k]).Some? ::
              HeadOf(s.r.stage[k]).value in s.d.q.out && s.d.q.out[HeadOf(s.r.stage[k]).value].cookie == CookieOf(k)
  {}

  /** The task that has each buffer's completion in hand. */
  ghost function HoldersOf(stage: map<Key, Stage>): (m: map<Key, nat>)
    ensures m.Keys == HeldKeys(stage)
  {
    map k | k in HeldKeys(stage) :: stage[k].holder
  }

  lemma HeldAreHolders(s: State)
    requires Inv(s)
    ensures |HeldKeys(s.r.stage)| == |Holders(s.d)|
  {
    hide Inv, Holders, InHandOf;
    var m := HoldersOf(s.r.stage);
    forall k | k in m
      ensures m[k] in s.d.task && m[k] in Holders(s.d) && InHandOf(s.d.task[m[k]].pc) == k
    {
      HeldTask(s, k);
    }
    forall u | u in Holders(s.d)
      ensures u in m.Values
    {
      InTask(s.d, u);
      HolderKey(s, u);
      assert m[InHandOf(s.d.task[u].pc)] == u;
    }
    assert m.Values == Holders(s.d);
    OneToOne(m);
  }

  lemma InTask(d: Driver, u: nat)
    requires u in Holders(d)
    ensures u in d.task
  {}

  lemma HeldTask(s: State, k: Key)
    requires Inv(s) && k in s.r.stage && (s.r.stage[k].Carried? || s.r.stage[k].Closed?)
    ensures var u := s.r.stage[k].holder; u in s.d.task && u in Holders(s.d) && InHandOf(s.d.task[u].pc) == k
  {
    hide Inv;
    AtKey(s, k);
    RouteIsRight(s, k);
  }

  lemma HolderKey(s: State, u: nat)
    requires Inv(s) && u in s.d.task && u in Holders(s.d)
    ensures var k := InHandOf(s.d.task[u].pc);
            k in s.r.stage && (s.r.stage[k].Carried? || s.r.stage[k].Closed?) && s.r.stage[k].holder == u
  {
    hide Inv;
    AtTask(s, u);
    var k := InHandOf(s.d.task[u].pc);
    AtKey(s, k);
    RouteIsRight(s, k);
  }

  /** The buffer whose completion a task has in hand. */
  function InHandOf(pc: Pc): Key
  {
    match pc
    case Hand(c) => KeyOf(c)
    case Closing(k, _, _) => k
    case _ => Key(0, 0)
  }

  // ---------------------------------------------------------------------
  // Coalescing
  // ---------------------------------------------------------------------

  /** The moment Harvest coalesces: it has found the used ring empty after
      `last` completions in all. */
  ghost function Moment(d: Driver, last: nat, event: uint16): C.State
  {
    C.State(last + |d.q.out|, last, last, d.occupied, event, false, C.Drained)
  }

  /** The outstanding requests are sure to raise an interrupt if and only if the
      tasks with a completion in hand are no more than the pending DoIOs, whose
      requests are outstanding and not counted. */
  lemma CoalescingIsRight(s: State, last: nat, event: uint16)
    requires s.d.q.used == [] && s.d.q.out != map[] && s.d.occupied >= 2 && Reachable(s)
    ensures C.OneByOne(C.Next(Moment(s.d, last, event), C.CoalesceStep), |s.d.q.out|).pending
       <==> |Holders(s.d)| <= |SyncHeads(s.d)|
  {
    CountIs(s);
    SmallNumbers(s);
    hide Reachable, Holders, SyncHeads, C.OneByOne;
    C.CoalescingNeedsTrueCount(Moment(s.d, last, event));
  }

  /** With no DoIO pending: if and only if no task has a completion in hand. */
  lemma CoalescingIsRightAlone(s: State, last: nat, event: uint16)
    requires s.d.q.used == [] && s.d.q.out != map[] && s.d.occupied >= 2
    requires forall u | u in s.d.task :: s.d.task[u].sync.NotSync?
    requires Reachable(s)
    ensures C.OneByOne(C.Next(Moment(s.d, last, event), C.CoalesceStep), |s.d.q.out|).pending
       <==> forall u | u in s.d.task :: !IsHolder(s.d, s.d.task[u].pc)
  {
    CoalescingIsRight(s, last, event);
    NoSyncHeads(s);
    hide Reachable, IsHolder, C.OneByOne;
    assert Holders(s.d) == {} <==> forall u | u in s.d.task :: !IsHolder(s.d, s.d.task[u].pc) by {
      if u :| u in s.d.task && IsHolder(s.d, s.d.task[u].pc) {
        assert u in Holders(s.d);
      }
    }
  }

  lemma NoSyncHeads(s: State)
    requires forall u | u in s.d.task :: s.d.task[u].sync.NotSync?
    requires Reachable(s)
    ensures SyncHeads(s.d) == {}
  {
    hide Reachable;
    ReachableInv(s);
    InvHeads(s);
    hide Inv;
    forall h | h in s.d.q.out
      ensures h !in SyncHeads(s.d)
    {
      var k := KeyOf(s.d.q.out[h].cookie);
      AtKey(s, k);
      RouteIsRight(s, k);
    }
  }

  /** Sixteen slots of at most eight units. */
  lemma SmallNumbers(s: State)
    requires Reachable(s)
    ensures s.d.occupied <= MAX_UNITS * MAX_INFLIGHT && |s.d.q.out| <= MAX_UNITS * MAX_INFLIGHT
  {
    hide Reachable;
    ReachableInv(s);
    hide *;
    Counted(s);
    FewKeys(s);
    FewHeads(s);
    BusyAreKeys(s.r.stage);
    QR.Subset(BusyKeys(s.r.stage), s.r.stage.Keys);
  }

  lemma BusyAreKeys(stage: map<Key, Stage>)
    ensures BusyKeys(stage) <= stage.Keys
  {}

  lemma FewKeys(s: State)
    requires Inv(s)
    ensures |s.r.stage.Keys| <= MAX_UNITS * MAX_INFLIGHT
  {
    hide Inv;
    forall k | k in s.r.stage
      ensures Numbered(k)
    {
      AtKey(s, k);
    }
    FewNumbered(s.r.stage.Keys);
  }

  predicate Numbered(k: Key) { k.unit < MAX_UNITS && k.slot < MAX_INFLIGHT }

  function NumberOf(k: Key): nat { 16 * k.unit + k.slot }

  lemma FewNumbered(keys: set<Key>)
    requires forall k | k in keys :: Numbered(k)
    ensures |keys| <= MAX_UNITS * MAX_INFLIGHT
  {
    var m: map<Key, nat> := map k | k in keys :: NumberOf(k);
    assert m.Keys == keys;
    OneToOne(m);
    FewNumbers(m.Values, MAX_UNITS * MAX_INFLIGHT);
  }

  lemma FewNumbers(numbers: set<nat>, n: nat)
    requires forall i | i in numbers :: i < n
    ensures |numbers| <= n
  {
    QR.BelowIs(n);
    QR.Subset(numbers, QR.Below(n));
  }

  lemma FewHeads(s: State)
    requires Inv(s)
    ensures |s.d.q.out| <= |s.r.stage.Keys|
  {
    var m: map<nat, Key> := map h | h in s.d.q.out :: KeyOf(s.d.q.out[h].cookie);
    HeadsInv(s);
    hide Inv;
    OneToOne(m);
    assert m.Keys == s.d.q.out.Keys;
    assert m.Values <= s.r.stage.Keys;
    QR.Subset(m.Values, s.r.stage.Keys);
  }
}
