/** What the pipeline promises over every run. */
module PipelineTheorems {
  import opened Types
  import opened Pipeline
  import opened PipelineInv
  import opened PipelineSteps
  import QM = QueueModel
  import QR = QueueRuns

  // ---------------------------------------------------------------------
  // Runs
  // ---------------------------------------------------------------------

  /** After preallocate_unit_dma, before any request: every slot on its unit's
      free list, in order. */
  ghost predicate Initial(s: State, units: set<nat>, num: nat)
  {
    var d := s.d;
    && d.units == units && Domains(d, s.r.stage)
    && d.q == QM.Init(num)
    && (forall u | u in units ::
          d.free[u] == QM.Init(MAX_INFLIGHT).free && d.count[u] == 0 && d.pending[u].None?
          && d.task[u] == Task(Ready, NotSync))
    && (forall k | k in s.r.stage :: s.r.stage[k].Idle? && d.slots[k] == EMPTY && d.resp[k] == Blank && d.ids[k] == 0)
    && d.occupied == 0 && d.mask == {} && d.replies == [] && d.answers == []
    && s.r == Record(s.r.stage, map[], map[], {}, {})
  }

  ghost function InitialDriver(units: set<nat>, keys: set<Key>, num: nat): Driver
  {
    Driver(units, QM.Init(num), Everywhere(units, QM.Init(MAX_INFLIGHT).free),
           Everywhere(keys, EMPTY), Everywhere(keys, 0), Everywhere(keys, Blank),
           Everywhere(units, 0), 0, {}, Everywhere(units, None),
           Everywhere(units, Task(Ready, NotSync)), [], [])
  }

  lemma InitialExists(units: set<nat>, num: nat) returns (s: State, keys: set<Key>)
    requires forall u | u in units :: u < MAX_UNITS
    ensures Initial(s, units, num) && s.d == InitialDriver(units, keys, num)
    ensures forall k :: k in keys <==> Legal(units, k)
  {
    hide QM.Init, Everywhere;
    keys := LegalKeys(units);
    s := State(InitialDriver(units, keys, num), Record(Everywhere(keys, Idle), map[], map[], {}, {}));
  }

  lemma LegalKeys(units: set<nat>) returns (keys: set<Key>)
    ensures forall k :: k in keys <==> Legal(units, k)
  {
    QR.BelowIs(MAX_INFLIGHT);
    keys := set u, i | u in units && i in QR.Below(MAX_INFLIGHT) :: Key(u, i);
    forall k | Legal(units, k)
      ensures k in keys
    {
      assert k == Key(k.unit, k.slot);
    }
  }

  lemma InitialInv(s: State, units: set<nat>, num: nat)
    requires Initial(s, units, num)
    ensures Inv(s)
  {
    InitialLists(s, units, num);
    InitialBuffers(s, units, num);
    InitialRecord(s, units, num);
    NoneBusy(s.d.count, s.r.stage);
    hide ListOk, SlotsOk, QueueOk, TasksOk, PendingOk, AnswersOk, RepliesOk, HomesOk, CountsOk, LogOk, SyncLogOk,
         QM.Init;
  }

  lemma InitialRecord(s: State, units: set<nat>, num: nat)
    requires Initial(s, units, num)
    ensures RepliesOk(s.d.task, s.r.home, s.r.done, s.r.accepted)
    ensures HomesOk(s.r.stage, s.d.task, s.r.home, s.r.done, s.r.accepted, s.r.replied)
    ensures LogOk(s.d.replies, s.r.replied, s.r.done) && SyncLogOk(s.d.answers, s.r.done)
  {}

  lemma InitialBuffers(s: State, units: set<nat>, num: nat)
    requires Initial(s, units, num)
    ensures SlotsOk(s.d.slots, s.d.ids, s.r.stage) && QueueOk(s.d.q, s.r.stage) && TasksOk(s.d.task, s.r.stage)
    ensures PendingOk(s.d.pending, s.r.stage) && AnswersOk(s.d.resp, QM.UsedIds(s.d.q.used), s.r.stage, s.r.done)
  {
    QM.InitInv(num);
    hide QM.Inv;
  }

  lemma NoneBusy(count: map<nat, nat>, stage: map<Key, Stage>)
    requires forall k | k in stage :: stage[k].Idle?
    requires forall u | u in count :: count[u] == 0
    ensures CountsOk(count, 0, {}, stage)
  {
    assert BusyKeys(stage) == {};
    forall u
      ensures BusyOf(stage, u) == {}
    {}
  }

  lemma InitialLists(s: State, units: set<nat>, num: nat)
    requires Initial(s, units, num)
    ensures ListOk(s.d.free, s.r.stage)
  {
    var all := QM.Init(MAX_INFLIGHT).free;
    forall i: nat | i < MAX_INFLIGHT
      ensures i in all
    {
      assert all[i] == i;
    }
  }

  lemma StepKeepsInv(s: State, step: Step)
    requires Inv(s) && Allowed(s, step)
    ensures Inv(NextState(s, step))
  {
    hide Inv, NextState, Enabled;
    match step
    case Pop(u, io) => PopKeepsInv(s, u, io);
    case Abandon(u) => AbandonKeepsInv(s, u);
    case Post(u, sg, outNum, table) => PostKeepsInv(s, u, sg, outNum, table);
    case DeviceTake => TakeKeepsInv(s);
    case DeviceComplete(head, len, value) => CompleteKeepsInv(s, head, len, value);
    case GetBuf(u) => GetBufKeepsInv(s, u);
    case Recognise(u) => RecogniseKeepsInv(s, u);
    case Close(u) => CloseKeepsInv(s, u);
    case SendReply(u) => SendReplyKeepsInv(s, u);
    case SyncStart(u, io, sg, outNum, table) => SyncStartKeepsInv(s, u, io, sg, outNum, table);
    case SyncFail(u) => SyncFailKeepsInv(s, u);
    case SyncPickup(u) => SyncPickupKeepsInv(s, u);
    case SyncFinish(u) => SyncFinishKeepsInv(s, u);
  }

  ghost predicate Follows(run: seq<State>, k: nat)
    requires k + 1 < |run|
  {
    exists step :: Allowed(run[k], step) && run[k + 1] == NextState(run[k], step)
  }

  /** Any interleaving of the unit tasks and the device. */
  ghost predicate IsRun(run: seq<State>, units: set<nat>, num: nat)
  {
    run != [] && Initial(run[0], units, num) && forall k | 0 <= k < |run| - 1 :: Follows(run, k)
  }

  lemma {:induction false} RunInv(run: seq<State>, units: set<nat>, num: nat)
    requires IsRun(run, units, num)
    ensures Inv(run[|run| - 1])
  {
    hide Inv, NextState, Enabled, Initial;
    var k := |run| - 1;
    if k == 0 {
      InitialInv(run[0], units, num);
    } else {
      var before := run[..k];
      assert forall j | 0 <= j < k - 1 :: Follows(run, j) ==> Follows(before, j);
      RunInv(before, units, num);
      assert Follows(run, k - 1);
      var step :| Allowed(run[k - 1], step) && run[k] == NextState(run[k - 1], step);
      StepKeepsInv(run[k - 1], step);
    }
  }

  /** The states the pipeline can get into. */
  ghost predicate Reachable(s: State)
  {
    exists run, units, num :: IsRun(run, units, num) && run[|run| - 1] == s
  }

  lemma ReachableInv(s: State)
    requires Reachable(s)
    ensures Inv(s)
  {
    hide Inv;
    var run, units, num :| IsRun(run, units, num) && run[|run| - 1] == s;
    RunInv(run, units, num);
  }

  /** Whatever the interleaving, the order of completions and the task that
      harvests: no request is replied twice, each reply follows the device's
      completion of that very request and carries the answer the device gave to
      it, and so does each result a DoIO reads. */
  lemma ReplySafety(run: seq<State>, units: set<nat>, num: nat)
    requires IsRun(run, units, num)
    ensures var s := run[|run| - 1];
            && (forall i, j | 0 <= i < j < |s.d.replies| :: s.d.replies[i].io != s.d.replies[j].io)
            && (forall i | 0 <= i < |s.d.replies| ::
                  var reply := s.d.replies[i];
                  reply.io in s.r.accepted && reply.io in s.r.done && reply.answer == s.r.done[reply.io])
            && (forall i | 0 <= i < |s.d.answers| ::
                  s.d.answers[i].io in s.r.done && s.d.answers[i].answer == s.r.done[s.d.answers[i].io])
  {
    hide Domains, ListOk, SlotsOk, QueueOk, TasksOk, PendingOk, AnswersOk, RepliesOk, CountsOk, NextState;
    RunInv(run, units, num);
  }

  // ---------------------------------------------------------------------
  // Nothing is lost
  // ---------------------------------------------------------------------

  /** At any moment an accepted request is at a busy slot, in the hands of a
      task about to reply it, or replied. */
  lemma AcceptedIsSomewhere(s: State, io: Io)
    requires io in s.r.accepted && Reachable(s)
    ensures io in s.r.home
    ensures match s.r.home[io]
            case AtSlot(k) => k in s.d.slots && s.d.slots[k].ioreq == Some(io)
            case AtReply(u) => u in s.d.task && s.d.task[u].pc.Replying? && s.d.task[u].pc.io == io
            case Gone => exists i | 0 <= i < |s.d.replies| :: s.d.replies[i].io == io
  {
    hide Reachable;
    ReachableInv(s);
    hide *;
    AcceptedInv(s, io);
  }

  lemma AcceptedInv(s: State, io: Io)
    requires Inv(s) && io in s.r.accepted
    ensures io in s.r.home
    ensures match s.r.home[io]
            case AtSlot(k) => k in s.d.slots && s.d.slots[k].ioreq == Some(io)
            case AtReply(u) => u in s.d.task && s.d.task[u].pc.Replying? && s.d.task[u].pc.io == io
            case Gone => exists i | 0 <= i < |s.d.replies| :: s.d.replies[i].io == io
  {
    hide ListOk, QueueOk, TasksOk, PendingOk, AnswersOk, RepliesOk, CountsOk, SyncLogOk;
    assert HomeOk(io, s.r.home[io], s.r.stage, s.d.task, s.r.accepted);
    match s.r.home[io]
    case AtSlot(k) => AtKey(s, k);
    case _ =>
  }

  ghost predicate Quiet(d: Driver)
  {
    d.q.out == map[] && forall u | u in d.task :: d.task[u] == Task(Ready, NotSync)
  }

  /** When the queue has drained and every task is back in its event loop,
      every accepted request has been replied, every slot is free, the counters
      read zero and no cookie is left stashed. */
  lemma QuietMeansDone(s: State)
    requires Quiet(s.d) && Reachable(s)
    ensures s.r.replied == s.r.accepted
    ensures forall k | k in s.d.slots :: s.d.slots[k] == EMPTY && k.unit in s.d.free && k.slot in s.d.free[k.unit]
    ensures s.d.occupied == 0 && forall u | u in s.d.count :: s.d.count[u] == 0
    ensures forall u | u in s.d.pending :: s.d.pending[u].None?
  {
    hide Reachable;
    ReachableInv(s);
    hide *;
    QuietInv(s);
  }

  lemma QuietInv(s: State)
    requires Inv(s) && Quiet(s.d)
    ensures s.r.replied == s.r.accepted
    ensures forall k | k in s.d.slots :: s.d.slots[k] == EMPTY && k.unit in s.d.free && k.slot in s.d.free[k.unit]
    ensures s.d.occupied == 0 && forall u | u in s.d.count :: s.d.count[u] == 0
    ensures forall u | u in s.d.pending :: s.d.pending[u].None?
  {
    hide QueueOk, TasksOk, AnswersOk, RepliesOk, LogOk, SyncLogOk;
    AllIdle(s);
    assert BusyKeys(s.r.stage) == {};
    assert forall u :: BusyOf(s.r.stage, u) == {};
    forall io | io in s.r.accepted
      ensures io in s.r.replied
    {
      assert HomeOk(io, s.r.home[io], s.r.stage, s.d.task, s.r.accepted);
    }
  }

  lemma AllIdle(s: State)
    requires Inv(s) && Quiet(s.d)
    ensures forall k | k in s.r.stage :: s.r.stage[k].Idle?
  {
    hide Domains, ListOk, SlotsOk, TasksOk, PendingOk, AnswersOk, RepliesOk, HomesOk, CountsOk, LogOk, SyncLogOk;
    forall k | k in s.r.stage
      ensures s.r.stage[k].Idle?
    {
      AtKey(s, k);
    }
  }

  // ---------------------------------------------------------------------
  // Heads and buffers
  // ---------------------------------------------------------------------

  /** Outstanding heads are in bijection with the buffers in flight: each head
      carries a buffer of its own, and each submitted slot whose completion has
      not been harvested has a head. */
  lemma HeadsAreBuffers(s: State)
    requires Reachable(s)
    ensures forall h, g | h in s.d.q.out && g in s.d.q.out && s.d.q.out[h].cookie == s.d.q.out[g].cookie :: h == g
    ensures forall h | h in s.d.q.out ::
              var k := KeyOf(s.d.q.out[h].cookie);
              s.d.q.out[h].cookie == CookieOf(k) && k in s.r.stage && HeadOf(s.r.stage[k]) == Some(h)
    ensures forall k | k in s.r.stage && HeadOf(s.r.stage[k]).Some? ::
              HeadOf(s.r.stage[k]).value in s.d.q.out && s.d.q.out[HeadOf(s.r.stage[k]).value].cookie == CookieOf(k)
  {
    hide Reachable;
    ReachableInv(s);
    hide *;
    HeadsInv(s);
  }

  lemma HeadsInv(s: State)
    requires Inv(s)
    ensures forall h, g | h in s.d.q.out && g in s.d.q.out && s.d.q.out[h].cookie == s.d.q.out[g].cookie :: h == g
    ensures forall h | h in s.d.q.out ::
              var k := KeyOf(s.d.q.out[h].cookie);
              s.d.q.out[h].cookie == CookieOf(k) && k in s.r.stage && HeadOf(s.r.stage[k]) == Some(h)
    ensures forall k | k in s.r.stage && HeadOf(s.r.stage[k]).Some? ::
              HeadOf(s.r.stage[k]).value in s.d.q.out && s.d.q.out[HeadOf(s.r.stage[k]).value].cookie == CookieOf(k)
  {
    assert forall h | h in s.d.q.out :: HeadOk(h, s.d.q.out[h].cookie, s.r.stage);
  }

  // ---------------------------------------------------------------------
  // Slots and counters
  // ---------------------------------------------------------------------

  /** The slots of a unit are those on its free list, the one its task is
      filling if it is, and those counted by inflight_count: sixteen in all. */
  lemma SlotConservation(s: State, u: nat)
    requires At(s.d, u) && Reachable(s)
    ensures |s.d.free[u]| + (if s.d.task[u].pc.Filling? then 1 else 0) + s.d.count[u] == MAX_INFLIGHT
  {
    hide Reachable;
    ReachableInv(s);
    hide *;
    ConservedInv(s, u);
  }

  lemma ConservedInv(s: State, u: nat)
    requires Inv(s) && u in s.d.units
    ensures |s.d.free[u]| + (if s.d.task[u].pc.Filling? then 1 else 0) + s.d.count[u] == MAX_INFLIGHT
  {
    SlotPartition(s, u);
    hide Inv;
    var keys := BusyOf(s.r.stage, u);
    var free, filling := QR.Members(s.d.free[u]), FillingSlot(s.d.task[u].pc);
    var busy := set k | k in keys :: k.slot;
    SlotImage(keys, u);
    QR.DistinctSize(s.d.free[u]);
    QR.BelowIs(MAX_INFLIGHT);
  }

  ghost function FillingSlot(pc: Pc): set<nat> { if pc.Filling? then {pc.slot} else {} }

  /** Each slot of a unit is in one of three places. */
  lemma SlotPlace(s: State, u: nat, i: nat)
    requires Inv(s) && u in s.d.units && i < MAX_INFLIGHT
    ensures u in s.d.free && u in s.d.task && Key(u, i) in s.r.stage
    ensures i in s.d.free[u] <==> OnList(s.r.stage[Key(u, i)])
    ensures i in FillingSlot(s.d.task[u].pc) <==> s.r.stage[Key(u, i)].Reserved?
    ensures i in (set k | k in BusyOf(s.r.stage, u) :: k.slot) <==> Busy(s.r.stage[Key(u, i)])
  {
    hide SlotsOk, QueueOk, PendingOk, AnswersOk, RepliesOk, HomesOk, CountsOk, LogOk, SyncLogOk;
    var k := Key(u, i);
    AtTask(s, u);
    assert k in s.r.stage;
    assert StageOk(k, s.r.stage[k], s.d.task);
    assert Busy(s.r.stage[k]) <==> k in BusyOf(s.r.stage, u);
  }

  lemma SlotPartition(s: State, u: nat)
    requires Inv(s) && u in s.d.units
    ensures u in s.d.free && u in s.d.task && u in s.d.count
    ensures QM.Distinct(s.d.free[u]) && s.d.count[u] == |BusyOf(s.r.stage, u)|
    ensures var free, filling := QR.Members(s.d.free[u]), FillingSlot(s.d.task[u].pc);
            var busy := set k | k in BusyOf(s.r.stage, u) :: k.slot;
            && free + filling + busy == QR.Below(MAX_INFLIGHT)
            && free !! filling && free !! busy && filling !! busy
  {
    SlotRange(s, u);
    hide Inv, BusyOf, OnList, Busy, FillingSlot;
    var busy := set k | k in BusyOf(s.r.stage, u) :: k.slot;
    forall i: nat | i < MAX_INFLIGHT
      ensures OneOf(i, s.d.free[u], FillingSlot(s.d.task[u].pc), busy)
    {
      SlotPlace(s, u, i);
      OnePlace(s.r.stage[Key(u, i)]);
    }
    ThreeWays(s.d.free[u], FillingSlot(s.d.task[u].pc), busy, MAX_INFLIGHT);
  }

  predicate OneOf(i: nat, a: seq<nat>, b: set<nat>, c: set<nat>)
  {
    (i in a || i in b || i in c) && !(i in a && i in b) && !(i in a && i in c) && !(i in b && i in c)
  }

  lemma ThreeWays(a: seq<nat>, b: set<nat>, c: set<nat>, n: nat)
    requires forall i: nat | i < n :: OneOf(i, a, b, c)
    requires forall i | i in a || i in b || i in c :: i < n
    ensures QR.Members(a) + b + c == QR.Below(n)
    ensures QR.Members(a) !! b && QR.Members(a) !! c && b !! c
  {
    QR.BelowIs(n);
    forall i: nat
      ensures i < n <==> i in QR.Members(a) || i in b || i in c
      ensures i < n ==> OneOf(i, a, b, c)
    {
      assert i < n ==> OneOf(i, a, b, c);
    }
  }

  lemma OnePlace(s: Stage)
    ensures OnList(s) || s.Reserved? || Busy(s)
    ensures !(OnList(s) && s.Reserved?) && !(OnList(s) && Busy(s)) && !(s.Reserved? && Busy(s))
  {}

  lemma SlotRange(s: State, u: nat)
    requires Inv(s) && u in s.d.units
    ensures u in s.d.free && u in s.d.task && u in s.d.count
    ensures QM.Distinct(s.d.free[u]) && s.d.count[u] == |BusyOf(s.r.stage, u)|
    ensures forall i | i in s.d.free[u] || i in FillingSlot(s.d.task[u].pc) :: i < MAX_INFLIGHT
    ensures forall k | k in BusyOf(s.r.stage, u) :: k.slot < MAX_INFLIGHT
  {
    hide SlotsOk, QueueOk, PendingOk, AnswersOk, RepliesOk, HomesOk, LogOk, SyncLogOk;
    AtTask(s, u);
  }

  lemma {:induction false} SlotImage(keys: set<Key>, u: nat)
    requires forall k | k in keys :: k.unit == u
    ensures |set k | k in keys :: k.slot| == |keys|
  {
    if keys != {} {
      var k :| k in keys;
      var rest := keys - {k};
      SlotImage(rest, u);
      assert (set j | j in keys :: j.slot) == (set j | j in rest :: j.slot) + {k.slot};
      assert forall j | j in rest :: j.slot != k.slot;
    }
  }

  ghost function CountBelow(count: map<nat, nat>, n: nat): nat
  {
    if n == 0 then 0 else CountBelow(count, n - 1) + if n - 1 in count then count[n - 1] else 0
  }

  ghost function BusyBelow(stage: map<Key, Stage>, n: nat): set<Key>
  {
    set k | k in stage && Busy(stage[k]) && k.unit < n
  }

  lemma {:induction false} CountBelowIs(s: State, n: nat)
    requires Inv(s)
    ensures CountBelow(s.d.count, n) == |BusyBelow(s.r.stage, n)|
  {
    hide ListOk, SlotsOk, QueueOk, TasksOk, PendingOk, AnswersOk, RepliesOk, HomesOk, LogOk, SyncLogOk;
    if n == 0 {
      assert BusyBelow(s.r.stage, 0) == {};
    } else {
      CountBelowIs(s, n - 1);
      assert BusyBelow(s.r.stage, n) == BusyBelow(s.r.stage, n - 1) + BusyOf(s.r.stage, n - 1);
      if n - 1 !in s.d.count {
        assert BusyOf(s.r.stage, n - 1) == {};
      }
    }
  }

  /** occupied_count is the sum of the units' inflight_counts. */
  lemma OccupiedIsSum(s: State)
    requires Reachable(s)
    ensures s.d.occupied == CountBelow(s.d.count, MAX_UNITS)
  {
    hide Reachable;
    ReachableInv(s);
    hide *;
    OccupiedInv(s);
  }

  lemma OccupiedInv(s: State)
    requires Inv(s)
    ensures s.d.occupied == CountBelow(s.d.count, MAX_UNITS)
  {
    hide ListOk, SlotsOk, QueueOk, TasksOk, PendingOk, AnswersOk, RepliesOk, HomesOk, LogOk, SyncLogOk;
    CountBelowIs(s, MAX_UNITS);
    assert BusyBelow(s.r.stage, MAX_UNITS) == BusyKeys(s.r.stage);
  }

  /** A submitted slot's unit has its mask bit set, so the interrupt handler does
      not skip it, and the guards in complete_inflight_slot never hold a counter
      back. */
  lemma WorkIsCounted(s: State, k: Key)
    requires k in s.d.slots && s.d.slots[k].ioreq.Some? && Reachable(s)
    ensures k.unit in s.d.mask && k.unit in s.d.count && s.d.count[k.unit] > 0 && s.d.occupied > 0
  {
    hide Reachable;
    ReachableInv(s);
    hide *;
    WorkInv(s, k);
  }

  lemma WorkInv(s: State, k: Key)
    requires Inv(s) && k in s.d.slots && s.d.slots[k].ioreq.Some?
    ensures k.unit in s.d.mask && k.unit in s.d.count && s.d.count[k.unit] > 0 && s.d.occupied > 0
  {
    hide ListOk, QueueOk, TasksOk, PendingOk, AnswersOk, RepliesOk, HomesOk, LogOk, SyncLogOk;
    InStage(s, k);
    AtKey(s, k);
    assert k in BusyKeys(s.r.stage) && k in BusyOf(s.r.stage, k.unit);
  }

  // ---------------------------------------------------------------------
  // Routing
  // ---------------------------------------------------------------------

  /** The search the decode replaces: every slot of every unit, in order. */
  function Scan(d: Driver, c: Cookie, n: nat): Option<Key>
    requires n <= MAX_UNITS * MAX_INFLIGHT
    decreases MAX_UNITS * MAX_INFLIGHT - n
  {
    if n == MAX_UNITS * MAX_INFLIGHT then None
    else
      var k := Key(n / MAX_INFLIGHT, n % MAX_INFLIGHT);
      if Holds(d, k, c) then Some(k) else Scan(d, c, n + 1)
  }

  lemma {:induction false} ScanFails(d: Driver, c: Cookie, n: nat)
    requires n <= MAX_UNITS * MAX_INFLIGHT && forall j :: !Holds(d, j, c)
    ensures Scan(d, c, n).None?
    decreases MAX_UNITS * MAX_INFLIGHT - n
  {
    if n < MAX_UNITS * MAX_INFLIGHT {
      ScanFails(d, c, n + 1);
    }
  }

  lemma {:induction false} ScanFinds(d: Driver, c: Cookie, n: nat, k: Key)
    requires k.unit < MAX_UNITS && k.slot < MAX_INFLIGHT && n <= k.unit * MAX_INFLIGHT + k.slot
    requires Holds(d, k, c) && forall j | Holds(d, j, c) :: j == k
    ensures Scan(d, c, n) == Some(k)
    decreases MAX_UNITS * MAX_INFLIGHT - n
  {
    if n < k.unit * MAX_INFLIGHT + k.slot {
      ScanFinds(d, c, n + 1, k);
    }
  }

  /** For every cookie the queue can return, decoding the id finds the slot the
      search would find; a DoIO's id, 1, never finds one. */
  lemma RouteIsSearch(s: State, k: Key)
    requires k in s.r.stage && k in s.d.ids && Reachable(s)
    requires s.r.stage[k].Flying? || s.r.stage[k].Carried? || IsSync(s.r.stage[k])
    ensures Route(s.d, CookieOf(k)) == Scan(s.d, CookieOf(k), 0)
    ensures Route(s.d, CookieOf(k)) == if IsSync(s.r.stage[k]) then None else Some(k)
  {
    hide Reachable;
    ReachableInv(s);
    hide *;
    RouteInv(s, k);
  }

  lemma RouteInv(s: State, k: Key)
    requires Inv(s) && k in s.r.stage
    requires s.r.stage[k].Flying? || s.r.stage[k].Carried? || IsSync(s.r.stage[k])
    ensures Route(s.d, CookieOf(k)) == Scan(s.d, CookieOf(k), 0)
    ensures Route(s.d, CookieOf(k)) == if IsSync(s.r.stage[k]) then None else Some(k)
  {
    hide ListOk, QueueOk, TasksOk, PendingOk, AnswersOk, RepliesOk, HomesOk, CountsOk, LogOk, SyncLogOk, Route;
    RouteIsRight(s, k);
    AtKey(s, k);
    forall j | Holds(s.d, j, CookieOf(k))
      ensures j == k && Busy(s.r.stage[k])
    {
      InStage(s, j);
      AtKey(s, j);
    }
    if Busy(s.r.stage[k]) {
      ScanFinds(s.d, CookieOf(k), 0, k);
    } else {
      ScanFails(s.d, CookieOf(k), 0);
    }
  }
}
