/** A run in which two outstanding completions are left without an interrupt:
    one after Harvest coalesces on a count that is off, one after a DoIO stops
    at its own cookie. */
module Stranded {
  import opened Types
  import opened Pipeline
  import opened PipelineInv
  import opened PipelineSteps
  import opened PipelineTheorems
  import opened ScsiSteps
  import C = Coalesce
  import QM = QueueModel
  import opened SlotZero
  import L = LostInterrupts
  import Marks

  // ---------------------------------------------------------------------
  // The queue along the run
  // ---------------------------------------------------------------------

  function Own(slot: nat): Cookie { CookieOf(Key(0, slot)) }

  function Direct(slot: nat, head: nat): QM.Request { QM.Request(Own(slot), ONE_ENTRY, 1, [head], None) }

  const FIRST := QM.Queue(4, [1, 2, 3], map[0 := Direct(0, 0)], [0], {}, [])
  const BOTH := QM.Queue(4, [2, 3], map[0 := Direct(0, 0), 1 := Direct(1, 1)], [0, 1], {}, [])
  const ANSWERED := QM.Queue(4, [2, 3], map[0 := Direct(0, 0), 1 := Direct(1, 1)], [1], {}, [QM.Used(0, 0)])
  const TAKEN := QM.Queue(4, [0, 2, 3], map[1 := Direct(1, 1)], [1], {}, [])
  const SYNC := QM.Queue(4, [2, 3], map[1 := Direct(1, 1), 0 := Direct(0, 0)], [1, 0], {}, [])
  const ALL := QM.Queue(4, [2, 3], map[1 := Direct(1, 1), 0 := Direct(0, 0)], [], {}, [QM.Used(0, 0), QM.Used(1, 0)])
  const MINE := QM.Queue(4, [2, 3], map[1 := Direct(1, 1), 0 := Direct(0, 0)], [], {0}, [QM.Used(1, 0)])
  const ALONE := QM.Queue(4, [1, 2, 3], map[0 := Direct(0, 0)], [], {0}, [])
  const LEFT := QM.Queue(4, [0, 2, 3], map[1 := Direct(1, 1)], [], {}, [QM.Used(1, 0)])

  lemma Posting()
    ensures QM.CanAdd(QM.Init(4), ONE_ENTRY, None) && QM.Add(QM.Init(4), ONE_ENTRY, 1, Own(0), None) == FIRST
    ensures QM.CanAdd(FIRST, ONE_ENTRY, None) && QM.Add(FIRST, ONE_ENTRY, 1, Own(1), None) == BOTH
    ensures QM.CanAdd(TAKEN, ONE_ENTRY, None) && QM.Add(TAKEN, ONE_ENTRY, 1, Own(0), None) == SYNC
  {
    assert QM.Init(4) == QM.Queue(4, [0, 1, 2, 3], map[], [], {}, []);
    AddOne(QM.Init(4), Own(0));
    AddOne(FIRST, Own(1));
    AddOne(TAKEN, Own(0));
    assert [0, 1, 2, 3][1..] == [1, 2, 3] && [1, 2, 3][1..] == [2, 3] && [0, 2, 3][1..] == [2, 3];
  }

  lemma AddOne(q: QM.Queue, c: Cookie)
    requires q.free != []
    ensures QM.CanAdd(q, ONE_ENTRY, None)
    ensures QM.Add(q, ONE_ENTRY, 1, c, None)
         == q.(free := q.free[1..], avail := q.avail + [q.free[0]],
               out := q.out[q.free[0] := QM.Request(c, ONE_ENTRY, 1, [q.free[0]], None)])
  {
    assert q.free[..1] == [q.free[0]];
  }

  lemma Answering()
    ensures 0 in QM.Take(BOTH).held && QM.Complete(QM.Take(BOTH), 0, 0) == ANSWERED
    ensures QM.Take(SYNC).avail != [] && 0 in QM.Take(QM.Take(SYNC)).held
    ensures 1 in QM.Complete(QM.Take(QM.Take(SYNC)), 0, 0).held
    ensures QM.Complete(QM.Complete(QM.Take(QM.Take(SYNC)), 0, 0), 1, 0) == ALL
    ensures 1 in QM.Take(QM.Take(SYNC)).held && QM.Complete(QM.Take(QM.Take(SYNC)), 1, 0) == MINE
  {}

  lemma Getting()
    ensures QM.Get(ANSWERED) == TAKEN && QM.Get(ALL) == LEFT && QM.Get(MINE) == ALONE
  {
    assert QM.Reversed([0]) == [0] && QM.Reversed([1]) == [1];
  }

  // ---------------------------------------------------------------------
  // The steps
  // ---------------------------------------------------------------------

  const IDLE := Task(Ready, NotSync)

  /** Unit 0's task is at `t`; unit 1 has done nothing and is not marked. */
  ghost predicate Scene(s: State, q: QM.Queue, free: seq<nat>, t: Task, occupied: nat)
  {
    && Reachable(s) && At(s.d, 0) && At(s.d, 1) && s.d.q == q && s.d.free[0] == free
    && s.d.task == map[0 := t, 1 := IDLE] && s.d.occupied == s.d.count[0] == occupied && 1 !in s.d.mask
  }

  lemma {:induction false} Above(ios: set<Io>) returns (n: nat)
    ensures forall io | io in ios :: io < n
  {
    n := 0;
    if ios != {} {
      var io :| io in ios;
      var m := Above(ios - {io});
      n := if io < m then m else io + 1;
      assert forall x | x in ios :: x == io || x in ios - {io};
    }
  }

  lemma Start() returns (s: State)
    ensures Scene(s, QM.Init(4), QM.Init(MAX_INFLIGHT).free, IDLE, 0)
  {
    hide QM.Init;
    var keys;
    s, keys := InitialExists({0, 1}, 4);
    assert IsRun([s], {0, 1}, 4) && [s][|[s]| - 1] == s;
    assert s.d.task == map[0 := IDLE, 1 := IDLE];
  }

  lemma Submit(s: State, q: QM.Queue, free: seq<nat>, occupied: nat) returns (t: State)
    requires free != [] && QM.CanAdd(q, ONE_ENTRY, None) && Scene(s, q, free, IDLE, occupied)
    ensures Scene(t, QM.Add(q, ONE_ENTRY, 1, Own(free[0]), None), free[1..], IDLE, occupied + 1)
  {
    hide Reachable, QM.Add, QM.CanAdd;
    var io := Above(s.r.home.Keys);
    var m := DoPop(s, 0, io);
    hide Steps;
    StepReaches(s, Pop(0, io), m);
    t := DoPost(m, 0, ONE_ENTRY, 1, None);
    StepReaches(m, Post(0, ONE_ENTRY, 1, None), t);
  }

  lemma Serve(s: State, q: QM.Queue, free: seq<nat>, t: Task, occupied: nat) returns (e: State)
    requires Scene(s, q, free, t, occupied) && q.avail != []
    ensures Scene(e, QM.Take(q), free, t, occupied)
  {
    hide Reachable, QM.Take;
    e := DoTake(s);
    hide Steps;
    StepReaches(s, DeviceTake, e);
  }

  lemma Complete(s: State, q: QM.Queue, free: seq<nat>, t: Task, occupied: nat, head: nat) returns (e: State)
    requires Scene(s, q, free, t, occupied) && head in q.held
    ensures Scene(e, QM.Complete(q, head, 0), free, t, occupied)
  {
    hide Reachable, QM.Complete;
    e := DoComplete(s, head, 0, 0);
    hide Steps;
    StepReaches(s, DeviceComplete(head, 0, 0), e);
  }

  /** Unit 0's task takes its own unit's oldest completion. */
  lemma GetBufHere(s: State, q: QM.Queue, free: seq<nat>, sync: Sync, occupied: nat, slot: nat) returns (e: State)
    requires Scene(s, q, free, Task(Ready, sync), occupied) && !sync.Got?
    requires q.used != [] && q.used[0].id in q.out && q.out[q.used[0].id].cookie == Own(slot)
    ensures Scene(e, QM.Get(q), free,
                  if sync.Waiting? && slot == 0 then Task(Ready, Got(sync.io)) else Task(Hand(Own(slot)), sync),
                  occupied)
  {
    hide Reachable, QM.Get;
    e := DoGetBuf(s, 0);
    hide Steps;
    StepReaches(s, GetBuf(0), e);
  }

  /** What a task has in hand belongs to a slot, unless a DoIO is pending on it. */
  lemma HandIsRouted(s: State, slot: nat)
    requires Carries(s, 0, Own(slot)) && (s.d.task[0].sync.NotSync? || slot != 0)
    ensures Key(0, slot) in s.d.ids && Route(s.d, Own(slot)).Some?
  {
    hide Reachable;
    InHand(s, 0, Own(slot));
    ReachableInv(s);
    hide Inv, Route;
    AtKey(s, Key(0, slot));
  }

  /** The rest of a turn of the drain loop: the completion is recognised, its slot
      closed and its request replied. */
  lemma Settle(s: State, q: QM.Queue, free: seq<nat>, sync: Sync, occupied: nat, slot: nat)
    returns (m: State, n: State, e: State)
    requires Scene(s, q, free, Task(Hand(Own(slot)), sync), occupied) && (sync.NotSync? || slot != 0)
    ensures Steps(s, Recognise(0), m) && Steps(m, Close(0), n) && Steps(n, SendReply(0), e)
    ensures Scene(e, q, [slot] + free, Task(Ready, sync), Down(occupied)) && IsHolder(s)
    ensures occupied == 1 ==> 0 !in e.d.mask
  {
    hide Reachable;
    HandIsRouted(s, slot);
    m := DoRecognise(s, 0, Own(slot));
    hide Route;
    StepReaches(s, Recognise(0), m);
    n, e := CloseHere(s, m, q, free, sync, occupied, slot);
  }

  ghost predicate IsHolder(s: State) { 0 in s.d.task && L.IsHolder(s.d, s.d.task[0].pc) }

  lemma CloseHere(s: State, m: State, q: QM.Queue, free: seq<nat>, sync: Sync, occupied: nat, slot: nat)
    returns (n: State, e: State)
    requires Scene(s, q, free, Task(Hand(Own(slot)), sync), occupied)
    requires 0 in m.d.task && m.d.task[0].pc.Closing? && m.d.task[0].pc.key == Key(0, slot)
    requires m.d == s.d.(task := SetPc(s.d, 0, m.d.task[0].pc)) && Reachable(m)
    ensures Steps(m, Close(0), n) && Steps(n, SendReply(0), e)
    ensures Scene(e, q, [slot] + free, Task(Ready, sync), Down(occupied))
    ensures occupied == 1 ==> 0 !in e.d.mask
  {
    hide Reachable;
    n := DoClose(m, 0, Key(0, slot));
    StepReaches(m, Close(0), n);
    e := DoReply(n, 0);
    hide Steps;
    StepReaches(n, SendReply(0), e);
  }

  lemma StartSync(s: State, q: QM.Queue, free: seq<nat>, occupied: nat) returns (e: State, io: Io)
    requires Scene(s, q, free, IDLE, occupied) && 0 in free && QM.CanAdd(q, ONE_ENTRY, None)
    ensures Scene(e, QM.Add(q, ONE_ENTRY, 1, Own(0), None), free, Task(Ready, Waiting(io)), occupied)
  {
    hide Reachable, QM.Add, QM.CanAdd;
    SlotZeroIsFree(s, 0);
    io := Above(s.r.home.Keys);
    e := DoSyncStart(s, 0, io, ONE_ENTRY, 1, None);
    hide Steps;
    StepReaches(s, SyncStart(0, io, ONE_ENTRY, 1, None), e);
  }

  lemma SlotZeroIsFree(s: State, u: nat)
    requires At(s.d, u) && 0 in s.d.free[u] && Reachable(s)
    ensures SlotZeroUnused(s.d, u)
  {
    hide Reachable;
    ReachableInv(s);
    hide *;
    ListedIsUnused(s, u);
  }

  lemma ListedIsUnused(s: State, u: nat)
    requires At(s.d, u) && 0 in s.d.free[u] && Inv(s)
    ensures SlotZeroUnused(s.d, u)
  {
    hide QueueOk, TasksOk, PendingOk, AnswersOk, RepliesOk, HomesOk, CountsOk, LogOk, SyncLogOk;
    assert Key(u, 0) in s.r.stage;
    assert SlotOk(Key(u, 0), s.r.stage[Key(u, 0)], s.d.slots[Key(u, 0)], s.d.ids[Key(u, 0)]);
  }

  // ---------------------------------------------------------------------
  // The run
  // ---------------------------------------------------------------------

  /** Unit 0 has two requests in flight; the first is completed and taken. */
  lemma FirstInHand() returns (s: State, free: seq<nat>)
    ensures free != [] && 0 !in free && Scene(s, TAKEN, free, Task(Hand(Own(0)), NotSync), 2)
  {
    hide Reachable, Scene, QM.Init, QM.Add, QM.CanAdd, QM.Take, QM.Complete, QM.Get;
    Posting();
    Answering();
    Getting();
    FreeSlots();
    free := QM.Init(MAX_INFLIGHT).free[2..];
    s := Start();
    s := Submit(s, QM.Init(4), QM.Init(MAX_INFLIGHT).free, 0);
    s := Submit(s, FIRST, QM.Init(MAX_INFLIGHT).free[1..], 1);
    s := Serve(s, BOTH, free, IDLE, 2);
    s := Complete(s, QM.Take(BOTH), free, IDLE, 2, 0);
    s := GetBufHere(s, ANSWERED, free, NotSync, 2, 0);
  }

  lemma FreeSlots()
    ensures var free := QM.Init(MAX_INFLIGHT).free;
            free != [] && free[1..] != [] && free[0] == 0 && free[1..][0] == 1 && free[1..][1..] == free[2..]
            && free[2..] != [] && 0 !in free[2..]
  {}

  /** Task 1 finds the used ring empty and coalesces at `s1`, while task 0 still
      has in hand a completion that is counted: the event is aimed at the second
      outstanding completion where there is only one.  Task 0 then finishes its
      turn, finds the ring empty at `s2` with a count of one, and leaves the
      event as it is.  Every task is now waiting, a request is outstanding, and
      its completion does not interrupt. */
  lemma SecondHarvesterStrands(event: uint16) returns (s1: State, m: State, n: State, s2: State)
    ensures Reachable(s1) && IsHolder(s1) && s1.d.q.used == [] && s1.d.occupied == 2 && |s1.d.q.out| == 1
    ensures 1 in s1.d.task && s1.d.task[1] == IDLE
    ensures Steps(s1, Recognise(0), m) && Steps(m, Close(0), n) && Steps(n, SendReply(0), s2)
    ensures Reachable(s2) && s2.d.q.used == [] && s2.d.occupied == 1 && |s2.d.q.out| == 1
    ensures forall u | u in s2.d.task :: s2.d.task[u] == IDLE
    ensures var aimed := C.Override(1, s1.d.occupied, event);
            C.Override(1, s2.d.occupied, aimed) == aimed && !C.Crosses(aimed, 1, 1 + |s2.d.q.out|)
  {
    hide Reachable, Steps;
    var free;
    s1, free := FirstInHand();
    m, n, s2 := Settle(s1, TAKEN, free, NotSync, 2, 0);
  }

  /** A DoIO leaves with its own completion though the used ring holds another,
      which is its own unit's; no other unit is marked for the interrupt
      handler to wake. */
  lemma SyncStopsEarly() returns (s: State)
    ensures Reachable(s) && 1 !in s.d.mask
    ensures s.d.task.Keys == {0, 1} && s.d.task[0].pc.Ready? && s.d.task[0].sync.Got? && s.d.task[1] == IDLE
    ensures |s.d.q.used| == 1 && s.d.q.used[0].id in s.d.q.out && s.d.q.out[s.d.q.used[0].id].cookie == Own(1)
  {
    hide Reachable, Steps, Scene, QM.Init, QM.Add, QM.CanAdd, QM.Take, QM.Complete, QM.Get;
    Posting();
    Answering();
    Getting();
    var free, m, n, io;
    s, free := FirstInHand();
    m, n, s := Settle(s, TAKEN, free, NotSync, 2, 0);
    free := [0] + free;
    s, io := StartSync(s, TAKEN, free, 1);
    var t := Task(Ready, Waiting(io));
    s := Serve(s, SYNC, free, t, 1);
    s := Serve(s, QM.Take(SYNC), free, t, 1);
    s := Complete(s, QM.Take(QM.Take(SYNC)), free, t, 1, 0);
    s := Complete(s, QM.Complete(QM.Take(QM.Take(SYNC)), 0, 0), free, t, 1, 1);
    s := GetBufHere(s, ALL, free, Waiting(io), 1, 0);
    SceneSays(s, free, io);
  }

  lemma SceneSays(s: State, free: seq<nat>, io: Io)
    requires Scene(s, LEFT, free, Task(Ready, Got(io)), 1)
    ensures s.d.task == map[0 := Task(Ready, Got(io)), 1 := IDLE] && 1 !in s.d.mask
    ensures s.d.q == LEFT && Reachable(s)
  {
    hide Reachable;
  }

  /** A DoIO that drains its own unit's last pipelined completion before its own
      takes its mark with it: it goes on waiting, its request is in the device's
      hands, and no unit at all is marked for the interrupt handler to wake. */
  lemma WaitingUnmarked() returns (s: State)
    ensures Reachable(s) && s.d.mask == {} && 0 in s.d.task && s.d.task[0].pc.Ready? && s.d.task[0].sync.Waiting?
    ensures 0 in s.d.q.held && 0 in s.d.q.out && s.d.q.out[0].cookie == Own(0) && s.d.q.used == []
    ensures forall u | u in s.d.task && u != 0 :: s.d.task[u] == IDLE
  {
    hide Reachable, Steps, Scene, QM.Init, QM.Add, QM.CanAdd, QM.Take, QM.Complete, QM.Get;
    Posting();
    Answering();
    Getting();
    var free, m, n, io;
    s, free := FirstInHand();
    m, n, s := Settle(s, TAKEN, free, NotSync, 2, 0);
    free := [0] + free;
    s, io := StartSync(s, TAKEN, free, 1);
    var t := Task(Ready, Waiting(io));
    s := Serve(s, SYNC, free, t, 1);
    s := Serve(s, QM.Take(SYNC), free, t, 1);
    s := Complete(s, QM.Take(QM.Take(SYNC)), free, t, 1, 1);
    s := GetBufHere(s, MINE, free, Waiting(io), 1, 1);
    m, n, s := Settle(s, ALONE, free, Waiting(io), 1, 1);
    NoMarkLeft(s, [1] + free, io);
  }

  lemma NoMarkLeft(s: State, free: seq<nat>, io: Io)
    requires Scene(s, ALONE, free, Task(Ready, Waiting(io)), 0) && 0 !in s.d.mask
    ensures Reachable(s) && s.d.mask == {} && s.d.q == ALONE
    ensures s.d.task == map[0 := Task(Ready, Waiting(io)), 1 := IDLE]
  {
    hide Reachable;
    forall u | u in s.d.mask
      ensures false
    {
      Marks.MarkedHaveWork(s, u);
    }
  }
}
