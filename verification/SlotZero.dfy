/** A run in which a DoIO finds slot 0 in use. */
module SlotZero {
  import opened Types
  import opened Pipeline
  import opened PipelineInv
  import opened PipelineTheorems
  import opened ScsiSteps
  import opened SyncTheorems
  import QM = QueueModel

  const ONE_ENTRY: seq<Sg> := [Sg(0, 1)]

  /** A read on unit 0 goes to slot 0, the device answers it, and unit 1 takes the
      completion: at that moment unit 0 may dispatch a command that calls DoIO. */
  lemma SlotZeroCanBeInUse() returns (s: State)
    ensures Reachable(s) && Enabled(s.d, SyncStart(0, 1, ONE_ENTRY, 1, None)) && !SlotZeroUnused(s.d, 0)
    ensures 1 in s.d.task && s.d.task[1].pc == Hand(CookieOf(Key(0, 0)))
  {
    hide Reachable, Steps;
    var s2 := Submitted();
    var s4 := Answered(s2);
    hide QM.Get;
    s := DoGetBuf(s4, 1);
    StepReaches(s4, GetBuf(1), s);
    QueueAfter();
  }

  /** The queue along the run. */
  function Posted(): QM.Queue { QM.Add(QM.Init(4), ONE_ENTRY, 1, CookieOf(Key(0, 0)), None) }

  function Completed(): QM.Queue { QM.Complete(QM.Take(Posted()), 0, 0) }

  lemma QueueAfter()
    ensures Posted().avail == [0] && 0 in QM.Take(Posted()).held
    ensures 0 in Completed().out && Completed().out[0].cookie == CookieOf(Key(0, 0))
    ensures Completed().used == [QM.Used(0, 0)]
    ensures QM.CanAdd(QM.Get(Completed()), ONE_ENTRY, None)
  {}

  /** Unit 0 has submitted its request, unit 1 waits. */
  ghost predicate Flown(s: State, q: QM.Queue)
  {
    && Reachable(s) && At(s.d, 0) && At(s.d, 1) && s.d.q == q
    && s.d.task[0] == s.d.task[1] == Task(Ready, NotSync)
    && Key(0, 0) in s.d.slots && s.d.slots[Key(0, 0)].ioreq.Some?
  }

  ghost predicate Reserved0(s: State)
  {
    && Reachable(s) && At(s.d, 0) && At(s.d, 1) && s.d.q == QM.Init(4)
    && s.d.task[0] == Task(Filling(0, 0), NotSync) && s.d.task[1] == Task(Ready, NotSync)
  }

  lemma SlotTaken() returns (s: State)
    ensures Reserved0(s)
  {
    hide Reachable, At;
    var s0 := TwoUnits();
    FirstSlot();
    hide QM.Init, QM.CanAdd;
    s := PopBeside(s0, 0, 1, 0);
  }

  /** What Submit's first section leaves alone of another task. */
  lemma PopBeside(s: State, u: nat, v: nat, io: Io) returns (t: State)
    requires Starts(s, u, io) && s.d.free[u] != [] && At(s.d, v) && u != v
    ensures Reachable(t) && At(t.d, u) && At(t.d, v) && t.d.q == s.d.q
    ensures t.d.task[u] == Task(Filling(s.d.free[u][0], io), NotSync) && t.d.task[v] == s.d.task[v]
  {
    hide Reachable, Steps;
    t := DoPop(s, u, io);
    StepReaches(s, Pop(u, io), t);
  }

  lemma FirstSlot()
    ensures QM.Init(MAX_INFLIGHT).free != [] && QM.Init(MAX_INFLIGHT).free[0] == 0
    ensures QM.CanAdd(QM.Init(4), ONE_ENTRY, None)
  {}

  lemma Submitted() returns (s: State)
    ensures Flown(s, Posted())
  {
    hide Reachable, Steps;
    var s1 := SlotTaken();
    FirstSlot();
    hide QM.Init, QM.Add;
    s := DoPost(s1, 0, ONE_ENTRY, 1, None);
    StepReaches(s1, Post(0, ONE_ENTRY, 1, None), s);
  }

  lemma Answered(s2: State) returns (s: State)
    requires Flown(s2, Posted())
    ensures Flown(s, Completed())
  {
    hide Reachable, Steps;
    QueueAfter();
    var s3 := DoTake(s2);
    StepReaches(s2, DeviceTake, s3);
    s := DoComplete(s3, 0, 0, 0);
    StepReaches(s3, DeviceComplete(0, 0, 0), s);
  }

  lemma StepReaches(s: State, step: Step, t: State)
    requires Steps(s, step, t)
    ensures Reachable(t)
  {}

  lemma TwoUnits() returns (s: State)
    ensures Reachable(s) && At(s.d, 0) && At(s.d, 1) && s.d.free[0] == QM.Init(MAX_INFLIGHT).free
    ensures s.d.task[0] == s.d.task[1] == Task(Ready, NotSync)
    ensures s.d.q == QM.Init(4) && s.r.home == map[]
  {
    var keys;
    s, keys := InitialExists({0, 1}, 4);
    assert IsRun([s], {0, 1}, 4) && [s][|[s]| - 1] == s;
  }
}
