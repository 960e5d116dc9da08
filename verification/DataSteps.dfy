/** Every event keeps the slots' data tied to their requests. */
module DataSteps {
  import opened Types
  import opened Pipeline
  import opened PipelineInv
  import opened PipelineSteps
  import opened PipelineTheorems
  import opened ScsiSteps
  import opened Memory
  import opened DataPath
  import opened DataRuns
  import QM = QueueModel

  // ---------------------------------------------------------------------
  // One slot moves, the others stay
  // ---------------------------------------------------------------------

  predicate SameEntry<T(==)>(a: map<Io, T>, b: map<Io, T>, io: Io)
  {
    (io in a <==> io in b) && (io in a ==> a[io] == b[io])
  }

  predicate SameLog(a: Log, b: Log, io: Io)
  {
    SameEntry(a.given, b.given, io) && SameEntry(a.wrote, b.wrote, io) && SameEntry(a.delivered, b.delivered, io)
  }

  ghost predicate SameRow(m: Store, m': Store, i: nat)
  {
    SameBuffer(m, m', i) && m.table[i] == m'.table[i]
  }

  lemma RowSame(w: World, k: Key, s: Stage, m: Store, m': Store, used: seq<nat>, used': seq<nat>, log: Log, log': Log)
    requires RowTied(w, k, s, m, used, log) && SameRow(m, m', RowOf(k)) && InUsed(s, used') == InUsed(s, used)
    requires IoOf(s).Some? ==> SameLog(log, log', s.io)
    ensures RowTied(w, k, s, m', used', log')
  {
    hide BufferOf, RecordFor;
  }

  lemma RowsMove(w: World, stage: map<Key, Stage>, m: Store, used: seq<nat>, log: Log,
                 m': Store, used': seq<nat>, log': Log, k: Key, to: Stage)
    requires RowsTied(w, stage, m, used, log) && k in stage && k.slot < MAX_INFLIGHT
    requires forall i: nat | i != RowOf(k) && HasSlot(m, i) :: SameRow(m, m', i)
    requires forall j | j in stage && j != k :: InUsed(stage[j], used') == InUsed(stage[j], used)
    requires forall j | j in stage && j != k && IoOf(stage[j]).Some? :: SameLog(log, log', stage[j].io)
    requires RowTied(w, k, to, m', used', log')
    ensures RowsTied(w, stage[k := to], m', used', log')
  {
    hide SameRow, SameLog, Tied, BufferOf, InUsed;
    forall j | j in stage && j != k
      ensures RowTied(w, j, stage[j], m', used', log')
    {
      assert RowTied(w, j, stage[j], m, used, log);
      RowsAreKeys(j);
      RowsAreKeys(k);
      RowSame(w, j, stage[j], m, m', used, used', log, log');
    }
  }

  /** A request is in the service of one slot only. */
  lemma OwnIo(s: State, k: Key, j: Key)
    requires Inv(s) && k in s.r.stage && j in s.r.stage && j != k
    requires IoOf(s.r.stage[k]).Some? && IoOf(s.r.stage[j]).Some?
    ensures s.r.stage[k].io != s.r.stage[j].io
  {
    hide Inv;
    AtKey(s, k);
    AtKey(s, j);
  }

  // ---------------------------------------------------------------------
  // Steps of the pipeline that leave memory alone
  // ---------------------------------------------------------------------

  /** The outstanding requests of the other slots are as before. */
  ghost predicate QueueElsewhere(s: State, t: State, k: Key)
  {
    forall j | j in s.r.stage && j != k && s.r.stage[j].Flying? ::
      var h := s.r.stage[j].head;
      && h in s.d.q.out && h in t.d.q.out && t.d.q.out[h] == s.d.q.out[h]
      && (h in QM.UsedIds(t.d.q.used) <==> h in QM.UsedIds(s.d.q.used))
  }

  ghost predicate RecordGrows(r: Record, r': Record) { r.home.Keys <= r'.home.Keys && r'.done == r.done }

  lemma StepGrows(s: State, step: Step)
    requires Allowed(s, step) && !step.DeviceComplete?
    ensures RecordGrows(s.r, NextState(s, step).r)
  {
    hide Route, QM.Add, QM.CanAdd, QM.Get, QM.Take;
  }

  lemma DriveKeeps(w: World, j: Joint, t: State, k: Key, to: Stage)
    requires JointInv(w, j) && Reachable(t) && k in j.s.r.stage && t.r.stage == j.s.r.stage[k := to]
    requires QueueElsewhere(j.s, t, k) && RecordGrows(j.s.r, t.r) && RepliesTied(t.d, j.log)
    requires ChainTied(w, k, to, t.d.q.out, j.m.bounce)
    requires RowTied(w, k, to, j.m, QM.UsedIds(t.d.q.used), j.log)
    ensures JointInv(w, j.(s := t))
  {
    hide Reachable, Tied, ChainTied, RepliesTied, DeliveryOk, BufferOf, StoreOk;
    DriveRows(w, j, t, k, to);
    DriveChains(w, j.s, t, k, to, j.m.bounce);
  }

  lemma DriveRows(w: World, j: Joint, t: State, k: Key, to: Stage)
    requires RowsTied(w, j.s.r.stage, j.m, QM.UsedIds(j.s.d.q.used), j.log)
    requires k in j.s.r.stage && t.r.stage == j.s.r.stage[k := to] && QueueElsewhere(j.s, t, k)
    requires RowTied(w, k, to, j.m, QM.UsedIds(t.d.q.used), j.log)
    ensures RowsTied(w, t.r.stage, j.m, QM.UsedIds(t.d.q.used), j.log)
  {
    hide Tied, BufferOf, QM.UsedIds;
    RowsMove(w, j.s.r.stage, j.m, QM.UsedIds(j.s.d.q.used), j.log, j.m, QM.UsedIds(t.d.q.used), j.log, k, to);
  }

  lemma DriveChains(w: World, s: State, t: State, k: Key, to: Stage, bounce: seq<uint32>)
    requires ChainsTied(w, s.r.stage, s.d.q.out, bounce) && t.r.stage == s.r.stage[k := to] && QueueElsewhere(s, t, k)
    requires k in s.r.stage && ChainTied(w, k, to, t.d.q.out, bounce)
    ensures ChainsTied(w, t.r.stage, t.d.q.out, bounce)
  {
    hide ChainFor, OutFor, QM.UsedIds;
    forall j | j in s.r.stage && j != k
      ensures ChainTied(w, j, s.r.stage[j], t.d.q.out, bounce)
    {
      assert ChainTied(w, j, s.r.stage[j], s.d.q.out, bounce);
    }
  }

  /** Steps that move no slot. */
  lemma StillKeeps(w: World, j: Joint, t: State)
    requires JointInv(w, j) && Reachable(t) && t.r.stage == j.s.r.stage
    requires t.d.q.out == j.s.d.q.out && t.d.q.used == j.s.d.q.used
    requires RecordGrows(j.s.r, t.r) && RepliesTied(t.d, j.log)
    ensures JointInv(w, j.(s := t))
  {
    hide Reachable, RowTied, ChainTied, RepliesTied, DeliveryOk, StoreOk;
  }

  lemma RepliesStep(d: Driver, d': Driver, log: Log, u: nat, t: Task)
    requires RepliesTied(d, log) && d'.task == d.task[u := t] && d'.replies == d.replies
    requires t.pc.Replying? ==> t.pc.io in log.delivered
    ensures RepliesTied(d', log)
  {}

  /** What the invariant says of one slot. */
  lemma RowAt(w: World, j: Joint, k: Key)
    requires JointInv(w, j) && k in j.s.r.stage
    ensures RowTied(w, k, j.s.r.stage[k], j.m, QM.UsedIds(j.s.d.q.used), j.log)
    ensures ChainTied(w, k, j.s.r.stage[k], j.s.d.q.out, j.m.bounce)
    ensures IoOf(j.s.r.stage[k]).Some? ==> j.s.r.stage[k].io in j.s.r.home
  {
    hide Inv, Reachable, RowTied, ChainTied, StoreTied, LogTied, RepliesTied;
    ReachableInv(j.s);
    AtKey(j.s, k);
  }

  lemma SameQueue(w: World, j: Joint, t: State, k: Key)
    requires JointInv(w, j) && t.d.q == j.s.d.q
    ensures QueueElsewhere(j.s, t, k)
  {
    hide Reachable, StoreTied, LogTied, RepliesTied, RowsTied, ChainFor, OutFor, QM.UsedIds;
    forall i | i in j.s.r.stage
      ensures ChainTied(w, i, j.s.r.stage[i], j.s.d.q.out, j.m.bounce)
    {}
  }

  lemma PopKeeps(w: World, j: Joint, u: nat, io: Io)
    requires JointInv(w, j) && Allowed(j.s, Pop(u, io))
    ensures JointInv(w, j.(s := NextState(j.s, Pop(u, io))))
  {
    hide JointInv, Reachable, RecordGrows, RepliesTied, QueueElsewhere;
    IsReachable(w, j);
    StepGrows(j.s, Pop(u, io));
    var t := DoPop(j.s, u, io);
    var k := Key(u, j.s.d.free[u][0]);
    FreeIsIdle(j.s, u);
    RowAt(w, j, k);
    NewRequest(w, j, io);
    SameQueue(w, j, t, k);
    RepliesAre(w, j);
    RepliesStep(j.s.d, t.d, j.log, u, t.d.task[u]);
    DriveKeeps(w, j, t, k, Reserved(io));
  }

  lemma IsReachable(w: World, j: Joint)
    requires JointInv(w, j)
    ensures Reachable(j.s)
  {}

  lemma RepliesAre(w: World, j: Joint)
    requires JointInv(w, j)
    ensures RepliesTied(j.s.d, j.log)
  {}

  lemma NewRequest(w: World, j: Joint, io: Io)
    requires JointInv(w, j) && io !in j.s.r.home
    ensures io !in j.log.given && io !in j.log.delivered
  {}

  lemma AbandonKeeps(w: World, j: Joint, u: nat)
    requires JointInv(w, j) && Can(w, j, Drive(Abandon(u), []))
    ensures JointInv(w, j.(s := NextState(j.s, Abandon(u))))
  {
    hide JointInv, Reachable, RecordGrows, RepliesTied, QueueElsewhere;
    IsReachable(w, j);
    StepGrows(j.s, Abandon(u));
    var t := DoAbandon(j.s, u);
    var k := FillKey(j.s, u);
    InFilling(j.s, u);
    RowAt(w, j, k);
    SameQueue(w, j, t, k);
    RepliesAre(w, j);
    RepliesStep(j.s.d, t.d, j.log, u, t.d.task[u]);
    DriveKeeps(w, j, t, k, Idle);
  }

  lemma PostKeeps(w: World, j: Joint, u: nat, sg: seq<Sg>, outNum: nat, table: Option<nat>)
    requires JointInv(w, j) && Can(w, j, Drive(Post(u, sg, outNum, table), []))
    ensures JointInv(w, j.(s := NextState(j.s, Post(u, sg, outNum, table))))
  {
    hide JointInv, Reachable, RecordGrows, RepliesTied, QueueElsewhere, QM.CanAdd;
    IsReachable(w, j);
    StepGrows(j.s, Post(u, sg, outNum, table));
    var t := DoPost(j.s, u, sg, outNum, table);
    var k := FillKey(j.s, u);
    InFilling(j.s, u);
    RowAt(w, j, k);
    AddedQueue(w, j, t, k, sg, outNum, table);
    RepliesAre(w, j);
    RepliesStep(j.s.d, t.d, j.log, u, t.d.task[u]);
    hide QM.Add, RecordFor, ChainFor, OutFor;
    DriveKeeps(w, j, t, k, t.r.stage[k]);
  }

  lemma AddedQueue(w: World, j: Joint, t: State, k: Key, sg: seq<Sg>, outNum: nat, table: Option<nat>)
    requires JointInv(w, j) && QM.CanAdd(j.s.d.q, sg, table)
    requires t.d.q == QM.Add(j.s.d.q, sg, outNum, CookieOf(k), table)
    ensures QueueElsewhere(j.s, t, k)
    ensures var h := j.s.d.q.free[0];
            h in t.d.q.out && t.d.q.out[h].sg == sg && t.d.q.out[h].outNum == outNum && h !in QM.UsedIds(t.d.q.used)
  {
    hide Reachable, StoreTied, LogTied, RepliesTied, RowsTied, ChainFor, OutFor;
    var q := j.s.d.q;
    QueueIs(j.s);
    QM.AddInv(q, sg, outNum, CookieOf(k), table);
    UsedAreOut(q);
    forall i | i in j.s.r.stage
      ensures ChainTied(w, i, j.s.r.stage[i], q.out, j.m.bounce)
    {}
  }

  lemma QueueIs(s: State)
    requires Reachable(s)
    ensures QM.Inv(s.d.q)
  {
    hide Reachable;
    ReachableInv(s);
  }

  lemma UsedAreOut(q: QM.Queue)
    requires QM.Inv(q)
    ensures forall h | h in QM.UsedIds(q.used) :: h in q.out
  {}

  lemma GetBufKeeps(w: World, j: Joint, u: nat)
    requires JointInv(w, j) && Allowed(j.s, GetBuf(u))
    ensures JointInv(w, j.(s := NextState(j.s, GetBuf(u))))
  {
    hide JointInv, Reachable, RecordGrows, RepliesTied, QueueElsewhere, QM.Get;
    IsReachable(w, j);
    StepGrows(j.s, GetBuf(u));
    var t := DoGetBuf(j.s, u);
    var k := KeyOf(j.s.d.q.out[j.s.d.q.used[0].id].cookie);
    OldestIsOut(j.s);
    RowAt(w, j, k);
    GotQueue(w, j, t, k);
    RepliesAre(w, j);
    RepliesStep(j.s.d, t.d, j.log, u, t.d.task[u]);
    DriveKeeps(w, j, t, k, t.r.stage[k]);
  }

  lemma GotQueue(w: World, j: Joint, t: State, k: Key)
    requires JointInv(w, j) && j.s.d.q.used != [] && j.s.d.q.used[0].id in j.s.d.q.out && t.d.q == QM.Get(j.s.d.q)
    requires k in j.s.r.stage && k == KeyOf(j.s.d.q.out[j.s.d.q.used[0].id].cookie)
    ensures QueueElsewhere(j.s, t, k)
    ensures j.s.d.q.used[0].id in QM.UsedIds(j.s.d.q.used)
  {
    hide Reachable, StoreTied, LogTied, RepliesTied, RowsTied, ChainFor, OutFor;
    QueueIs(j.s);
    GotUsed(j.s.d.q);
    OtherHeads(w, j, k, j.s.d.q.used[0].id);
    hide QM.Inv, QM.UsedIds;
    forall i | i in j.s.r.stage
      ensures ChainTied(w, i, j.s.r.stage[i], j.s.d.q.out, j.m.bounce)
    {}
  }

  lemma GotUsed(q: QM.Queue)
    requires QM.Inv(q) && q.used != [] && q.used[0].id in q.out
    ensures q.used[0].id in QM.UsedIds(q.used)
    ensures forall h | h != q.used[0].id :: h in QM.UsedIds(QM.Get(q).used) <==> h in QM.UsedIds(q.used)
    ensures forall h | h in q.out && h != q.used[0].id :: h in QM.Get(q).out && QM.Get(q).out[h] == q.out[h]
  {
    hide QM.Partitioned;
    var ids := QM.UsedIds(q.used);
    assert QM.UsedIds(QM.Get(q).used) == ids[1..];
    QM.HeadAndTail(ids);
  }

  lemma FlyingCookie(s: State, k: Key)
    requires Inv(s) && k in s.r.stage && s.r.stage[k].Flying?
    ensures s.r.stage[k].head in s.d.q.out && KeyOf(s.d.q.out[s.r.stage[k].head].cookie) == k
  {
    hide Domains, ListOk, SlotsOk, TasksOk, PendingOk, AnswersOk, RepliesOk, HomesOk, CountsOk, LogOk, SyncLogOk;
    assert HeadOf(s.r.stage[k]).Some?;
  }

  lemma RecogniseKeeps(w: World, j: Joint, u: nat)
    requires JointInv(w, j) && Allowed(j.s, Recognise(u))
    ensures JointInv(w, j.(s := NextState(j.s, Recognise(u))))
  {
    hide JointInv, Reachable, RecordGrows, RepliesTied, QueueElsewhere, Route;
    IsReachable(w, j);
    StepGrows(j.s, Recognise(u));
    var c := j.s.d.task[u].pc.cookie;
    var t := DoRecognise(j.s, u, c);
    var k := KeyOf(c);
    RowAt(w, j, k);
    SameQueue(w, j, t, k);
    RepliesAre(w, j);
    RepliesStep(j.s.d, t.d, j.log, u, t.d.task[u]);
    DriveKeeps(w, j, t, k, t.r.stage[k]);
  }

  lemma CloseKeeps(w: World, j: Joint, u: nat)
    requires JointInv(w, j) && Can(w, j, Drive(Close(u), []))
    ensures JointInv(w, j.(s := NextState(j.s, Close(u))))
  {
    hide JointInv, Reachable, RecordGrows, RepliesTied, QueueElsewhere, Down, MaskAfter;
    IsReachable(w, j);
    StepGrows(j.s, Close(u));
    var k := j.s.d.task[u].pc.key;
    var t := DoClose(j.s, u, k);
    ClosingSlot(j.s, u, k);
    RowAt(w, j, k);
    SameQueue(w, j, t, k);
    RepliesAre(w, j);
    RepliesStep(j.s.d, t.d, j.log, u, t.d.task[u]);
    DriveKeeps(w, j, t, k, Idle);
  }

  lemma SendReplyKeeps(w: World, j: Joint, u: nat)
    requires JointInv(w, j) && Allowed(j.s, SendReply(u))
    ensures JointInv(w, j.(s := NextState(j.s, SendReply(u))))
  {
    hide JointInv, Reachable, RecordGrows;
    IsReachable(w, j);
    StepGrows(j.s, SendReply(u));
    var t := DoReply(j.s, u);
    RepliesAre(w, j);
    assert RepliesTied(t.d, j.log);
    StillKeeps(w, j, t);
  }

  lemma TakeKeeps(w: World, j: Joint)
    requires JointInv(w, j) && Allowed(j.s, DeviceTake)
    ensures JointInv(w, j.(s := NextState(j.s, DeviceTake)))
  {
    hide JointInv, Reachable, RecordGrows;
    IsReachable(w, j);
    StepGrows(j.s, DeviceTake);
    var t := DoTake(j.s);
    TakeStage(j.s);
    RepliesAre(w, j);
    StillKeeps(w, j, t);
  }

  lemma TakeStage(s: State)
    requires Enabled(s.d, DeviceTake)
    ensures NextState(s, DeviceTake).r.stage == s.r.stage
  {}

  // ---------------------------------------------------------------------
  // DoIO's steps
  // ---------------------------------------------------------------------

  predicate IsSyncStep(step: Step) { step.SyncStart? || step.SyncFail? || step.SyncPickup? || step.SyncFinish? }

  /** DoIO moves its own slot 0, which stays on the free list. */
  lemma SyncStages(s: State, step: Step)
    requires Reachable(s) && Allowed(s, step) && IsSyncStep(step)
    ensures var k, t := Key(step.u, 0), NextState(s, step);
            && k in s.r.stage && OnList(s.r.stage[k])
            && k in t.r.stage && t.r.stage == s.r.stage[k := t.r.stage[k]] && OnList(t.r.stage[k])
            && t.d.replies == s.d.replies
            && t.d.task == s.d.task[step.u := t.d.task[step.u]] && t.d.task[step.u].pc.Ready?
            && t.d.q == if step.SyncStart? then QM.Add(s.d.q, step.sg, step.outNum, CookieOf(k), step.table) else s.d.q
  {
    hide Reachable, QM.Add, QM.CanAdd;
    SlotZeroStage(s, step.u);
  }

  lemma SlotZeroStage(s: State, u: nat)
    requires Reachable(s) && At(s.d, u) && s.d.task[u].pc.Ready?
    requires SlotZeroUnused(s.d, u) || !s.d.task[u].sync.NotSync?
    ensures Key(u, 0) in s.r.stage && OnList(s.r.stage[Key(u, 0)])
  {
    hide Reachable;
    ReachableInv(s);
    hide Inv;
    AtTask(s, u);
    AtKey(s, Key(u, 0));
  }

  lemma SyncKeeps(w: World, j: Joint, step: Step)
    requires JointInv(w, j) && Allowed(j.s, step) && IsSyncStep(step)
    ensures JointInv(w, j.(s := NextState(j.s, step)))
  {
    hide JointInv, Reachable, RecordGrows, RepliesTied, QueueElsewhere, QM.Add, QM.CanAdd;
    IsReachable(w, j);
    StepGrows(j.s, step);
    SyncStages(j.s, step);
    var e := Take(j.s, step);
    hide NextState;
    var t, k := NextState(j.s, step), Key(step.u, 0);
    RowAt(w, j, k);
    if step.SyncStart? {
      AddedQueue(w, j, t, k, step.sg, step.outNum, step.table);
    } else {
      SameQueue(w, j, t, k);
    }
    RepliesAre(w, j);
    RepliesStep(j.s.d, t.d, j.log, step.u, t.d.task[step.u]);
    DriveKeeps(w, j, t, k, t.r.stage[k]);
  }

  // ---------------------------------------------------------------------
  // The device's answer
  // ---------------------------------------------------------------------

  lemma CompleteRecord(s: State, head: nat, len: uint32, value: nat)
    requires Reachable(s) && Allowed(s, DeviceComplete(head, len, value))
    ensures var k, t := KeyOf(s.d.q.out[head].cookie), NextState(s, DeviceComplete(head, len, value));
            && k in s.r.stage && HeadOf(s.r.stage[k]) == Some(head) && s.r.stage[k].io !in s.r.done
            && t.r == s.r.(done := s.r.done[s.r.stage[k].io := Answer(value)])
            && t.d.task == s.d.task && t.d.replies == s.d.replies && t.d.q.out == s.d.q.out
            && QM.UsedIds(t.d.q.used) == QM.UsedIds(s.d.q.used) + [head]
  {
    CompleteFacts(s, head);
    hide Reachable;
  }

  lemma CompleteFacts(s: State, head: nat)
    requires Reachable(s) && head in s.d.q.held && head in s.d.q.out
    ensures var k := KeyOf(s.d.q.out[head].cookie);
            k in s.r.stage && HeadOf(s.r.stage[k]) == Some(head) && s.r.stage[k].io !in s.r.done
  {
    hide Reachable;
    ReachableInv(s);
    hide *;
    HeldFacts(s, head);
  }

  lemma HeldFacts(s: State, head: nat)
    requires Inv(s) && head in s.d.q.held && head in s.d.q.out
    ensures var k := KeyOf(s.d.q.out[head].cookie);
            k in s.r.stage && HeadOf(s.r.stage[k]) == Some(head) && s.r.stage[k].io !in s.r.done
  {
    hide Inv;
    HeldHead(s, head);
    AnswerAt(s, KeyOf(s.d.q.out[head].cookie));
  }

  lemma AnswerAt(s: State, k: Key)
    requires Inv(s) && k in s.r.stage
    ensures k in s.d.resp && AnswerOk(s.r.stage[k], s.d.resp[k], QM.UsedIds(s.d.q.used), s.r.done)
  {
    hide Domains, ListOk, SlotsOk, QueueOk, TasksOk, PendingOk, RepliesOk, HomesOk, CountsOk, LogOk, SyncLogOk;
  }

  lemma HeldHead(s: State, head: nat)
    requires Inv(s) && head in s.d.q.held && head in s.d.q.out
    ensures HeadOk(head, s.d.q.out[head].cookie, s.r.stage) && head !in QM.UsedIds(s.d.q.used)
  {
    hide Domains, ListOk, SlotsOk, TasksOk, PendingOk, AnswersOk, RepliesOk, HomesOk, CountsOk, LogOk, SyncLogOk;
  }

  /** What the answer comes to by the slot's own record. */
  ghost function TableAnswer(j: Joint, head: nat, bytes: seq<uint8>): (r: Joint)
    requires head in j.s.d.q.out
    ensures r.s == j.s
  {
    var k := KeyOf(j.s.d.q.out[head].cookie);
    if Serves(j, head, k) then
      j.(m := Written(j.m, RowOf(k), bytes), log := j.log.(wrote := j.log.wrote[j.s.r.stage[k].io := bytes]))
    else j
  }

  /** The chain leads a read into the slot's bounce buffer or the caller's pages,
      and a write nowhere. */
  lemma ChainLeads(w: World, j: Joint, head: nat, k: Key, bytes: seq<uint8>)
    requires JointInv(w, j) && Serves(j, head, k) && j.s.r.stage[k].head == head
    requires |bytes| <= Total(DataIn(w, k, j.s.d.q.out[head]))
    ensures |bytes| <= j.m.table[RowOf(k)].size && (j.m.table[RowOf(k)].isWrite ==> bytes == [])
    ensures AfterAnswer(w, j, head, bytes) == TableAnswer(j, head, bytes)
  {
    var i, x := RowOf(k), j.m.table[RowOf(k)];
    RowAt(w, j, k);
    StoreIs(w, j);
    assert DataOk(|j.m.ram|, x);
    DataInIs(w, k, x, j.m.bounce[i], j.s.d.q.out[head]);
    hide JointInv, StoreOk, DataIn, RecordFor, Scatter;
    IntoSegments(j.m.ram, x, j.m.bounce[i], bytes);
  }

  lemma DataInIs(w: World, k: Key, x: Data, bounce: uint32, r: QM.Request)
    requires r.sg == ChainOf(x, w.header(k), w.response(k), bounce) && r.outNum == ReadableOf(x, w.header(k), bounce)
    ensures DataIn(w, k, r) == if x.isWrite then [] else DataSegments(x, bounce)
  {
    hide DataSegments;
  }

  lemma IntoSegments(ram: Ram, x: Data, bounce: uint32, bytes: seq<uint8>)
    requires DataOk(|ram|, x) && bounce + BOUNCE_BUF_SIZE <= |ram|
    requires |bytes| <= Total(if x.isWrite then [] else DataSegments(x, bounce))
    ensures |bytes| <= x.size && (x.isWrite ==> bytes == [])
    ensures WrittenInto(ram, if x.isWrite then [] else DataSegments(x, bounce), bytes)
         == Received(ram, x, bounce, bytes)
  {
    if !x.isWrite && x.usingBounce {
      ScatterOne(ram, Sg(bounce, x.size), bytes);
      hide Scatter, Overwrite;
    }
  }

  lemma ScatterOne(ram: Ram, sg: Sg, bytes: seq<uint8>)
    requires sg.addr + sg.len <= |ram|
    ensures Total([sg]) == sg.len && Inside(|ram|, [sg])
    ensures |bytes| <= sg.len ==> Scatter(ram, [sg], bytes) == Overwrite(ram, sg.addr, bytes)
  {
    var tail := [sg][1..];
    assert tail == [];
    if |bytes| <= sg.len {
      assert bytes[..|bytes|] == bytes && bytes[|bytes|..] == [];
      assert Scatter(ram, [sg], bytes) == Scatter(Overwrite(ram, sg.addr, bytes), tail, []);
    }
  }

  lemma CompleteDataKeeps(w: World, j: Joint, head: nat, len: uint32, value: nat, bytes: seq<uint8>)
    requires JointInv(w, j) && Can(w, j, Drive(DeviceComplete(head, len, value), bytes))
    ensures JointInv(w, After(w, j, Drive(DeviceComplete(head, len, value), bytes)))
  {
    var step := DeviceComplete(head, len, value);
    var k, a, t := KeyOf(j.s.d.q.out[head].cookie), TableAnswer(j, head, bytes), NextState(j.s, step);
    hide Reachable, NextState, JointInv, TableAnswer;
    IsReachable(w, j);
    CompleteRecord(j.s, head, len, value);
    if Serves(j, head, k) {
      ChainLeads(w, j, head, k, bytes);
    }
    SameAnswer(w, j, step, bytes);
    hide Can, After;
    var e := Take(j.s, step);
    AnsweredRows(w, j, t, head, bytes);
    AnsweredLog(w, j, t, head, value, bytes);
    AnsweredStore(w, j, head, bytes);
    RepliesAre(w, j);
    RepliesLater(j.s.d, t.d, j.log, a.log);
    AnsweredInv(w, j, a, t);
  }

  lemma SameAnswer(w: World, j: Joint, step: Step, bytes: seq<uint8>)
    requires Can(w, j, Drive(step, bytes)) && step.DeviceComplete?
    requires Serves(j, step.head, KeyOf(j.s.d.q.out[step.head].cookie)) ==>
               AfterAnswer(w, j, step.head, bytes) == TableAnswer(j, step.head, bytes)
    ensures After(w, j, Drive(step, bytes)) == TableAnswer(j, step.head, bytes).(s := NextState(j.s, step))
  {
    hide NextState, Written, WrittenInto;
  }

  lemma AnsweredInv(w: World, j: Joint, a: Joint, t: State)
    requires JointInv(w, j) && Reachable(t) && t.r.stage == j.s.r.stage && t.d.q.out == j.s.d.q.out
    requires a.m.bounce == j.m.bounce && StoreTied(a.m, t.r.stage) && LogTied(w, a.log, t.r) && RepliesTied(t.d, a.log)
    requires RowsTied(w, t.r.stage, a.m, QM.UsedIds(t.d.q.used), a.log)
    ensures JointInv(w, a.(s := t))
  {
    hide Reachable, RowsTied, ChainTied, LogTied, RepliesTied, StoreTied;
  }

  lemma RepliesLater(d: Driver, d': Driver, log: Log, log': Log)
    requires RepliesTied(d, log) && d'.task == d.task && d'.replies == d.replies && log'.delivered == log.delivered
    ensures RepliesTied(d', log')
  {}

  lemma AnsweredStore(w: World, j: Joint, head: nat, bytes: seq<uint8>)
    requires JointInv(w, j) && head in j.s.d.q.out
    ensures StoreTied(TableAnswer(j, head, bytes).m, j.s.r.stage)
    ensures TableAnswer(j, head, bytes).m.bounce == j.m.bounce
    ensures TableAnswer(j, head, bytes).log.delivered == j.log.delivered
  {
    hide Reachable, RowsTied, ChainsTied, LogTied, RepliesTied, StoreOk, Received;
    var k := KeyOf(j.s.d.q.out[head].cookie);
    if Serves(j, head, k) {
      WrittenOk(j.m, RowOf(k), bytes);
    }
  }

  lemma AnsweredLog(w: World, j: Joint, t: State, head: nat, value: nat, bytes: seq<uint8>)
    requires JointInv(w, j) && head in j.s.d.q.out && KeyOf(j.s.d.q.out[head].cookie) in j.s.r.stage
    requires var s := j.s.r.stage[KeyOf(j.s.d.q.out[head].cookie)];
             && IoOf(s).Some? && s.io !in j.s.r.done
             && t.r == j.s.r.(done := j.s.r.done[s.io := Answer(value)])
    ensures LogTied(w, TableAnswer(j, head, bytes).log, t.r)
  {
    hide Reachable, RowsTied, ChainsTied, RepliesTied, StoreTied, Written, DeliveryOk;
  }

  lemma AnsweredRows(w: World, j: Joint, t: State, head: nat, bytes: seq<uint8>)
    requires JointInv(w, j) && head in j.s.d.q.out
    requires var k := KeyOf(j.s.d.q.out[head].cookie);
             && k in j.s.r.stage && HeadOf(j.s.r.stage[k]) == Some(head)
             && (Serves(j, head, k) ==>
                   |bytes| <= j.m.table[RowOf(k)].size && (j.m.table[RowOf(k)].isWrite ==> bytes == []))
    requires t.r.stage == j.s.r.stage && QM.UsedIds(t.d.q.used) == QM.UsedIds(j.s.d.q.used) + [head]
    ensures var a := TableAnswer(j, head, bytes);
            RowsTied(w, j.s.r.stage, a.m, QM.UsedIds(t.d.q.used), a.log)
  {
    var k, a := KeyOf(j.s.d.q.out[head].cookie), TableAnswer(j, head, bytes);
    var used, used' := QM.UsedIds(j.s.d.q.used), QM.UsedIds(t.d.q.used);
    hide JointInv, SameRow, RowsTied, TableAnswer, SameLog, QM.UsedIds;
    RowAt(w, j, k);
    AnsweredRow(w, j, head, bytes, used');
    OtherHeads(w, j, k, head);
    AnsweredElsewhere(w, j, head, bytes);
    AnsweredLogs(w, j, head, bytes);
    RowsAre(w, j);
    hide RowTied;
    RowsMove(w, j.s.r.stage, j.m, used, j.log, a.m, used', a.log, k, j.s.r.stage[k]);
    assert j.s.r.stage[k := j.s.r.stage[k]] == j.s.r.stage;
  }

  lemma AnsweredLogs(w: World, j: Joint, head: nat, bytes: seq<uint8>)
    requires JointInv(w, j) && head in j.s.d.q.out
    requires var k := KeyOf(j.s.d.q.out[head].cookie); k in j.s.r.stage && HeadOf(j.s.r.stage[k]) == Some(head)
    ensures var k, a := KeyOf(j.s.d.q.out[head].cookie), TableAnswer(j, head, bytes);
            forall i | i in j.s.r.stage && i != k && IoOf(j.s.r.stage[i]).Some? ::
              SameLog(j.log, a.log, j.s.r.stage[i].io)
  {
    OtherIos(w, j, KeyOf(j.s.d.q.out[head].cookie));
    hide JointInv, Written;
  }

  lemma AnsweredElsewhere(w: World, j: Joint, head: nat, bytes: seq<uint8>)
    requires JointInv(w, j) && head in j.s.d.q.out
    ensures forall i: nat | i != RowOf(KeyOf(j.s.d.q.out[head].cookie)) && HasSlot(j.m, i) ::
              SameRow(j.m, TableAnswer(j, head, bytes).m, i)
  {
    var k, a := KeyOf(j.s.d.q.out[head].cookie), TableAnswer(j, head, bytes);
    StoreIs(w, j);
    hide JointInv, StoreOk, Written, BufferOf;
    forall i: nat | i != RowOf(k) && HasSlot(j.m, i)
      ensures SameRow(j.m, a.m, i)
    {
      if Serves(j, head, k) {
        WrittenElsewhere(j.m, RowOf(k), bytes, i);
        WrittenTable(j.m, RowOf(k), bytes);
      }
    }
  }

  lemma RowsAre(w: World, j: Joint)
    requires JointInv(w, j)
    ensures RowsTied(w, j.s.r.stage, j.m, QM.UsedIds(j.s.d.q.used), j.log)
  {}

  lemma StoreIs(w: World, j: Joint)
    requires JointInv(w, j)
    ensures StoreOk(j.m)
  {}

  lemma WrittenTable(m: Store, i: nat, bytes: seq<uint8>)
    requires HasSlot(m, i)
    ensures Written(m, i, bytes).table == m.table
  {}

  lemma OtherHeads(w: World, j: Joint, k: Key, head: nat)
    requires JointInv(w, j) && k in j.s.r.stage && head in j.s.d.q.out && k == KeyOf(j.s.d.q.out[head].cookie)
    ensures forall i | i in j.s.r.stage && i != k && j.s.r.stage[i].Flying? :: j.s.r.stage[i].head != head
  {
    hide Reachable, StoreTied, LogTied, RepliesTied, RowsTied, ChainsTied;
    ReachableInv(j.s);
    hide Inv;
    forall i | i in j.s.r.stage && i != k && j.s.r.stage[i].Flying?
      ensures j.s.r.stage[i].head != head
    {
      FlyingCookie(j.s, i);
    }
  }

  lemma OtherIos(w: World, j: Joint, k: Key)
    requires JointInv(w, j) && k in j.s.r.stage && IoOf(j.s.r.stage[k]).Some?
    ensures forall i | i in j.s.r.stage && i != k && IoOf(j.s.r.stage[i]).Some? ::
              j.s.r.stage[i].io != j.s.r.stage[k].io
  {
    hide Reachable, StoreTied, LogTied, RepliesTied, RowsTied, ChainsTied;
    ReachableInv(j.s);
    hide Inv;
    forall i | i in j.s.r.stage && i != k && IoOf(j.s.r.stage[i]).Some?
      ensures j.s.r.stage[i].io != j.s.r.stage[k].io
    {
      OwnIo(j.s, k, i);
    }
  }

  /** The slot answered has the device's bytes in its bounce buffer. */
  lemma AnsweredRow(w: World, j: Joint, head: nat, bytes: seq<uint8>, used': seq<nat>)
    requires JointInv(w, j) && head in j.s.d.q.out && used' == QM.UsedIds(j.s.d.q.used) + [head]
    requires var k := KeyOf(j.s.d.q.out[head].cookie);
             && k in j.s.r.stage && HeadOf(j.s.r.stage[k]) == Some(head)
             && (Serves(j, head, k) ==> |bytes| <= j.m.table[RowOf(k)].size)
    ensures var k, a := KeyOf(j.s.d.q.out[head].cookie), TableAnswer(j, head, bytes);
            RowTied(w, k, j.s.r.stage[k], a.m, used', a.log)
  {
    var k := KeyOf(j.s.d.q.out[head].cookie);
    RowAt(w, j, k);
    StoreIs(w, j);
    hide JointInv, StoreOk, Written, BufferOf, RecordFor, QM.UsedIds;
    if Serves(j, head, k) && j.m.table[RowOf(k)].usingBounce {
      SizeBounded(j.m, RowOf(k));
      WrittenBuffer(j.m, RowOf(k), bytes);
    }
    WrittenTable(j.m, RowOf(k), bytes);
  }

  lemma SizeBounded(m: Store, i: nat)
    requires HasSlot(m, i) && StoreOk(m) && m.table[i].usingBounce
    ensures m.table[i].size <= BOUNCE_BUF_SIZE
  {}

  // ---------------------------------------------------------------------
  // What tasks do to a slot's data, and callers to their own memory
  // ---------------------------------------------------------------------

  /** Events that leave the pipeline alone. */
  lemma DataKeeps(w: World, j: Joint, m: Store, log: Log, k: Key)
    requires JointInv(w, j) && k in j.s.r.stage
    requires StoreOk(m) && |m.table| == |j.m.table| && m.bounce == j.m.bounce
    requires forall i: nat | i != RowOf(k) && HasSlot(j.m, i) :: SameRow(j.m, m, i)
    requires forall i | i in j.s.r.stage && i != k && IoOf(j.s.r.stage[i]).Some? ::
               SameLog(j.log, log, j.s.r.stage[i].io)
    requires RowTied(w, k, j.s.r.stage[k], m, QM.UsedIds(j.s.d.q.used), log)
    requires LogTied(w, log, j.s.r) && j.log.delivered.Keys <= log.delivered.Keys
    ensures JointInv(w, j.(m := m, log := log))
  {
    RowsAre(w, j);
    hide Reachable, RowTied, RowsTied, SameLog, DeliveryOk, StoreOk, QM.UsedIds;
    RowsMove(w, j.s.r.stage, j.m, QM.UsedIds(j.s.d.q.used), j.log, m, QM.UsedIds(j.s.d.q.used), log, k, j.s.r.stage[k]);
    assert j.s.r.stage[k := j.s.r.stage[k]] == j.s.r.stage;
    MappedSlots(j.m, m, j.s.r.stage, k);
  }

  lemma MappedSlots(m: Store, m': Store, stage: map<Key, Stage>, k: Key)
    requires StoreTied(m, stage) && |m'.table| == |m.table| && k in stage && k.slot < MAX_INFLIGHT
    requires forall i: nat | i != RowOf(k) && HasSlot(m, i) :: SameRow(m, m', i)
    ensures SlotsOnly(m'.table, stage)
  {
    hide BufferOf;
    RowsAreKeys(k);
    forall i | 0 <= i < |m'.table| && m'.table[i].mapped
      ensures KeyAt(i) in stage
    {
      if i != RowOf(k) {
        assert HasSlot(m, i);
        assert SameRow(m, m', i);
      }
    }
  }

  lemma FillKeeps(w: World, j: Joint, u: nat)
    requires JointInv(w, j) && Can(w, j, FillData(u))
    ensures JointInv(w, After(w, j, FillData(u)))
  {
    var k, io := FillKey(j.s, u), j.s.d.task[u].pc.io;
    var x, i, a := RecordFor(w, io), RowOf(k), After(w, j, FillData(u));
    IsReachable(w, j);
    InFilling(j.s, u);
    RowAt(w, j, k);
    StoreIs(w, j);
    OtherIos(w, j, k);
    RecordFits(w, j.m, io);
    GivenIsLogged(w, j, io, CallersBytes(j.m.ram, x));
    hide JointInv, Reachable, StoreOk, Filled, CallerOk, RecordFor, CallersBytes, LogTied;
    FilledOk(j.m, i, x);
    FilledFields(j.m, i, x);
    forall n: nat | n != i && HasSlot(j.m, n)
      ensures SameRow(j.m, a.m, n)
    {
      FilledElsewhere(j.m, i, x, n);
    }
    FilledRow(w, j, k, io, x, QM.UsedIds(j.s.d.q.used));
    DataKeeps(w, j, a.m, a.log, k);
  }

  lemma RecordFits(w: World, m: Store, io: Io)
    requires CallerOk(w, m, io)
    ensures DataOk(|m.ram|, RecordFor(w, io)) && Clear(RecordFor(w, io).pages, m.bounce)
  {
    var t := w.transfer(io);
    PreparedOk(|m.ram|, t.data, t.length, t.isWrite);
    PreparedClear(t.data, t.length, t.isWrite, m.bounce);
  }

  lemma GivenIsLogged(w: World, j: Joint, io: Io, bytes: seq<uint8>)
    requires JointInv(w, j) && io in j.s.r.home
    ensures LogTied(w, j.log.(given := j.log.given[io := bytes]), j.s.r)
  {
    hide DeliveryOk;
  }

  lemma FilledFields(m: Store, i: nat, x: Data)
    requires HasSlot(m, i)
    ensures var r := Filled(m, i, x);
            |r.ram| == |m.ram| && r.table == m.table[i := x] && r.bounce == m.bounce
  {}

  lemma FilledRow(w: World, j: Joint, k: Key, io: Io, x: Data, used: seq<nat>)
    requires k in j.s.r.stage && j.s.r.stage[k] == Reserved(io) && k.slot < MAX_INFLIGHT && HasSlot(j.m, RowOf(k))
    requires x == RecordFor(w, io) && DataOk(|j.m.ram|, x) && io !in j.log.delivered
    ensures RowTied(w, k, j.s.r.stage[k], Filled(j.m, RowOf(k), x), used,
                    j.log.(given := j.log.given[io := CallersBytes(j.m.ram, x)]))
  {
    FilledFields(j.m, RowOf(k), x);
    if Bounced(x, true) {
      FilledBuffer(j.m, RowOf(k), x);
    }
    hide Filled, RecordFor, BufferOf;
  }

  lemma UndoKeeps(w: World, j: Joint, u: nat)
    requires JointInv(w, j) && Can(w, j, UndoFill(u))
    ensures JointInv(w, After(w, j, UndoFill(u)))
  {
    hide JointInv, Reachable, StoreOk, RecordFor, LogTied, MappingOf;
    var k, i := FillKey(j.s, u), RowOf(FillKey(j.s, u));
    var m := Released(j.m, i);
    assert After(w, j, UndoFill(u)) == j.(m := m);
    hide After;
    IsReachable(w, j);
    InFilling(j.s, u);
    RowAt(w, j, k);
    StoreIs(w, j);
    LogIs(w, j);
    ReleasedOk(j.m, i);
    ReleasedRow(w, k, j.s.r.stage[k], j.m, QM.UsedIds(j.s.d.q.used), j.log);
    ReleasedOthers(j.m, i);
    hide Released, RowTied, SameRow, SameLog;
    DataKeeps(w, j, m, j.log, k);
  }

  lemma ReleasedRow(w: World, k: Key, s: Stage, m: Store, used: seq<nat>, log: Log)
    requires RowTied(w, k, s, m, used, log) && s.Reserved? && s.io in log.given && StoreOk(m)
    ensures RowTied(w, k, s, Released(m, RowOf(k)), used, log)
  {
    hide RecordFor, MappingOf;
    assert DataOk(|m.ram|, m.table[RowOf(k)]);
  }

  lemma ReleasedOthers(m: Store, i: nat)
    requires HasSlot(m, i)
    ensures forall n: nat | n != i && HasSlot(m, n) :: SameRow(m, Released(m, i), n)
    ensures |Released(m, i).table| == |m.table| && Released(m, i).bounce == m.bounce
  {
    hide MappingOf;
  }

  lemma LogIs(w: World, j: Joint)
    requires JointInv(w, j)
    ensures LogTied(w, j.log, j.s.r)
  {}

  lemma CallerKeeps(w: World, j: Joint, ram: Ram)
    requires JointInv(w, j) && Can(w, j, CallerWrites(ram))
    ensures JointInv(w, j.(m := j.m.(ram := ram)))
  {
    var m := j.m.(ram := ram);
    var used := QM.UsedIds(j.s.d.q.used);
    hide Reachable, ChainTied, DeliveryOk, BufferOf, Clear, DataOk, Tied;
    forall k | k in j.s.r.stage
      ensures RowTied(w, k, j.s.r.stage[k], m, used, j.log)
    {
      RowAt(w, j, k);
      RowSame(w, k, j.s.r.stage[k], j.m, m, used, used, j.log, j.log);
    }
    assert RecordsOk(|m.ram|, m.table, m.bounce);
  }

  lemma FinishKeeps(w: World, j: Joint, u: nat)
    requires JointInv(w, j) && Can(w, j, FinishData(u))
    ensures JointInv(w, After(w, j, FinishData(u)))
  {
    hide JointInv, CallersBytes, Actual, Finished, Reachable, LogTied;
    var pc := j.s.d.task[u].pc;
    var k, a := pc.key, After(w, j, FinishData(u));
    var v, length, i := w.verdict(pc.answer), w.transfer(pc.io).length, RowOf(pc.key);
    FinishedLog(w, j, u);
    FinishIs(w, j, u);
    hide After, Can;
    IsReachable(w, j);
    ClosingSlot(j.s, u, k);
    StoreIs(w, j);
    OtherIos(w, j, k);
    FinishedFields(j.m, i, v.error, v.residual, length);
    FinishedOk(j.m, i, v.error, v.residual, length);
    FinishedOthers(j.m, a.m, i, v.error, v.residual, length);
    FinishedRow(w, k, j.s.r.stage[k], a.m, QM.UsedIds(j.s.d.q.used), a.log);
    hide StoreOk, RowTied, SameRow, QM.UsedIds, RowOf;
    DataKeeps(w, j, a.m, a.log, k);
  }

  lemma FinishIs(w: World, j: Joint, u: nat)
    requires Can(w, j, FinishData(u))
    ensures var pc, a := j.s.d.task[u].pc, After(w, j, FinishData(u));
            var v := w.verdict(pc.answer);
            && IsClosing(j, u) && pc.io !in j.log.delivered
            && a.m == Finished(j.m, RowOf(pc.key), v.error, v.residual, w.transfer(pc.io).length)
            && a == j.(m := a.m, log := a.log) && pc.io in a.log.delivered
            && a.log == j.log.(delivered := j.log.delivered[pc.io := a.log.delivered[pc.io]])
  {
    hide Finished, CallersBytes, Actual;
  }

  lemma FinishedRow(w: World, k: Key, s: Stage, m: Store, used: seq<nat>, log: Log)
    requires k.slot < MAX_INFLIGHT && HasSlot(m, RowOf(k)) && s.Closed? && s.io in log.delivered
    requires !m.table[RowOf(k)].mapped
    ensures RowTied(w, k, s, m, used, log)
  {}

  lemma FinishedOthers(m: Store, m': Store, i: nat, error: int, residual: uint32, length: uint32)
    requires HasSlot(m, i) && StoreOk(m) && m' == Finished(m, i, error, residual, length)
    ensures forall n: nat | n != i && HasSlot(m, n) :: SameRow(m, m', n)
  {
    hide StoreOk, Finished, BufferOf;
    forall n: nat | n != i && HasSlot(m, n)
      ensures SameRow(m, m', n)
    {
      FinishedElsewhere(m, i, error, residual, length, n);
    }
  }

  lemma FinishedFields(m: Store, i: nat, error: int, residual: uint32, length: uint32)
    requires HasSlot(m, i)
    ensures var r := Finished(m, i, error, residual, length);
            |r.table| == |m.table| && r.bounce == m.bounce && |r.ram| == |m.ram| && !r.table[i].mapped
  {}

  /** A completion is logged as it must be. */
  lemma FinishedLog(w: World, j: Joint, u: nat)
    requires JointInv(w, j) && Can(w, j, FinishData(u))
    ensures LogTied(w, After(w, j, FinishData(u)).log, j.s.r)
  {
    var pc := j.s.d.task[u].pc;
    IsReachable(w, j);
    ClosingSlot(j.s, u, pc.key);
    ClosingDone(j.s, u);
    RowAt(w, j, pc.key);
    StoreIs(w, j);
    LogIs(w, j);
    hide JointInv, Reachable, StoreOk, Finished, RecordFor, Actual, CallersBytes, DeliveryOk;
    FinishedWell(w, j.m, RowOf(pc.key), pc.io, pc.answer, j.log);
  }

  lemma FinishedWell(w: World, m: Store, i: nat, io: Io, answer: Answer, log: Log)
    requires HasSlot(m, i) && StoreOk(m) && ReadKept(w, io, m.table[i], BufferOf(m, i), log)
    ensures var v, length := w.verdict(answer), w.transfer(io).length;
            var m' := Finished(m, i, v.error, v.residual, length);
            DeliveryOk(w, io, answer, log.wrote[io],
              Delivery(CallersBytes(m.ram, m.table[i]), CallersBytes(m'.ram, m.table[i]),
                       Actual(v.error, v.residual, length)))
  {
    var v, length := w.verdict(answer), w.transfer(io).length;
    BouncedLength(w, io);
    FinishedPages(m, i, v.error, v.residual, length);
    hide StoreOk, Finished, RecordFor, Actual, Gather, Inside;
    var n := Actual(v.error, v.residual, length);
    if Bounced(m.table[i], false) && n <= |log.wrote[io]| {
      assert BufferOf(m, i)[..n] == BufferOf(m, i)[..|log.wrote[io]|][..n];
    }
  }

  lemma ClosingDone(s: State, u: nat)
    requires At(s.d, u) && s.d.task[u].pc.Closing? && Reachable(s)
    ensures s.d.task[u].pc.io in s.r.done && s.d.task[u].pc.answer == s.r.done[s.d.task[u].pc.io]
  {
    hide Reachable;
    ReachableInv(s);
    hide Inv;
    AtTask(s, u);
  }

  lemma BouncedLength(w: World, io: Io)
    ensures RecordFor(w, io).usingBounce ==> RecordFor(w, io).size == w.transfer(io).length
  {}

  // ---------------------------------------------------------------------

  lemma EventKeeps(w: World, j: Joint, e: Event)
    requires JointInv(w, j) && Can(w, j, e)
    ensures JointInv(w, After(w, j, e))
  {
    match e
    case Drive(step, bytes) => StepKeeps(w, j, step, bytes);
    case FillData(u) => FillKeeps(w, j, u);
    case UndoFill(u) => UndoKeeps(w, j, u);
    case FinishData(u) => FinishKeeps(w, j, u);
    case CallerWrites(ram) => CallerKeeps(w, j, ram);
  }

  lemma StepKeeps(w: World, j: Joint, step: Step, bytes: seq<uint8>)
    requires JointInv(w, j) && Can(w, j, Drive(step, bytes))
    ensures JointInv(w, After(w, j, Drive(step, bytes)))
  {
    hide JointInv, NextState;
    match step
    case Pop(u, io) => PopKeeps(w, j, u, io);
    case Abandon(u) => AbandonKeeps(w, j, u);
    case Post(u, sg, outNum, table) => PostKeeps(w, j, u, sg, outNum, table);
    case DeviceTake => TakeKeeps(w, j);
    case DeviceComplete(head, len, value) => CompleteDataKeeps(w, j, head, len, value, bytes);
    case GetBuf(u) => GetBufKeeps(w, j, u);
    case Recognise(u) => RecogniseKeeps(w, j, u);
    case Close(u) => CloseKeeps(w, j, u);
    case SendReply(u) => SendReplyKeeps(w, j, u);
    case _ => SyncKeeps(w, j, step);
  }
}
