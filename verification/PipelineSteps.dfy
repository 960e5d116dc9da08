/** Every step of the pipeline keeps its invariant. */
module PipelineSteps {
  import opened Types
  import opened Pipeline
  import opened PipelineInv
  import opened PipelineParts
  import QM = QueueModel

  /** What the invariant says of one buffer. */
  lemma AtKey(s: State, k: Key)
    requires Inv(s) && k in s.r.stage
    ensures Legal(s.d.units, k) && k.unit < MAX_UNITS
    ensures k in s.d.slots && k in s.d.ids && k in s.d.resp
    ensures At(s.d, k.unit)
    ensures SlotOk(k, s.r.stage[k], s.d.slots[k], s.d.ids[k])
    ensures StageOk(k, s.r.stage[k], s.d.task)
    ensures AnswerOk(s.r.stage[k], s.d.resp[k], QM.UsedIds(s.d.q.used), s.r.done)
    ensures IoOf(s.r.stage[k]).Some? ==> s.r.stage[k].io in s.r.home && s.r.home[s.r.stage[k].io] == AtSlot(k)
                                         && (Busy(s.r.stage[k]) <==> s.r.stage[k].io in s.r.accepted)
    ensures k.slot == 0 ==> SyncOk(s.d.task[k.unit].sync, s.r.stage[k])
  {
    if IoOf(s.r.stage[k]).Some? {
      assert HomeOk(s.r.stage[k].io, s.r.home[s.r.stage[k].io], s.r.stage, s.d.task, s.r.accepted);
    }
    if k.slot == 0 {
      assert k == Key(k.unit, 0);
      assert TaskOk(k.unit, s.d.task[k.unit], s.r.stage);
    }
  }

  /** What it says of one task. */
  lemma AtTask(s: State, u: nat)
    requires Inv(s) && u in s.d.task
    ensures At(s.d, u) && u < MAX_UNITS && Key(u, 0) in s.r.stage
    ensures TaskOk(u, s.d.task[u], s.r.stage)
    ensures ReplyOk(u, s.d.task[u].pc, s.r.home, s.r.done, s.r.accepted)
  {}

  lemma DomainsStep(d: Driver, d': Driver, stage: map<Key, Stage>, k: Key, to: Stage)
    requires Domains(d, stage) && k in stage
    requires d'.units == d.units && d'.free.Keys == d.free.Keys && d'.count.Keys == d.count.Keys
    requires d'.pending.Keys == d.pending.Keys && d'.task.Keys == d.task.Keys
    requires d'.slots.Keys == d.slots.Keys && d'.ids.Keys == d.ids.Keys && d'.resp.Keys == d.resp.Keys
    ensures Domains(d', stage[k := to])
  {}

  lemma InStage(s: State, k: Key)
    requires Inv(s) && (k in s.d.slots || k in s.d.ids || k in s.d.resp)
    ensures k in s.r.stage
  {}

  /** A request the pipeline has not met has no answer. */
  lemma NewIo(s: State, io: Io)
    requires Inv(s) && io !in s.r.home
    ensures io !in s.r.done && io !in s.r.accepted
  {}

  lemma PopKeepsInv(s: State, u: nat, io: Io)
    requires Inv(s) && Allowed(s, Pop(u, io))
    ensures Inv(NextState(s, Pop(u, io)))
  {
    hide ListOk, SlotsOk, QueueOk, TasksOk, PendingOk, AnswersOk, RepliesOk, HomesOk, CountsOk, LogOk, SyncLogOk,
         Domains;
    var d, r, n := s.d, s.r, NextState(s, Pop(u, io));
    var k, to, t := Key(u, d.free[u][0]), Reserved(io), n.d.task[u];
    InStage(s, k);
    AtTask(s, u);
    AtKey(s, k);
    ListPop(d.free, r.stage, u, to);
    NewIo(s, io);
    assert r.stage[k].Idle?;
    DomainsStep(d, n.d, r.stage, k, to);
    SlotsStep(d.slots, d.ids, n.d.slots, n.d.ids, r.stage, k, to);
    QueueKept(d.q, r.stage, k, to);
    TaskStep(d.task, r.stage, u, t, k, to);
    PendingKept(d.pending, r.stage, k, to);
    AnswersStep(d.resp, n.d.resp, QM.UsedIds(d.q.used), r.stage, r.done, k, to);
    RepliesStep(d.task, r.home, n.r.home, r.done, r.accepted, u, t, io, AtSlot(k));
    HomesNew(r.stage, d.task, r, u, t, k, to, io);
    CountsKept(d.count, d.occupied, d.mask, d.mask, r.stage, k, to);
  }

  lemma AbandonKeepsInv(s: State, u: nat)
    requires Inv(s) && Allowed(s, Abandon(u))
    ensures Inv(NextState(s, Abandon(u)))
  {
    hide ListOk, SlotsOk, QueueOk, TasksOk, PendingOk, AnswersOk, RepliesOk, HomesOk, CountsOk, LogOk, SyncLogOk,
         Domains;
    var d, r, n := s.d, s.r, NextState(s, Abandon(u));
    var k, to, t := Key(u, d.task[u].pc.slot), Idle, n.d.task[u];
    AtTask(s, u);
    AtKey(s, k);
    DomainsStep(d, n.d, r.stage, k, to);
    ListPush(d.free, r.stage, k, to);
    SlotsStep(d.slots, d.ids, d.slots, d.ids, r.stage, k, to);
    QueueKept(d.q, r.stage, k, to);
    TaskStep(d.task, r.stage, u, t, k, to);
    PendingKept(d.pending, r.stage, k, to);
    AnswersStep(d.resp, d.resp, QM.UsedIds(d.q.used), r.stage, r.done, k, to);
    RepliesStep(d.task, r.home, n.r.home, r.done, r.accepted, u, t, r.stage[k].io, Gone);
    HomesLeave(r.stage, d.task, r, u, t, k, Gone);
    CountsKept(d.count, d.occupied, d.mask, d.mask, r.stage, k, to);
  }

  lemma PostKeepsInv(s: State, u: nat, sg: seq<Sg>, outNum: nat, table: Option<nat>)
    requires Inv(s) && Allowed(s, Post(u, sg, outNum, table))
    ensures Inv(NextState(s, Post(u, sg, outNum, table)))
  {
    hide ListOk, SlotsOk, QueueOk, TasksOk, PendingOk, AnswersOk, RepliesOk, HomesOk, CountsOk, LogOk, SyncLogOk,
         Domains;
    var d, r, n := s.d, s.r, NextState(s, Post(u, sg, outNum, table));
    var k, io, t := Key(u, d.task[u].pc.slot), d.task[u].pc.io, n.d.task[u];
    var to := Flying(io, d.q.free[0]);
    AtTask(s, u);
    AtKey(s, k);
    DomainsStep(d, n.d, r.stage, k, to);
    ListKept(d.free, r.stage, k, to);
    SlotsStep(d.slots, d.ids, n.d.slots, d.ids, r.stage, k, to);
    QueueAdd(d.q, r.stage, k, to, sg, outNum, table);
    TaskStep(d.task, r.stage, u, t, k, to);
    PendingKept(d.pending, r.stage, k, to);
    FreshHead(s, sg, table);
    AnswersStep(d.resp, d.resp, QM.UsedIds(d.q.used), r.stage, r.done, k, to);
    RepliesKept(d.task, r.home, r.done, r.accepted, n.r.accepted, u, t);
    HomesAccept(r.stage, d.task, r, u, t, k, to);
    CountsUp(d.count, d.occupied, d.mask, r.stage, k, to);
  }

  /** The head AddBuf is about to use has nothing in the used ring. */
  lemma FreshHead(s: State, sg: seq<Sg>, table: Option<nat>)
    requires Inv(s) && QM.CanAdd(s.d.q, sg, table)
    ensures s.d.q.free[0] !in QM.UsedIds(s.d.q.used)
  {
    QM.FreeIsNotHead(s.d.q, s.d.q.free[0]);
  }

  lemma TakeKeepsInv(s: State)
    requires Inv(s) && Allowed(s, DeviceTake)
    ensures Inv(NextState(s, DeviceTake))
  {
    hide ListOk, SlotsOk, TasksOk, PendingOk, AnswersOk, RepliesOk, HomesOk, CountsOk, LogOk, SyncLogOk;
    QueueTake(s.d.q, s.r.stage);
  }

  lemma CompleteKeepsInv(s: State, head: nat, len: uint32, value: nat)
    requires Inv(s) && Allowed(s, DeviceComplete(head, len, value))
    ensures Inv(NextState(s, DeviceComplete(head, len, value)))
  {
    hide ListOk, SlotsOk, QueueOk, TasksOk, PendingOk, AnswersOk, RepliesOk, HomesOk, CountsOk, LogOk, SyncLogOk,
         Domains;
    var d, r, n := s.d, s.r, NextState(s, DeviceComplete(head, len, value));
    var k, used := KeyOf(d.q.out[head].cookie), QM.UsedIds(d.q.used);
    QueueComplete(d.q, r.stage, head, len);
    AtKey(s, k);
    OneKeyPerHead(s, k);
    HomesDone(r.stage, d.task, r, k, Answer(value));
    AnswersComplete(d.resp, used, r.stage, r.done, k, head, Answer(value));
    LogDone(d.replies, r.replied, d.answers, r.done, r.stage[k].io, Answer(value));
    RepliesDone(d.task, r.home, r.done, r.accepted, r.stage[k].io, Answer(value));
    SameDomains(d, n.d, r.stage);
  }

  lemma SameDomains(d: Driver, d': Driver, stage: map<Key, Stage>)
    requires Domains(d, stage)
    requires d' == d.(q := d'.q, resp := d'.resp) && d'.resp.Keys == d.resp.Keys
    ensures Domains(d', stage)
  {}

  lemma OneKeyPerHead(s: State, k: Key)
    requires Inv(s) && k in s.r.stage && HeadOf(s.r.stage[k]).Some?
    ensures forall j | j in s.r.stage && HeadOf(s.r.stage[j]) == HeadOf(s.r.stage[k]) :: j == k
  {}

  lemma RepliesDone(task: map<nat, Task>, home: map<Io, Home>, done: map<Io, Answer>, accepted: set<Io>,
                    io: Io, a: Answer)
    requires RepliesOk(task, home, done, accepted) && io !in done
    ensures RepliesOk(task, home, done[io := a], accepted)
  {
    forall u | u in task
      ensures ReplyOk(u, task[u].pc, home, done[io := a], accepted)
    {
      assert ReplyOk(u, task[u].pc, home, done, accepted);
    }
  }

  lemma GetBufKeepsInv(s: State, u: nat)
    requires Inv(s) && Allowed(s, GetBuf(u))
    ensures Inv(NextState(s, GetBuf(u)))
  {
    hide ListOk, SlotsOk, QueueOk, TasksOk, PendingOk, AnswersOk, RepliesOk, HomesOk, CountsOk, LogOk, SyncLogOk,
         Domains;
    var d, r, n := s.d, s.r, NextState(s, GetBuf(u));
    var head := d.q.used[0].id;
    var c := d.q.out[head].cookie;
    var k, t, used := KeyOf(c), n.d.task[u], QM.UsedIds(d.q.used);
    QueueGet(d.q, r.stage, Idle);
    var to := n.r.stage[k];
    AtKey(s, k);
    AtTask(s, u);
    OneKeyPerHead(s, k);
    QueueGet(d.q, r.stage, to);
    DomainsStep(d, n.d, r.stage, k, to);
    ListKept(d.free, r.stage, k, to);
    SlotsStep(d.slots, d.ids, d.slots, d.ids, r.stage, k, to);
    TaskStep(d.task, r.stage, u, t, k, to);
    PendingKept(d.pending, r.stage, k, to);
    AnswersGet(d.resp, used, r.stage, r.done, k, to);
    RepliesKept(d.task, r.home, r.done, r.accepted, r.accepted, u, t);
    HomesKept(r.stage, d.task, r, u, t, k, to);
    CountsKept(d.count, d.occupied, d.mask, d.mask, r.stage, k, to);
  }

  /** The constant-time decode is right: a pipeline cookie leads to its own
      slot, a DoIO's cookie to none. */
  lemma RouteIsRight(s: State, k: Key)
    requires Inv(s) && k in s.r.stage
    ensures s.r.stage[k].Flying? || s.r.stage[k].Carried? ==> Route(s.d, CookieOf(k)) == Some(k)
    ensures IsSync(s.r.stage[k]) ==>
      Route(s.d, CookieOf(k)).None? && k.slot == 0 && SyncOwner(s.d, CookieOf(k)) == Some(k.unit)
  {
    hide ListOk, QueueOk, TasksOk, PendingOk, AnswersOk, RepliesOk, HomesOk, CountsOk, LogOk, SyncLogOk;
    AtKey(s, k);
    if IsSync(s.r.stage[k]) {
      var other := Key(0, 1);
      if other in s.d.slots {
        AtKey(s, other);
      }
    }
  }

  lemma RecogniseKeepsInv(s: State, u: nat)
    requires Inv(s) && Allowed(s, Recognise(u))
    ensures Inv(NextState(s, Recognise(u)))
  {
    hide ListOk, SlotsOk, QueueOk, TasksOk, PendingOk, AnswersOk, RepliesOk, HomesOk, CountsOk, LogOk, SyncLogOk,
         Domains;
    var d, r, n := s.d, s.r, NextState(s, Recognise(u));
    var c := d.task[u].pc.cookie;
    var k, t, used := KeyOf(c), n.d.task[u], QM.UsedIds(d.q.used);
    AtTask(s, u);
    AtKey(s, k);
    RouteIsRight(s, k);
    var to := n.r.stage[k];
    DomainsStep(d, n.d, r.stage, k, to);
    ListKept(d.free, r.stage, k, to);
    SlotsStep(d.slots, d.ids, d.slots, d.ids, r.stage, k, to);
    QueueKept(d.q, r.stage, k, to);
    TaskStep(d.task, r.stage, u, t, k, to);
    if to.SyncPending? {
      PendingSet(d.pending, r.stage, k.unit, to);
    } else {
      PendingKept(d.pending, r.stage, k, to);
    }
    AnswersStep(d.resp, d.resp, used, r.stage, r.done, k, to);
    RepliesKept(d.task, r.home, r.done, r.accepted, r.accepted, u, t);
    HomesKept(r.stage, d.task, r, u, t, k, to);
    CountsKept(d.count, d.occupied, d.mask, d.mask, r.stage, k, to);
  }

  lemma CloseKeepsInv(s: State, u: nat)
    requires Inv(s) && Allowed(s, Close(u))
    ensures Inv(NextState(s, Close(u)))
  {
    hide ListOk, SlotsOk, QueueOk, TasksOk, PendingOk, AnswersOk, RepliesOk, HomesOk, CountsOk, LogOk, SyncLogOk,
         Domains;
    var d, r, n := s.d, s.r, NextState(s, Close(u));
    var k, io, t, to := d.task[u].pc.key, d.task[u].pc.io, n.d.task[u], Idle;
    AtTask(s, u);
    AtKey(s, k);
    CountsDown(d.count, d.occupied, d.mask, r.stage, k, to);
    DomainsStep(d, n.d, r.stage, k, to);
    ListPush(d.free, r.stage, k, to);
    SlotsStep(d.slots, d.ids, n.d.slots, d.ids, r.stage, k, to);
    QueueKept(d.q, r.stage, k, to);
    TaskStep(d.task, r.stage, u, t, k, to);
    PendingKept(d.pending, r.stage, k, to);
    AnswersStep(d.resp, d.resp, QM.UsedIds(d.q.used), r.stage, r.done, k, to);
    RepliesStep(d.task, r.home, n.r.home, r.done, r.accepted, u, t, io, AtReply(u));
    HomesLeave(r.stage, d.task, r, u, t, k, AtReply(u));
  }

  lemma SendReplyKeepsInv(s: State, u: nat)
    requires Inv(s) && Allowed(s, SendReply(u))
    ensures Inv(NextState(s, SendReply(u)))
  {
    hide ListOk, SlotsOk, QueueOk, TasksOk, PendingOk, AnswersOk, RepliesOk, HomesOk, CountsOk, LogOk, SyncLogOk;
    var d, r, n := s.d, s.r, NextState(s, SendReply(u));
    var io, a, t := d.task[u].pc.io, d.task[u].pc.answer, n.d.task[u];
    AtTask(s, u);
    TaskAlone(d.task, r.stage, u, t);
    RepliesStep(d.task, r.home, n.r.home, r.done, r.accepted, u, t, io, Gone);
    HomesReply(r.stage, d.task, r, u, t, io);
    LogReply(d.replies, r.replied, r.done, io, a);
  }

  lemma SyncStartKeepsInv(s: State, u: nat, io: Io, sg: seq<Sg>, outNum: nat, table: Option<nat>)
    requires Inv(s) && Allowed(s, SyncStart(u, io, sg, outNum, table))
    ensures Inv(NextState(s, SyncStart(u, io, sg, outNum, table)))
  {
    hide ListOk, SlotsOk, QueueOk, TasksOk, PendingOk, AnswersOk, RepliesOk, HomesOk, CountsOk, LogOk, SyncLogOk,
         Domains;
    var d, r, n := s.d, s.r, NextState(s, SyncStart(u, io, sg, outNum, table));
    var k, t, used := Key(u, 0), n.d.task[u], QM.UsedIds(d.q.used);
    var to := SyncFlying(io, d.q.free[0]);
    InStage(s, k);
    AtTask(s, u);
    AtKey(s, k);
    assert r.stage[k] == (if d.task[u].sync.Got? then SyncTaken(d.task[u].sync.io) else Idle);
    DomainsStep(d, n.d, r.stage, k, to);
    ListKept(d.free, r.stage, k, to);
    SlotsStep(d.slots, d.ids, d.slots, n.d.ids, r.stage, k, to);
    QueueAdd(d.q, r.stage, k, to, sg, outNum, table);
    TaskStep(d.task, r.stage, u, t, k, to);
    PendingKept(d.pending, r.stage, k, to);
    FreshHead(s, sg, table);
    NewIo(s, io);
    AnswersStep(d.resp, n.d.resp, used, r.stage, r.done, k, to);
    CountsKept(d.count, d.occupied, d.mask, n.d.mask, r.stage, k, to);
    if d.task[u].sync.Got? {
      var last, idle := d.task[u].sync.io, r.stage[k := Idle];
      var r1 := r.(home := r.home[last := Gone], stage := idle);
      var task1 := d.task[u := t];
      RepliesStep(d.task, r.home, r1.home, r.done, r.accepted, u, t, last, Gone);
      HomesLeave(r.stage, d.task, r, u, t, k, Gone);
      RepliesStep(task1, r1.home, n.r.home, r.done, r.accepted, u, t, io, AtSlot(k));
      HomesNew(idle, task1, r1, u, t, k, to, io);
      assert idle[k := to] == n.r.stage && task1[u := t] == n.d.task;
    } else {
      RepliesStep(d.task, r.home, n.r.home, r.done, r.accepted, u, t, io, AtSlot(k));
      HomesNew(r.stage, d.task, r, u, t, k, to, io);
    }
  }

  lemma SyncPickupKeepsInv(s: State, u: nat)
    requires Inv(s) && Allowed(s, SyncPickup(u))
    ensures Inv(NextState(s, SyncPickup(u)))
  {
    hide ListOk, SlotsOk, QueueOk, TasksOk, PendingOk, AnswersOk, RepliesOk, HomesOk, CountsOk, LogOk, SyncLogOk,
         Domains;
    var d, r, n := s.d, s.r, NextState(s, SyncPickup(u));
    var k, t, used := Key(u, 0), n.d.task[u], QM.UsedIds(d.q.used);
    var to := SyncTaken(d.task[u].sync.io);
    AtTask(s, u);
    AtKey(s, k);
    AtPending(s, u);
    DomainsStep(d, n.d, r.stage, k, to);
    ListKept(d.free, r.stage, k, to);
    SlotsStep(d.slots, d.ids, d.slots, d.ids, r.stage, k, to);
    QueueKept(d.q, r.stage, k, to);
    TaskStep(d.task, r.stage, u, t, k, to);
    PendingSet(d.pending, r.stage, u, to);
    AnswersStep(d.resp, d.resp, used, r.stage, r.done, k, to);
    RepliesKept(d.task, r.home, r.done, r.accepted, r.accepted, u, t);
    HomesKept(r.stage, d.task, r, u, t, k, to);
    CountsKept(d.count, d.occupied, d.mask, d.mask, r.stage, k, to);
  }

  lemma AtPending(s: State, u: nat)
    requires Inv(s) && u in s.d.pending
    ensures Key(u, 0) in s.r.stage && (s.d.pending[u].Some? <==> s.r.stage[Key(u, 0)].SyncPending?)
  {}

  lemma SyncFinishKeepsInv(s: State, u: nat)
    requires Inv(s) && Allowed(s, SyncFinish(u))
    ensures Inv(NextState(s, SyncFinish(u)))
  {
    hide ListOk, SlotsOk, QueueOk, TasksOk, PendingOk, AnswersOk, RepliesOk, HomesOk, CountsOk, LogOk, SyncLogOk,
         Domains;
    var d, r, n := s.d, s.r, NextState(s, SyncFinish(u));
    var k, t, used, io := Key(u, 0), n.d.task[u], QM.UsedIds(d.q.used), d.task[u].sync.io;
    AtTask(s, u);
    AtKey(s, k);
    DomainsStep(d, n.d, r.stage, k, Idle);
    ListKept(d.free, r.stage, k, Idle);
    SlotsStep(d.slots, d.ids, d.slots, d.ids, r.stage, k, Idle);
    QueueKept(d.q, r.stage, k, Idle);
    TaskStep(d.task, r.stage, u, t, k, Idle);
    PendingKept(d.pending, r.stage, k, Idle);
    AnswersStep(d.resp, d.resp, used, r.stage, r.done, k, Idle);
    RepliesStep(d.task, r.home, n.r.home, r.done, r.accepted, u, t, io, Gone);
    HomesLeave(r.stage, d.task, r, u, t, k, Gone);
    CountsKept(d.count, d.occupied, d.mask, n.d.mask, r.stage, k, Idle);
    SyncLogged(d.answers, r.done, io, d.resp[k]);
  }

  lemma SyncFailKeepsInv(s: State, u: nat)
    requires Inv(s) && Allowed(s, SyncFail(u))
    ensures Inv(NextState(s, SyncFail(u)))
  {
    hide ListOk, SlotsOk, QueueOk, TasksOk, PendingOk, AnswersOk, RepliesOk, HomesOk, CountsOk, LogOk, SyncLogOk,
         Domains;
    var d, r, n := s.d, s.r, NextState(s, SyncFail(u));
    var k, t, used := Key(u, 0), n.d.task[u], QM.UsedIds(d.q.used);
    InStage(s, k);
    AtTask(s, u);
    AtKey(s, k);
    assert r.stage[k] == (if d.task[u].sync.Got? then SyncTaken(d.task[u].sync.io) else Idle);
    DomainsStep(d, n.d, r.stage, k, Idle);
    ListKept(d.free, r.stage, k, Idle);
    SlotsStep(d.slots, d.ids, d.slots, n.d.ids, r.stage, k, Idle);
    QueueKept(d.q, r.stage, k, Idle);
    TaskStep(d.task, r.stage, u, t, k, Idle);
    PendingKept(d.pending, r.stage, k, Idle);
    AnswersStep(d.resp, n.d.resp, used, r.stage, r.done, k, Idle);
    CountsKept(d.count, d.occupied, d.mask, n.d.mask, r.stage, k, Idle);
    if d.task[u].sync.Got? {
      RepliesStep(d.task, r.home, n.r.home, r.done, r.accepted, u, t, d.task[u].sync.io, Gone);
      HomesLeave(r.stage, d.task, r, u, t, k, Gone);
    } else {
      RepliesKept(d.task, r.home, r.done, r.accepted, r.accepted, u, t);
      HomesKept(r.stage, d.task, r, u, t, k, Idle);
    }
  }

  lemma SyncLogged(answers: seq<Reply>, done: map<Io, Answer>, io: Io, a: Answer)
    requires SyncLogOk(answers, done) && io in done && a == done[io]
    ensures SyncLogOk(answers + [Reply(io, a)], done)
  {}
}
