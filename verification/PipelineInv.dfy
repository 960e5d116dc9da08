/** The invariant of the pipeline.  Beside the driver's own state it uses a
    record of where every buffer and every request is, which no step of the
    driver reads. */
module PipelineInv {
  import opened Types
  import opened Pipeline
  import QM = QueueModel

  /** Where a buffer is.  The `Sync` stages are those of slot 0 in the service
      of a DoIO, during which the slot stays on the free list. */
  datatype Stage =
    | Idle
    | Reserved(io: Io)
    | Flying(io: Io, head: nat)
    | Carried(io: Io, holder: nat)
    | Closed(io: Io, holder: nat)
    | SyncFlying(io: Io, head: nat)
    | SyncCarried(io: Io, holder: nat)
    | SyncPending(io: Io)
    | SyncTaken(io: Io)

  /** Where a request is: at a slot, in the hands of the task about to reply
      it, or no longer the pipeline's. */
  datatype Home = AtSlot(key: Key) | AtReply(holder: nat) | Gone

  /** `done` records what the device answered to each request, `accepted` the
      requests Submit took, `replied` those ReplyMsg was called for. */
  datatype Record = Record(stage: map<Key, Stage>, home: map<Io, Home>, done: map<Io, Answer>,
                           accepted: set<Io>, replied: set<Io>)

  datatype State = State(d: Driver, r: Record)

  predicate IsSync(s: Stage) { s.SyncFlying? || s.SyncCarried? || s.SyncPending? || s.SyncTaken? }

  /** Submitted and not yet uncounted. */
  predicate Busy(s: Stage) { s.Flying? || s.Carried? || s.Closed? }

  predicate OnList(s: Stage) { s.Idle? || IsSync(s) }

  function IoOf(s: Stage): Option<Io> { if s.Idle? then None else Some(s.io) }

  function HeadOf(s: Stage): Option<nat> { if s.Flying? || s.SyncFlying? then Some(s.head) else None }

  predicate Legal(units: set<nat>, k: Key) { k.unit in units && k.slot < MAX_INFLIGHT }

  // ---------------------------------------------------------------------

  ghost predicate Domains(d: Driver, stage: map<Key, Stage>)
  {
    && (forall u | u in d.units :: u < MAX_UNITS)
    && d.free.Keys == d.count.Keys == d.pending.Keys == d.task.Keys == d.units
    && d.slots.Keys == d.ids.Keys == d.resp.Keys == stage.Keys
    && (forall k :: k in stage <==> Legal(d.units, k))
  }

  /** A unit's free list holds, once each, the slots not in the pipeline's use. */
  ghost predicate ListOk(free: map<nat, seq<nat>>, stage: map<Key, Stage>)
  {
    && (forall u | u in free :: QM.Distinct(free[u]))
    && (forall u, s | u in free && s in free[u] :: s < MAX_INFLIGHT)
    && (forall k | k in stage :: k.unit in free && (k.slot in free[k.unit] <==> OnList(stage[k])))
  }

  /** inflight[] and the request ids say what stage the slot is in. */
  predicate SlotOk(k: Key, s: Stage, slot: Slot, id: nat)
  {
    && slot == (if Busy(s) then Slot(Some(s.io), Some(CookieOf(k))) else EMPTY)
    && (s.Reserved? || Busy(s) ==> id == IdOf(k))
    && (IsSync(s) ==> id == SYNC_ID && k.slot == 0)
  }

  ghost predicate SlotsOk(slots: map<Key, Slot>, ids: map<Key, nat>, stage: map<Key, Stage>)
  {
    forall k | k in stage :: k in slots && k in ids && SlotOk(k, stage[k], slots[k], ids[k])
  }

  predicate HeadOk(h: nat, c: Cookie, stage: map<Key, Stage>)
  {
    c == CookieOf(KeyOf(c)) && KeyOf(c) in stage && HeadOf(stage[KeyOf(c)]) == Some(h)
  }

  /** Outstanding heads and flying buffers are in bijection. */
  ghost predicate QueueOk(q: QM.Queue, stage: map<Key, Stage>)
  {
    && QM.Inv(q)
    && (forall h | h in q.out :: HeadOk(h, q.out[h].cookie, stage))
    && (forall k | k in stage && HeadOf(stage[k]).Some? ::
          HeadOf(stage[k]).value in q.out && q.out[HeadOf(stage[k]).value].cookie == CookieOf(k))
  }

  predicate SyncOk(t: Sync, s: Stage)
  {
    match t
    case NotSync => !IsSync(s)
    case Waiting(io) => IsSync(s) && !s.SyncTaken? && s.io == io
    case Got(io) => s == SyncTaken(io)
  }

  predicate PcOk(u: nat, pc: Pc, stage: map<Key, Stage>)
  {
    match pc
    case Filling(s, io) => Key(u, s) in stage && stage[Key(u, s)] == Reserved(io)
    case Hand(c) =>
      var k := KeyOf(c);
      c == CookieOf(k) && k in stage && (stage[k].Carried? || stage[k].SyncCarried?) && stage[k].holder == u
    case Closing(k, io, _) => k in stage && stage[k] == Closed(io, u)
    case _ => true
  }

  /** What a task is doing agrees with the stage of the buffer it does it to. */
  predicate TaskOk(u: nat, t: Task, stage: map<Key, Stage>)
  {
    && PcOk(u, t.pc, stage)
    && Key(u, 0) in stage && SyncOk(t.sync, stage[Key(u, 0)])
    && (t.pc.Filling? ==> t.sync.NotSync?)
    && (t.sync.Got? ==> t.pc.Ready?)
  }

  /** And the other way round. */
  predicate StageOk(k: Key, s: Stage, task: map<nat, Task>)
  {
    match s
    case Reserved(io) => k.unit in task && task[k.unit].pc == Filling(k.slot, io)
    case Carried(_, u) => u in task && task[u].pc == Hand(CookieOf(k))
    case SyncCarried(_, u) => u in task && task[u].pc == Hand(CookieOf(k))
    case Closed(io, u) => u in task && task[u].pc.Closing? && task[u].pc.key == k && task[u].pc.io == io
    case _ => true
  }

  ghost predicate TasksOk(task: map<nat, Task>, stage: map<Key, Stage>)
  {
    && (forall u | u in task :: TaskOk(u, task[u], stage))
    && (forall k | k in stage :: StageOk(k, stage[k], task))
  }

  ghost predicate PendingOk(pending: map<nat, Option<Cookie>>, stage: map<Key, Stage>)
  {
    forall u | u in pending ::
      Key(u, 0) in stage
      && pending[u] == if stage[Key(u, 0)].SyncPending? then Some(CookieOf(Key(u, 0))) else None
  }

  /** The device has answered, and the buffer still holds that answer. */
  predicate Answered(s: Stage, used: seq<nat>)
  {
    || s.Carried? || s.Closed? || s.SyncCarried? || s.SyncPending? || s.SyncTaken?
    || (HeadOf(s).Some? && HeadOf(s).value in used)
  }

  predicate AnswerOk(s: Stage, answer: Answer, used: seq<nat>, done: map<Io, Answer>)
  {
    && (Answered(s, used) ==> s.io in done && answer == done[s.io])
    && (!Answered(s, used) && IoOf(s).Some? ==> s.io !in done)
  }

  ghost predicate AnswersOk(resp: map<Key, Answer>, used: seq<nat>, stage: map<Key, Stage>, done: map<Io, Answer>)
  {
    forall k | k in stage :: k in resp && AnswerOk(stage[k], resp[k], used, done)
  }

  /** A task about to reply holds the device's answer to the request it replies. */
  predicate ReplyOk(u: nat, pc: Pc, home: map<Io, Home>, done: map<Io, Answer>, accepted: set<Io>)
  {
    match pc
    case Closing(_, io, a) => io in done && a == done[io]
    case Replying(io, a) => io in home && home[io] == AtReply(u) && io in done && a == done[io] && io in accepted
    case _ => true
  }

  ghost predicate RepliesOk(task: map<nat, Task>, home: map<Io, Home>, done: map<Io, Answer>, accepted: set<Io>)
  {
    forall u | u in task :: ReplyOk(u, task[u].pc, home, done, accepted)
  }

  predicate HomeOk(io: Io, h: Home, stage: map<Key, Stage>, task: map<nat, Task>, accepted: set<Io>)
  {
    match h
    case AtSlot(k) => k in stage && IoOf(stage[k]) == Some(io) && (Busy(stage[k]) <==> io in accepted)
    case AtReply(u) => u in task && task[u].pc.Replying? && task[u].pc.io == io
    case Gone => true
  }

  /** Every request is in the one place the record says. */
  ghost predicate HomesOk(stage: map<Key, Stage>, task: map<nat, Task>, home: map<Io, Home>, done: map<Io, Answer>,
                          accepted: set<Io>, replied: set<Io>)
  {
    && (forall k | k in stage && IoOf(stage[k]).Some? :: stage[k].io in home && home[stage[k].io] == AtSlot(k))
    && (forall io | io in home :: HomeOk(io, home[io], stage, task, accepted))
    && accepted <= home.Keys && done.Keys <= home.Keys
    && (forall io :: io in replied <==> io in accepted && io in home && home[io].Gone?)
  }

  /** The log: one reply for each request replied, with the device's answer. */
  ghost predicate LogOk(replies: seq<Reply>, replied: set<Io>, done: map<Io, Answer>)
  {
    && (forall i | 0 <= i < |replies| :: replies[i].io in replied)
    && (forall i | 0 <= i < |replies| :: replies[i].io in done && replies[i].answer == done[replies[i].io])
    && (forall i, j | 0 <= i < j < |replies| :: replies[i].io != replies[j].io)
    && (forall io | io in replied :: exists i | 0 <= i < |replies| :: replies[i].io == io)
  }

  ghost predicate SyncLogOk(answers: seq<Reply>, done: map<Io, Answer>)
  {
    forall i | 0 <= i < |answers| :: answers[i].io in done && answers[i].answer == done[answers[i].io]
  }

  ghost function BusyKeys(stage: map<Key, Stage>): set<Key> { set k | k in stage && Busy(stage[k]) }

  ghost function BusyOf(stage: map<Key, Stage>, u: nat): set<Key>
  {
    set k | k in stage && Busy(stage[k]) && k.unit == u
  }

  ghost predicate CountsOk(count: map<nat, nat>, occupied: nat, mask: set<nat>, stage: map<Key, Stage>)
  {
    && occupied == |BusyKeys(stage)|
    && (forall u | u in count :: count[u] == |BusyOf(stage, u)|)
    && (forall u | u in count && count[u] > 0 :: u in mask)
  }

  ghost predicate Inv(s: State)
  {
    var d, r := s.d, s.r;
    && Domains(d, r.stage)
    && ListOk(d.free, r.stage)
    && SlotsOk(d.slots, d.ids, r.stage)
    && QueueOk(d.q, r.stage)
    && TasksOk(d.task, r.stage)
    && PendingOk(d.pending, r.stage)
    && AnswersOk(d.resp, QM.UsedIds(d.q.used), r.stage, r.done)
    && RepliesOk(d.task, r.home, r.done, r.accepted)
    && HomesOk(r.stage, d.task, r.home, r.done, r.accepted, r.replied)
    && CountsOk(d.count, d.occupied, d.mask, r.stage)
    && LogOk(d.replies, r.replied, r.done)
    && SyncLogOk(d.answers, r.done)
  }

  // ---------------------------------------------------------------------
  // Runs.  The caller's duties are that a request is new when it is handed in
  // and that a DoIO finds slot 0 unused.
  // ---------------------------------------------------------------------

  predicate SlotZeroUnused(d: Driver, u: nat) { Key(u, 0) in d.slots && d.slots[Key(u, 0)].ioreq.None? }

  ghost predicate Allowed(s: State, step: Step)
  {
    && Enabled(s.d, step)
    && (step.Pop? ==> step.io !in s.r.home)
    && (step.SyncStart? ==> step.io !in s.r.home && SlotZeroUnused(s.d, step.u))
    && (step.SyncFail? ==> SlotZeroUnused(s.d, step.u))
  }

  ghost function SetStage(r: Record, k: Key, stage: Stage): Record
  {
    r.(stage := r.stage[k := stage])
  }

  ghost function NextRecord(d: Driver, r: Record, step: Step): Record
    requires Enabled(d, step)
  {
    match step
    case Pop(u, io) =>
      var k := Key(u, d.free[u][0]);
      SetStage(r, k, Reserved(io)).(home := r.home[io := AtSlot(k)])
    case Abandon(u) =>
      var pc := d.task[u].pc;
      SetStage(r, Key(u, pc.slot), Idle).(home := r.home[pc.io := Gone])
    case Post(u, _, _, _) =>
      var pc := d.task[u].pc;
      SetStage(r, Key(u, pc.slot), Flying(pc.io, d.q.free[0])).(accepted := r.accepted + {pc.io})
    case DeviceTake => r
    case DeviceComplete(head, _, value) =>
      var k := KeyOf(d.q.out[head].cookie);
      if k in r.stage && IoOf(r.stage[k]).Some? then r.(done := r.done[r.stage[k].io := Answer(value)]) else r
    case GetBuf(u) =>
      var c := d.q.out[d.q.used[0].id].cookie;
      var k := KeyOf(c);
      if k !in r.stage || r.stage[k].Idle? then r
      else if d.task[u].sync.Waiting? && c == CookieOf(Key(u, 0)) then SetStage(r, k, SyncTaken(r.stage[k].io))
      else if IsSync(r.stage[k]) then SetStage(r, k, SyncCarried(r.stage[k].io, u))
      else SetStage(r, k, Carried(r.stage[k].io, u))
    case Recognise(u) =>
      var c := d.task[u].pc.cookie;
      var k := KeyOf(c);
      if k !in r.stage || r.stage[k].Idle? then r
      else if Route(d, c).Some? then SetStage(r, k, Closed(r.stage[k].io, u))
      else SetStage(r, k, SyncPending(r.stage[k].io))
    case Close(u) =>
      var pc := d.task[u].pc;
      SetStage(r, pc.key, Idle).(home := r.home[pc.io := AtReply(u)])
    case SendReply(u) =>
      var pc := d.task[u].pc;
      r.(home := r.home[pc.io := Gone], replied := r.replied + {pc.io})
    case SyncStart(u, io, _, _, _) =>
      var k := Key(u, 0);
      var home := if d.task[u].sync.Got? then r.home[d.task[u].sync.io := Gone] else r.home;
      SetStage(r, k, SyncFlying(io, d.q.free[0])).(home := home[io := AtSlot(k)])
    case SyncFail(u) =>
      var r' := SetStage(r, Key(u, 0), Idle);
      if d.task[u].sync.Got? then r'.(home := r.home[d.task[u].sync.io := Gone]) else r'
    case SyncPickup(u) =>
      SetStage(r, Key(u, 0), SyncTaken(d.task[u].sync.io))
    case SyncFinish(u) =>
      SetStage(r, Key(u, 0), Idle).(home := r.home[d.task[u].sync.io := Gone])
  }

  ghost function NextState(s: State, step: Step): State
    requires Enabled(s.d, step)
  {
    State(Next(s.d, step), NextRecord(s.d, s.r, step))
  }
}
