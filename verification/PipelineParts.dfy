/** Each part of the pipeline's invariant under the small changes a step makes:
    one buffer moves from one stage to another, one task from one place in its
    code to another. */
module PipelineParts {
  import opened Types
  import opened Pipeline
  import opened PipelineInv
  import QM = QueueModel

  // --- free lists -------------------------------------------------------

  lemma ListKept(free: map<nat, seq<nat>>, stage: map<Key, Stage>, k: Key, to: Stage)
    requires ListOk(free, stage) && k in stage && OnList(stage[k]) == OnList(to)
    ensures ListOk(free, stage[k := to])
  {}

  lemma ListPop(free: map<nat, seq<nat>>, stage: map<Key, Stage>, u: nat, to: Stage)
    requires ListOk(free, stage) && u in free && free[u] != [] && Key(u, free[u][0]) in stage && !OnList(to)
    ensures ListOk(free[u := free[u][1..]], stage[Key(u, free[u][0]) := to])
    ensures OnList(stage[Key(u, free[u][0])])
  {
    QM.HeadAndTail(free[u]);
    assert free[u][0] in free[u];
  }

  lemma ListPush(free: map<nat, seq<nat>>, stage: map<Key, Stage>, k: Key, to: Stage)
    requires ListOk(free, stage) && k in stage && k.slot < MAX_INFLIGHT && !OnList(stage[k]) && OnList(to)
    ensures k.unit in free && ListOk(free[k.unit := [k.slot] + free[k.unit]], stage[k := to])
  {
    var pushed := [k.slot] + free[k.unit];
    assert pushed[1..] == free[k.unit];
  }

  // --- inflight[] and ids -----------------------------------------------

  /** `after` agrees with `before` except perhaps at `k`. */
  ghost predicate Elsewhere<T>(before: map<Key, T>, after: map<Key, T>, k: Key)
  {
    k in after && forall j | j in before && j != k :: j in after && after[j] == before[j]
  }

  lemma SlotsStep(slots: map<Key, Slot>, ids: map<Key, nat>, slots': map<Key, Slot>, ids': map<Key, nat>,
                  stage: map<Key, Stage>, k: Key, to: Stage)
    requires SlotsOk(slots, ids, stage) && Elsewhere(slots, slots', k) && Elsewhere(ids, ids', k)
    requires SlotOk(k, to, slots'[k], ids'[k])
    ensures SlotsOk(slots', ids', stage[k := to])
  {}

  // --- the queue --------------------------------------------------------

  lemma QueueKept(q: QM.Queue, stage: map<Key, Stage>, k: Key, to: Stage)
    requires QueueOk(q, stage) && k in stage && HeadOf(to) == HeadOf(stage[k])
    ensures QueueOk(q, stage[k := to])
  {}

  lemma QueueAdd(q: QM.Queue, stage: map<Key, Stage>, k: Key, to: Stage, sg: seq<Sg>, outNum: nat, table: Option<nat>)
    requires QueueOk(q, stage) && k in stage && HeadOf(stage[k]).None? && QM.CanAdd(q, sg, table)
    requires HeadOf(to) == Some(q.free[0]) && CookieOf(KeyOf(CookieOf(k))) == CookieOf(k)
    ensures QueueOk(QM.Add(q, sg, outNum, CookieOf(k), table), stage[k := to])
  {
    QM.AddInv(q, sg, outNum, CookieOf(k), table);
  }

  lemma QueueTake(q: QM.Queue, stage: map<Key, Stage>)
    requires QueueOk(q, stage) && q.avail != []
    ensures QueueOk(QM.Take(q), stage)
  {
    QM.TakePhased(q);
  }

  lemma QueueComplete(q: QM.Queue, stage: map<Key, Stage>, head: nat, len: uint32)
    requires QueueOk(q, stage) && head in q.held
    ensures QueueOk(QM.Complete(q, head, len), stage)
    ensures head in q.out && HeadOk(head, q.out[head].cookie, stage)
    ensures head !in QM.UsedIds(q.used)
    ensures QM.UsedIds(QM.Complete(q, head, len).used) == QM.UsedIds(q.used) + [head]
  {
    QM.CompletePhased(q, head, len);
  }

  lemma QueueGet(q: QM.Queue, stage: map<Key, Stage>, to: Stage)
    requires QueueOk(q, stage) && q.used != [] && q.used[0].id in q.out && HeadOf(to).None?
    ensures HeadOk(q.used[0].id, q.out[q.used[0].id].cookie, stage)
    ensures QueueOk(QM.Get(q), stage[KeyOf(q.out[q.used[0].id].cookie) := to])
    ensures QM.UsedIds(QM.Get(q).used) == QM.UsedIds(q.used)[1..]
    ensures QM.UsedIds(q.used)[0] == q.used[0].id && QM.Distinct(QM.UsedIds(q.used))
  {
    QM.GetInv(q);
    QM.GetPhased(q);
  }

  // --- tasks ------------------------------------------------------------

  /** A task other than `u` has no hold on a buffer in stage `s`. */
  predicate Mine(u: nat, k: Key, s: Stage)
  {
    && (s.Reserved? ==> k.unit == u)
    && (s.Carried? || s.SyncCarried? || s.Closed? ==> s.holder == u)
  }

  /** The only buffer this code point has a hold on is `k`. */
  predicate Only(u: nat, pc: Pc, k: Key)
  {
    && (pc.Filling? ==> Key(u, pc.slot) == k)
    && (pc.Hand? ==> pc.cookie == CookieOf(k))
    && (pc.Closing? ==> pc.key == k)
  }

  /** Task `u` goes on from `task[u]` to `t` as buffer `k` goes on to `to`. */
  lemma TaskStep(task: map<nat, Task>, stage: map<Key, Stage>, u: nat, t: Task, k: Key, to: Stage)
    requires TasksOk(task, stage) && u in task && k in stage
    requires Mine(u, k, stage[k]) && Only(u, task[u].pc, k)
    requires TaskOk(u, t, stage[k := to]) && StageOk(k, to, task[u := t])
    requires k.slot == 0 && k.unit != u && k.unit in task ==> SyncOk(task[k.unit].sync, to)
    ensures TasksOk(task[u := t], stage[k := to])
  {
    var task', stage' := task[u := t], stage[k := to];
    forall v | v in task'
      ensures TaskOk(v, task'[v], stage')
    {
      if v != u {
        assert TaskOk(v, task[v], stage);
      }
    }
    forall j | j in stage'
      ensures StageOk(j, stage'[j], task')
    {
      if j != k {
        assert StageOk(j, stage[j], task);
      }
    }
  }

  /** A task without a hold on any buffer changes its place only. */
  lemma TaskAlone(task: map<nat, Task>, stage: map<Key, Stage>, u: nat, t: Task)
    requires TasksOk(task, stage) && u in task
    requires task[u].pc.Ready? || task[u].pc.Replying?
    requires TaskOk(u, t, stage)
    ensures TasksOk(task[u := t], stage)
  {
    var task' := task[u := t];
    forall j | j in stage
      ensures StageOk(j, stage[j], task')
    {
      assert StageOk(j, stage[j], task);
    }
  }

  lemma RepliesStep(task: map<nat, Task>, home: map<Io, Home>, home': map<Io, Home>, done: map<Io, Answer>,
                    accepted: set<Io>, u: nat, t: Task, io: Io, h: Home)
    requires RepliesOk(task, home, done, accepted) && u in task
    requires home' == home[io := h]
    requires io in home ==> !home[io].AtReply? || home[io] == AtReply(u)
    requires ReplyOk(u, t.pc, home', done, accepted)
    ensures RepliesOk(task[u := t], home', done, accepted)
  {
    var task' := task[u := t];
    forall v | v in task'
      ensures ReplyOk(v, task'[v].pc, home', done, accepted)
    {
      if v != u {
        assert ReplyOk(v, task[v].pc, home, done, accepted);
      }
    }
  }

  lemma RepliesKept(task: map<nat, Task>, home: map<Io, Home>, done: map<Io, Answer>, accepted: set<Io>,
                    accepted': set<Io>, u: nat, t: Task)
    requires RepliesOk(task, home, done, accepted) && u in task && accepted <= accepted'
    requires ReplyOk(u, t.pc, home, done, accepted')
    ensures RepliesOk(task[u := t], home, done, accepted')
  {
    var task' := task[u := t];
    forall v | v in task'
      ensures ReplyOk(v, task'[v].pc, home, done, accepted')
    {
      if v != u {
        assert ReplyOk(v, task[v].pc, home, done, accepted);
      }
    }
  }

  // --- stashed cookies --------------------------------------------------

  lemma PendingKept(pending: map<nat, Option<Cookie>>, stage: map<Key, Stage>, k: Key, to: Stage)
    requires PendingOk(pending, stage) && k in stage
    requires k.slot == 0 ==> (to.SyncPending? <==> stage[k].SyncPending?)
    ensures PendingOk(pending, stage[k := to])
  {}

  lemma PendingSet(pending: map<nat, Option<Cookie>>, stage: map<Key, Stage>, u: nat, to: Stage)
    requires PendingOk(pending, stage) && u in pending && Key(u, 0) in stage
    ensures PendingOk(pending[u := if to.SyncPending? then Some(CookieOf(Key(u, 0))) else None], stage[Key(u, 0) := to])
  {}

  // --- answers ----------------------------------------------------------

  lemma AnswersStep(resp: map<Key, Answer>, resp': map<Key, Answer>, used: seq<nat>, stage: map<Key, Stage>,
                    done: map<Io, Answer>, k: Key, to: Stage)
    requires AnswersOk(resp, used, stage, done) && Elsewhere(resp, resp', k)
    requires AnswerOk(to, resp'[k], used, done)
    ensures AnswersOk(resp', used, stage[k := to], done)
  {}

  /** The device answers the request at `k`. */
  lemma AnswersComplete(resp: map<Key, Answer>, used: seq<nat>, stage: map<Key, Stage>, done: map<Io, Answer>,
                        k: Key, head: nat, a: Answer)
    requires AnswersOk(resp, used, stage, done) && k in stage && HeadOf(stage[k]) == Some(head) && head !in used
    requires forall j | j in stage && HeadOf(stage[j]) == Some(head) :: j == k
    requires forall j | j in stage && IoOf(stage[j]) == Some(stage[k].io) :: j == k
    ensures AnswersOk(resp[k := a], used + [head], stage, done[stage[k].io := a])
    ensures stage[k].io !in done
  {
    var done', used' := done[stage[k].io := a], used + [head];
    assert AnswerOk(stage[k], resp[k], used, done);
    forall j | j in stage
      ensures AnswerOk(stage[j], resp[k := a][j], used', done')
    {
      assert AnswerOk(stage[j], resp[j], used, done);
      if j != k && IoOf(stage[j]).Some? {
        assert stage[j].io != stage[k].io;
        assert Answered(stage[j], used') <==> Answered(stage[j], used);
      }
    }
  }

  /** A harvester takes the oldest completion. */
  lemma AnswersGet(resp: map<Key, Answer>, used: seq<nat>, stage: map<Key, Stage>, done: map<Io, Answer>,
                   k: Key, to: Stage)
    requires AnswersOk(resp, used, stage, done) && k in stage && used != [] && HeadOf(stage[k]) == Some(used[0])
    requires QM.Distinct(used)
    requires forall j | j in stage && HeadOf(stage[j]) == Some(used[0]) :: j == k
    requires HeadOf(to).None? && IoOf(to) == IoOf(stage[k]) && Answered(to, [])
    ensures AnswersOk(resp, used[1..], stage[k := to], done)
  {
    QM.HeadAndTail(used);
    forall j | j in stage
      ensures AnswerOk(stage[k := to][j], resp[j], used[1..], done)
    {
      assert AnswerOk(stage[j], resp[j], used, done);
      if j != k {
        assert Answered(stage[j], used[1..]) <==> Answered(stage[j], used);
      }
    }
  }

  // --- where requests are -----------------------------------------------

  /** The buffer moves on with its request. */
  lemma HomesKept(stage: map<Key, Stage>, task: map<nat, Task>, r: Record, u: nat, t: Task, k: Key, to: Stage)
    requires HomesOk(stage, task, r.home, r.done, r.accepted, r.replied)
    requires k in stage && IoOf(to) == IoOf(stage[k]) && (Busy(to) <==> Busy(stage[k]))
    requires u in task && !task[u].pc.Replying?
    ensures HomesOk(stage[k := to], task[u := t], r.home, r.done, r.accepted, r.replied)
  {
    forall io | io in r.home
      ensures HomeOk(io, r.home[io], stage[k := to], task[u := t], r.accepted)
    {
      assert HomeOk(io, r.home[io], stage, task, r.accepted);
    }
  }

  /** A new request arrives at an empty buffer. */
  lemma HomesNew(stage: map<Key, Stage>, task: map<nat, Task>, r: Record, u: nat, t: Task, k: Key, to: Stage, io: Io)
    requires HomesOk(stage, task, r.home, r.done, r.accepted, r.replied)
    requires k in stage && IoOf(stage[k]).None? && IoOf(to) == Some(io) && !Busy(to) && io !in r.home
    requires u in task && !task[u].pc.Replying?
    ensures HomesOk(stage[k := to], task[u := t], r.home[io := AtSlot(k)], r.done, r.accepted, r.replied)
  {
    var home' := r.home[io := AtSlot(k)];
    forall x | x in home'
      ensures HomeOk(x, home'[x], stage[k := to], task[u := t], r.accepted)
    {
      if x != io {
        assert HomeOk(x, r.home[x], stage, task, r.accepted);
      }
    }
  }

  /** The queue accepts the request. */
  lemma HomesAccept(stage: map<Key, Stage>, task: map<nat, Task>, r: Record, u: nat, t: Task, k: Key, to: Stage)
    requires HomesOk(stage, task, r.home, r.done, r.accepted, r.replied)
    requires k in stage && IoOf(stage[k]).Some? && IoOf(to) == IoOf(stage[k]) && !Busy(stage[k]) && Busy(to)
    requires u in task && !task[u].pc.Replying?
    ensures HomesOk(stage[k := to], task[u := t], r.home, r.done, r.accepted + {stage[k].io}, r.replied)
  {
    var accepted' := r.accepted + {stage[k].io};
    forall x | x in r.home
      ensures HomeOk(x, r.home[x], stage[k := to], task[u := t], accepted')
    {
      assert HomeOk(x, r.home[x], stage, task, r.accepted);
    }
  }

  /** The request leaves the buffer: to be replied, or, never accepted, for good. */
  lemma HomesLeave(stage: map<Key, Stage>, task: map<nat, Task>, r: Record, u: nat, t: Task, k: Key, h: Home)
    requires HomesOk(stage, task, r.home, r.done, r.accepted, r.replied)
    requires k in stage && IoOf(stage[k]).Some?
    requires u in task && !task[u].pc.Replying?
    requires if Busy(stage[k]) then h == AtReply(u) && t.pc.Replying? && t.pc.io == stage[k].io else h == Gone
    ensures HomesOk(stage[k := Idle], task[u := t], r.home[stage[k].io := h], r.done, r.accepted, r.replied)
  {
    var io := stage[k].io;
    var home' := r.home[io := h];
    assert HomeOk(io, r.home[io], stage, task, r.accepted);
    forall x | x in home'
      ensures HomeOk(x, home'[x], stage[k := Idle], task[u := t], r.accepted)
    {
      if x != io {
        assert HomeOk(x, r.home[x], stage, task, r.accepted);
      }
    }
  }

  /** The request is replied. */
  lemma HomesReply(stage: map<Key, Stage>, task: map<nat, Task>, r: Record, u: nat, t: Task, io: Io)
    requires HomesOk(stage, task, r.home, r.done, r.accepted, r.replied)
    requires u in task && task[u].pc.Replying? && task[u].pc.io == io
    requires io in r.home && r.home[io] == AtReply(u) && io in r.accepted
    ensures HomesOk(stage, task[u := t], r.home[io := Gone], r.done, r.accepted, r.replied + {io})
    ensures io !in r.replied
  {
    var home' := r.home[io := Gone];
    forall x | x in home'
      ensures HomeOk(x, home'[x], stage, task[u := t], r.accepted)
    {
      if x != io {
        assert HomeOk(x, r.home[x], stage, task, r.accepted);
      }
    }
  }

  lemma HomesDone(stage: map<Key, Stage>, task: map<nat, Task>, r: Record, k: Key, a: Answer)
    requires HomesOk(stage, task, r.home, r.done, r.accepted, r.replied)
    requires k in stage && IoOf(stage[k]).Some?
    ensures HomesOk(stage, task, r.home, r.done[stage[k].io := a], r.accepted, r.replied)
    ensures forall j | j in stage && IoOf(stage[j]) == Some(stage[k].io) :: j == k
  {}

  // --- counters ---------------------------------------------------------

  lemma CountsKept(count: map<nat, nat>, occupied: nat, mask: set<nat>, mask': set<nat>, stage: map<Key, Stage>,
                   k: Key, to: Stage)
    requires CountsOk(count, occupied, mask, stage) && k in stage && (Busy(to) <==> Busy(stage[k]))
    requires forall u | u in mask && u in count && count[u] > 0 :: u in mask'
    ensures CountsOk(count, occupied, mask', stage[k := to])
  {
    var stage' := stage[k := to];
    assert BusyKeys(stage') == BusyKeys(stage);
    forall u | u in count
      ensures BusyOf(stage', u) == BusyOf(stage, u)
    {}
  }

  lemma CountsUp(count: map<nat, nat>, occupied: nat, mask: set<nat>, stage: map<Key, Stage>, k: Key, to: Stage)
    requires CountsOk(count, occupied, mask, stage) && k in stage && !Busy(stage[k]) && Busy(to) && k.unit in count
    ensures CountsOk(count[k.unit := count[k.unit] + 1], occupied + 1, mask + {k.unit}, stage[k := to])
  {
    BusyGains(stage, k, to);
    hide BusyOf, BusyKeys, Busy;
  }

  lemma BusyGains(stage: map<Key, Stage>, k: Key, to: Stage)
    requires k in stage && !Busy(stage[k]) && Busy(to)
    ensures |BusyKeys(stage[k := to])| == |BusyKeys(stage)| + 1
    ensures |BusyOf(stage[k := to], k.unit)| == |BusyOf(stage, k.unit)| + 1
    ensures forall u | u != k.unit :: BusyOf(stage[k := to], u) == BusyOf(stage, u)
  {
    hide Busy;
    var stage' := stage[k := to];
    assert BusyKeys(stage') == BusyKeys(stage) + {k} && k !in BusyKeys(stage);
    assert BusyOf(stage', k.unit) == BusyOf(stage, k.unit) + {k} && k !in BusyOf(stage, k.unit);
  }

  /** The code's guards against counting below zero never act. */
  lemma CountsDown(count: map<nat, nat>, occupied: nat, mask: set<nat>, stage: map<Key, Stage>, k: Key, to: Stage)
    requires CountsOk(count, occupied, mask, stage) && k in stage && Busy(stage[k]) && !Busy(to) && k.unit in count
    ensures occupied > 0 && count[k.unit] > 0
    ensures CountsOk(count[k.unit := count[k.unit] - 1], occupied - 1,
                     if count[k.unit] == 1 then mask - {k.unit} else mask, stage[k := to])
  {
    var stage' := stage[k := to];
    assert k in BusyKeys(stage) && k in BusyOf(stage, k.unit);
    assert BusyKeys(stage') == BusyKeys(stage) - {k};
    forall u | u in count
      ensures BusyOf(stage', u) == if u == k.unit then BusyOf(stage, u) - {k} else BusyOf(stage, u)
    {}
  }

  // --- logs -------------------------------------------------------------

  lemma LogReply(replies: seq<Reply>, replied: set<Io>, done: map<Io, Answer>, io: Io, a: Answer)
    requires LogOk(replies, replied, done) && io !in replied && io in done && a == done[io]
    ensures LogOk(replies + [Reply(io, a)], replied + {io}, done)
  {
    var replies' := replies + [Reply(io, a)];
    forall x | x in replied + {io}
      ensures exists i | 0 <= i < |replies'| :: replies'[i].io == x
    {
      if x == io {
        assert replies'[|replies|].io == x;
      } else {
        var i :| 0 <= i < |replies| && replies[i].io == x;
        assert replies'[i].io == x;
      }
    }
  }

  lemma LogDone(replies: seq<Reply>, replied: set<Io>, answers: seq<Reply>, done: map<Io, Answer>, io: Io, a: Answer)
    requires LogOk(replies, replied, done) && SyncLogOk(answers, done) && io !in done
    ensures LogOk(replies, replied, done[io := a]) && SyncLogOk(answers, done[io := a])
  {}
}
