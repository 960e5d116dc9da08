/** What the calls over the driver's state do to the whole: each is a chain of
    events, and the data they leave is a function of what they found. */
module JointSteps {
  import opened Types
  import opened Pipeline
  import opened PipelineInv
  import opened PipelineTheorems
  import opened ScsiSteps
  import opened Memory
  import opened DataPath
  import opened DataRuns
  import opened DataSteps
  import opened DataTheorems
  import QM = QueueModel

  /** One event between attainable states. */
  ghost predicate Goes(w: World, j: Joint, e: Event, j': Joint)
  {
    Attained(w, j) && Happens(w, j, e, j') && Attained(w, j')
  }

  lemma Go(w: World, j: Joint, e: Event) returns (j': Joint)
    requires Attained(w, j) && Can(w, j, e)
    ensures Goes(w, j, e, j') && j' == After(w, j, e)
  {
    hide Attained, Can, After;
    j' := After(w, j, e);
    AttainedNext(w, j, e, j');
  }

  /** A step of the pipeline is an event of the whole.  Order asks something of
      the task in three of them only. */
  lemma Lift(w: World, j: Joint, step: Step, t: State) returns (j': Joint)
    requires Attained(w, j) && Steps(j.s, step, t) && !step.DeviceComplete?
    requires step.Abandon? || step.Post? || step.Close? ==> InOrder(w, j, step, [])
    ensures Goes(w, j, Drive(step, []), j') && Attained(w, j') && j' == j.(s := t)
  {
    hide Attained, Reachable, NextState, Allowed;
    j' := Go(w, j, Drive(step, []));
  }

  /** Every slot has its row and its bounce buffer. */
  lemma SlotHas(w: World, j: Joint, k: Key)
    requires Attained(w, j) && k in j.s.r.stage
    ensures HasSlot(j.m, RowOf(k)) && StoreOk(j.m)
  {
    hide Attained;
    AttainedInv(w, j);
    RowAt(w, j, k);
    StoreIs(w, j);
  }

  // ---------------------------------------------------------------------
  // Submit
  // ---------------------------------------------------------------------

  /** Task `u` holds slot `k` for `io` and has not prepared its data yet. */
  ghost predicate Unfilled(w: World, j: Joint, u: nat, k: Key, io: Io)
  {
    && Fills(j.s, u, k.slot) && k.unit == u && j.s.d.task[u].pc.io == io && k in j.s.r.stage && HasSlot(j.m, RowOf(k))
    && io !in j.log.given && !j.m.table[RowOf(k)].mapped && Attained(w, j)
  }

  lemma PopBlank(w: World, j: Joint, u: nat, io: Io, t: State) returns (a: Joint)
    requires Attained(w, j) && Starts(j.s, u, io) && j.s.d.free[u] != [] && Steps(j.s, Pop(u, io), t)
    ensures Goes(w, j, Drive(Pop(u, io), []), a) && a == j.(s := t) && Unfilled(w, a, u, Key(u, j.s.d.free[u][0]), io)
    ensures t.d.q == j.s.d.q && t.d.count == j.s.d.count && t.d.occupied == j.s.d.occupied
    ensures t.d.mask == j.s.d.mask && t.d.pending == j.s.d.pending
  {
    hide Attained, Reachable, NextState, Allowed;
    var e := DoPop(j.s, u, io);
    a := Lift(w, j, Pop(u, io), t);
    AttainedInv(w, j);
    NewRequest(w, j, io);
    AttainedInv(w, a);
    InFilling(t, u);
    hide JointInv;
    RowAt(w, a, Key(u, j.s.d.free[u][0]));
  }

  /** The record is noted; undone, its mapping is given back. */
  lemma FillEvents(w: World, j: Joint, u: nat, k: Key, io: Io) returns (a: Joint, b: Joint)
    requires Unfilled(w, j, u, k, io) && CallerOk(w, j.m, io)
    ensures Goes(w, j, FillData(u), a) && Goes(w, a, UndoFill(u), b)
    ensures a.s == j.s && a.m == Filled(j.m, RowOf(k), RecordFor(w, io)) && HasData(w, a, u, k, io)
    ensures b.s == j.s && b.m == Released(a.m, RowOf(k))
  {
    hide Attained, Reachable, CallerOk, RecordFor, CallersBytes, Filled, Released;
    assert IsFilling(j, u) && FillKey(j.s, u) == k;
    a := Go(w, j, FillData(u));
    FilledRecord(j.m, RowOf(k), RecordFor(w, io));
    b := Go(w, a, UndoFill(u));
  }

  /** Task `u` holds slot `k` for `io` and has prepared its data. */
  ghost predicate HasData(w: World, j: Joint, u: nat, k: Key, io: Io)
  {
    && Fills(j.s, u, k.slot) && k.unit == u && j.s.d.task[u].pc.io == io && k in j.s.r.stage && HasSlot(j.m, RowOf(k))
    && io in j.log.given && j.m.table[RowOf(k)] == RecordFor(w, io) && Attained(w, j)
  }

  /** The data's preparation has come to nothing: it was not begun, or undone. */
  ghost predicate Undone(w: World, j: Joint, u: nat, begun: bool, j': Joint)
  {
    if begun then exists mid :: Goes(w, j, FillData(u), mid) && Goes(w, mid, UndoFill(u), j') else j' == j
  }

  lemma UndoneBy(w: World, j: Joint, u: nat, mid: Joint, j': Joint)
    requires Goes(w, j, FillData(u), mid) && Goes(w, mid, UndoFill(u), j')
    ensures Undone(w, j, u, true, j')
  {}

  /** Nothing is left of it but the bytes of a bounced write in the slot's own
      buffer. */
  lemma UndoneLive(m: Store, i: nat, x: Data)
    requires HasSlot(m, i)
    ensures Released(Filled(m, i, x), i).live == m.live && !Released(Filled(m, i, x), i).table[i].mapped
  {
    hide Sent;
  }

  lemma PostEvent(w: World, j: Joint, u: nat, k: Key, io: Io, sg: seq<Sg>, outNum: nat, table: Option<nat>, t: State)
    returns (j': Joint)
    requires HasData(w, j, u, k, io) && Steps(j.s, Post(u, sg, outNum, table), t)
    requires sg == ChainFor(w, k, io, j.m.bounce[RowOf(k)]) && outNum == OutFor(w, k, io, j.m.bounce[RowOf(k)])
    ensures Goes(w, j, Drive(Post(u, sg, outNum, table), []), j') && j' == j.(s := t) && t.d.free == j.s.d.free
  {
    hide Attained, Reachable, NextState, RecordFor, ChainOf, ReadableOf, QM.Add, QM.CanAdd;
    assert FillKey(j.s, u) == k;
    var e := DoPost(j.s, u, sg, outNum, table);
    j' := Lift(w, j, Post(u, sg, outNum, table), t);
  }

  lemma AbandonEvent(w: World, j: Joint, u: nat, t: State) returns (j': Joint)
    requires Attained(w, j) && IsFilling(j, u) && Steps(j.s, Abandon(u), t)
    requires !j.m.table[RowOf(FillKey(j.s, u))].mapped
    ensures Goes(w, j, Drive(Abandon(u), []), j') && j' == j.(s := t)
    ensures t.d == j.s.d.(free := t.d.free, task := t.d.task)
  {
    hide Attained, Reachable, NextState, Allowed;
    AttainedReachable(w, j);
    var e := DoAbandon(j.s, u);
    j' := Lift(w, j, Abandon(u), t);
  }

  lemma UndoEvent(w: World, j: Joint, u: nat, k: Key, io: Io) returns (b: Joint)
    requires HasData(w, j, u, k, io)
    ensures Goes(w, j, UndoFill(u), b) && b.s == j.s && b.m == Released(j.m, RowOf(k))
    ensures IsFilling(b, u) && FillKey(b.s, u) == k && !b.m.table[RowOf(k)].mapped
  {
    hide Attained, Reachable, RecordFor, MappingOf;
    assert FillKey(j.s, u) == k;
    b := Go(w, j, UndoFill(u));
  }

  // ---------------------------------------------------------------------
  // Completion
  // ---------------------------------------------------------------------

  /** Task `u` is about to complete slot `k`, whose data it has not seen to. */
  ghost predicate Completes(w: World, j: Joint, u: nat, k: Key)
  {
    && Closes(j.s, u, k) && HasSlot(j.m, RowOf(k)) && j.s.d.task[u].pc.io !in j.log.delivered && Attained(w, j)
    && j.m.table[RowOf(k)] == RecordFor(w, j.s.d.task[u].pc.io)
  }

  lemma RecogniseEvent(w: World, j: Joint, u: nat, c: Cookie, t: State) returns (a: Joint)
    requires Attained(w, j) && Carries(j.s, u, c) && Steps(j.s, Recognise(u), t)
    ensures Goes(w, j, Drive(Recognise(u), []), a) && a == j.(s := t)
    ensures KeyOf(c) in j.s.d.ids && (Route(j.s.d, c).Some? ==> Completes(w, a, u, KeyOf(c)))
  {
    hide Attained, Reachable, NextState, Allowed, Route, RecordFor;
    InHand(j.s, u, c);
    var e := DoRecognise(j.s, u, c);
    a := Lift(w, j, Recognise(u), t);
    AttainedInv(w, j);
    hide JointInv;
    RowAt(w, j, KeyOf(c));
  }

  lemma FinishEvent(w: World, j: Joint, u: nat, k: Key) returns (a: Joint)
    requires Completes(w, j, u, k)
    ensures Goes(w, j, FinishData(u), a) && Attained(w, a) && a.s == j.s && j.s.d.task[u].pc.io in a.log.delivered
    ensures var pc := j.s.d.task[u].pc;
            var v := w.verdict(pc.answer);
            a.m == Finished(j.m, RowOf(k), v.error, v.residual, w.transfer(pc.io).length)
  {
    hide Attained, Reachable, Finished, CallersBytes, Actual, RecordFor;
    assert IsClosing(j, u);
    a := Go(w, j, FinishData(u));
  }

  lemma CloseEvents(w: World, j: Joint, u: nat, mid: State, t: State) returns (b: Joint, c: Joint)
    requires Attained(w, j) && Steps(j.s, Close(u), mid) && Steps(mid, SendReply(u), t)
    requires u in j.s.d.task && j.s.d.task[u].pc.Closing? && j.s.d.task[u].pc.io in j.log.delivered
    ensures Goes(w, j, Drive(Close(u), []), b) && Goes(w, b, Drive(SendReply(u), []), c) && c == j.(s := t)
  {
    hide Attained, Reachable, NextState, Allowed;
    CloseEnabled(j.s, u, mid);
    b := Lift(w, j, Close(u), mid);
    c := Lift(w, b, SendReply(u), t);
  }

  lemma CloseEnabled(s: State, u: nat, t: State)
    requires Steps(s, Close(u), t)
    ensures Enabled(s.d, Close(u))
  {
    hide Reachable, NextState;
  }

  /** The events of one completion. */
  ghost predicate CompletedBy(w: World, j: Joint, u: nat, j': Joint)
  {
    exists a, b ::
      Goes(w, j, FinishData(u), a) && Goes(w, a, Drive(Close(u), []), b) && Goes(w, b, Drive(SendReply(u), []), j')
  }

  // ---------------------------------------------------------------------
  // What a whole harvest does to memory and ledger
  // ---------------------------------------------------------------------

  /** The completion of one cookie, which for a DoIO's is no change. */
  ghost function FinishedFor(w: World, d: Driver, c: Cookie, m: Store): Store
  {
    var replies, i := ReplyFor(d, c), RowOf(KeyOf(c));
    if replies == [] || !HasSlot(m, i) then m
    else
      var v := w.verdict(replies[0].answer);
      Finished(m, i, v.error, v.residual, w.transfer(replies[0].io).length)
  }

  /** The completions of `used`, in their order. */
  ghost function StoreAfter(w: World, d: Driver, used: seq<QM.Used>, m: Store): Store
  {
    if used == [] then m
    else
      var id := used[0].id;
      StoreAfter(w, d, used[1..], if id in d.q.out then FinishedFor(w, d, d.q.out[id].cookie, m) else m)
  }

  lemma NothingToDo(w: World, d: Driver, m: Store)
    ensures StoreAfter(w, d, [], m) == m
  {}

  lemma {:induction false} StoreKept(w: World, d: Driver, e: Driver, used: seq<QM.Used>, m: Store)
    requires forall i | 0 <= i < |used| :: SameReply(d, e, used[i].id)
    ensures StoreAfter(w, d, used, m) == StoreAfter(w, e, used, m)
  {
    if used != [] {
      assert SameReply(d, e, used[0].id);
      forall i | 0 <= i < |used[1..]|
        ensures SameReply(d, e, used[1..][i].id)
      {
        assert SameReply(d, e, used[i + 1].id);
      }
      hide ReplyFor, Finished;
      StoreKept(w, d, e, used[1..], FinishedFor(w, d, d.q.out[used[0].id].cookie, m));
    }
  }

  /** A turn of the loop leaves to the later completions what they would have
      done. */
  lemma TurnStore(w: World, s: State, m: Store)
    requires s.d.q.used != [] && Reachable(s)
    ensures HasOldest(s.d)
    ensures StoreAfter(w, OneTurn(s.d), OneTurn(s.d).q.used, FinishedFor(w, s.d, OldestCookie(s.d), m))
         == StoreAfter(w, s.d, s.d.q.used, m)
  {
    hide Reachable;
    OldestExists(s);
    TurnAdds(s.d);
    hide OneTurn, ReplyFor, HasBuffer, FinishedFor;
    var rest := s.d.q.used[1..];
    forall i | 0 <= i < |rest|
      ensures SameReply(s.d, OneTurn(s.d), rest[i].id)
    {
      LaterReply(s, i + 1);
    }
    StoreKept(w, s.d, OneTurn(s.d), rest, FinishedFor(w, s.d, OldestCookie(s.d), m));
  }

  /** A cookie's slot and the reply its completion calls for. */
  lemma FinishedForSlot(w: World, d: Driver, c: Cookie, m: Store)
    requires HasBuffer(d, c) && Holds(d, KeyOf(c), c) && Route(d, c).Some? && HasSlot(m, RowOf(KeyOf(c)))
    ensures var k := KeyOf(c);
            var v := w.verdict(d.resp[k]);
            FinishedFor(w, d, c, m)
            == Finished(m, RowOf(k), v.error, v.residual, w.transfer(d.slots[k].ioreq.value).length)
  {
    hide Finished;
  }

  lemma FinishedForNone(w: World, d: Driver, c: Cookie, m: Store)
    requires KeyOf(c) in d.ids && Route(d, c).None?
    ensures FinishedFor(w, d, c, m) == m
  {}

  // ---------------------------------------------------------------------
  // The device
  // ---------------------------------------------------------------------

  lemma AnswerEvent(w: World, j: Joint, head: nat, k: Key, len: uint32, value: nat, bytes: seq<uint8>, t: State)
    returns (j': Joint)
    requires Attained(w, j) && Steps(j.s, DeviceComplete(head, len, value), t)
    requires head in j.s.d.q.held && head in j.s.d.q.out && k == KeyOf(j.s.d.q.out[head].cookie)
    requires Serves(j, head, k) ==> |bytes| <= Total(DataIn(w, k, j.s.d.q.out[head]))
    ensures Goes(w, j, Drive(DeviceComplete(head, len, value), bytes), j') && j'.s == t
    ensures var into := DataIn(w, k, j.s.d.q.out[head]);
            if Serves(j, head, k)
            then Inside(|j.m.ram|, into) && j'.m == j.m.(ram := Scatter(j.m.ram, into, bytes)) else j'.m == j.m
  {
    hide Attained, Reachable, NextState, Allowed, DataIn, Scatter;
    if Serves(j, head, k) {
      ChainIsInside(w, j, head, k);
    }
    j' := Go(w, j, Drive(DeviceComplete(head, len, value), bytes));
  }

  lemma ChainIsInside(w: World, j: Joint, head: nat, k: Key)
    requires Attained(w, j) && Serves(j, head, k) && head in j.s.d.q.held
    ensures Inside(|j.m.ram|, DataIn(w, k, j.s.d.q.out[head]))
  {
    hide Attained, Reachable;
    AttainedInv(w, j);
    AttainedReachable(w, j);
    CompleteFacts(j.s, head);
    RowAt(w, j, k);
    StoreIs(w, j);
    assert DataOk(|j.m.ram|, j.m.table[RowOf(k)]);
    hide JointInv, StoreOk;
    DataInIs(w, k, j.m.table[RowOf(k)], j.m.bounce[RowOf(k)], j.s.d.q.out[head]);
  }

  /** A request in the device's hands is the pipeline's when its slot is marked;
      otherwise it is a DoIO's. */
  lemma ServesIsSubmitted(w: World, j: Joint, head: nat, k: Key)
    requires Attained(w, j) && head in j.s.d.q.held && head in j.s.d.q.out && k == KeyOf(j.s.d.q.out[head].cookie)
    ensures k in j.s.d.slots && (j.s.d.slots[k].ioreq.Some? <==> Serves(j, head, k))
  {
    hide Attained, Reachable;
    AttainedReachable(w, j);
    CompleteFacts(j.s, head);
    SlotHas(w, j, k);
    BusyIsMarked(j.s, k);
  }

  lemma BusyIsMarked(s: State, k: Key)
    requires Reachable(s) && k in s.r.stage
    ensures k in s.d.slots && (s.d.slots[k].ioreq.Some? <==> Busy(s.r.stage[k]))
  {
    hide Reachable;
    ReachableInv(s);
    hide *;
    MarkOf(s, k);
  }

  lemma MarkOf(s: State, k: Key)
    requires Inv(s) && k in s.r.stage
    ensures k in s.d.slots && (s.d.slots[k].ioreq.Some? <==> Busy(s.r.stage[k]))
  {
    hide ListOk, QueueOk, TasksOk, PendingOk, AnswersOk, RepliesOk, HomesOk, CountsOk, LogOk, SyncLogOk;
  }
}
