/** What the interrupt handler goes by: active_units_mask, and with it whether a
    task waiting for a completion will be woken. */
module Marks {
  import opened Types
  import opened Pipeline
  import opened PipelineInv
  import opened PipelineSteps
  import opened PipelineTheorems
  import opened ScsiSteps
  import opened DataSteps
  import QM = QueueModel

  // ---------------------------------------------------------------------
  // A mark means work
  // ---------------------------------------------------------------------

  /** A marked unit has a submitted slot or is inside a DoIO. */
  ghost predicate MarksOk(d: Driver)
  {
    forall u | u in d.mask :: u in d.task && u in d.count && (d.count[u] > 0 || !d.task[u].sync.NotSync?)
  }

  lemma StepKeepsMarks(s: State, step: Step)
    requires Allowed(s, step) && MarksOk(s.d)
    ensures MarksOk(NextState(s, step).d)
  {
    hide Route, QM.Add, QM.CanAdd, QM.Get, QM.Take, QM.Complete;
  }

  lemma {:induction false} RunMarks(run: seq<State>, units: set<nat>, num: nat, n: nat)
    requires IsRun(run, units, num) && n < |run|
    ensures MarksOk(run[n].d)
  {
    if n == 0 {
      NoMarks(run[0], units, num);
    } else {
      hide NextState, Enabled, Initial, MarksOk;
      RunMarks(run, units, num, n - 1);
      assert Follows(run, n - 1);
      var step :| Allowed(run[n - 1], step) && run[n] == NextState(run[n - 1], step);
      StepKeepsMarks(run[n - 1], step);
    }
  }

  lemma NoMarks(s: State, units: set<nat>, num: nat)
    requires Initial(s, units, num)
    ensures MarksOk(s.d)
  {}

  /** No unit is marked for nothing: in every reachable state a marked unit has
      pipeline work or a DoIO. */
  lemma MarkedHaveWork(s: State, u: nat)
    requires Reachable(s) && u in s.d.mask
    ensures u in s.d.task && u in s.d.count && (s.d.count[u] > 0 || !s.d.task[u].sync.NotSync?)
  {
    hide Initial;
    var run, units, num :| IsRun(run, units, num) && run[|run| - 1] == s;
    RunMarks(run, units, num, |run| - 1);
  }

  // ---------------------------------------------------------------------
  // A waiting DoIO and its mark
  // ---------------------------------------------------------------------

  /** DoIO marks its unit as it starts to wait. */
  lemma StartMarks(s: State, u: nat, io: Io, sg: seq<Sg>, outNum: nat, table: Option<nat>)
    requires Allowed(s, SyncStart(u, io, sg, outNum, table))
    ensures var t := NextState(s, SyncStart(u, io, sg, outNum, table)).d;
            u in t.mask && u in t.task && t.task[u].sync == Waiting(io)
  {
    hide QM.Add, QM.CanAdd;
  }

  /** The completion that empties its own unit's pipeline takes the mark of a DoIO
      still waiting; nothing else does. */
  lemma MarkIsLostExactly(s: State, step: Step, u: nat)
    requires Allowed(s, step) && u in s.d.mask && u in s.d.task && u in s.d.count && s.d.task[u].sync.Waiting?
    requires var t := NextState(s, step).d; u in t.task && t.task[u].sync.Waiting?
    ensures u !in NextState(s, step).d.mask
       <==> step.Close? && s.d.task[step.u].pc.key.unit == u && s.d.count[u] == 1
  {
    hide Route, QM.Add, QM.CanAdd, QM.Get, QM.Take, QM.Complete;
  }

  // ---------------------------------------------------------------------
  // Stale responses
  // ---------------------------------------------------------------------

  /** Until the device has answered a request its response buffer is blank. */
  ghost predicate BlanksOk(s: State)
  {
    forall k | k in s.r.stage && IoOf(s.r.stage[k]).Some? && !Answered(s.r.stage[k], QM.UsedIds(s.d.q.used)) ::
      k in s.d.resp && s.d.resp[k] == Blank
  }

  /** A step that moves slot `k` and touches no other response. */
  lemma BlankMoves(s: State, t: State, k: Key, to: Stage)
    requires BlanksOk(s) && t.r.stage == s.r.stage[k := to] && s.d.resp.Keys <= t.d.resp.Keys
    requires forall j | j in s.d.resp && j != k :: t.d.resp[j] == s.d.resp[j]
    requires forall j | j in s.r.stage && j != k && HeadOf(s.r.stage[j]).Some? ::
               var h := HeadOf(s.r.stage[j]).value;
               h in QM.UsedIds(s.d.q.used) ==> h in QM.UsedIds(t.d.q.used)
    requires IoOf(to).Some? && !Answered(to, QM.UsedIds(t.d.q.used)) ==> k in t.d.resp && t.d.resp[k] == Blank
    ensures BlanksOk(t)
  {
    hide QM.UsedIds;
  }

  lemma StepKeepsBlanks(s: State, step: Step)
    requires Reachable(s) && Allowed(s, step) && BlanksOk(s)
    ensures BlanksOk(NextState(s, step))
  {
    hide Reachable, NextState, Allowed, BlanksOk;
    match step
    case Pop(u, io) => PopBlanks(s, u, io);
    case Abandon(u) => AbandonBlanks(s, u);
    case Post(u, sg, outNum, table) => PostBlanks(s, u, sg, outNum, table);
    case DeviceTake => TakeBlanks(s);
    case DeviceComplete(head, len, value) => CompleteBlanks(s, head, len, value);
    case GetBuf(u) => GetBufBlanks(s, u);
    case Recognise(u) => RecogniseBlanks(s, u);
    case Close(u) => CloseBlanks(s, u);
    case SendReply(u) => ReplyBlanks(s, u);
    case _ => SyncBlanks(s, step);
  }

  lemma PopBlanks(s: State, u: nat, io: Io)
    requires Reachable(s) && Allowed(s, Pop(u, io)) && BlanksOk(s)
    ensures BlanksOk(NextState(s, Pop(u, io)))
  {
    hide Reachable, BlanksOk;
    var t := DoPop(s, u, io);
    BlankMoves(s, t, Key(u, s.d.free[u][0]), Reserved(io));
  }

  lemma AbandonBlanks(s: State, u: nat)
    requires Reachable(s) && Allowed(s, Abandon(u)) && BlanksOk(s)
    ensures BlanksOk(NextState(s, Abandon(u)))
  {
    hide Reachable, BlanksOk;
    var t := DoAbandon(s, u);
    BlankMoves(s, t, Key(u, s.d.task[u].pc.slot), Idle);
  }

  lemma PostBlanks(s: State, u: nat, sg: seq<Sg>, outNum: nat, table: Option<nat>)
    requires Reachable(s) && Allowed(s, Post(u, sg, outNum, table)) && BlanksOk(s)
    ensures BlanksOk(NextState(s, Post(u, sg, outNum, table)))
  {
    hide Reachable, QM.CanAdd;
    var t := DoPost(s, u, sg, outNum, table);
    InFilling(s, u);
    var k := Key(u, s.d.task[u].pc.slot);
    assert k in s.d.resp && s.d.resp[k] == Blank;
    hide BlanksOk;
    BlankMoves(s, t, k, t.r.stage[k]);
  }

  lemma TakeBlanks(s: State)
    requires Reachable(s) && Allowed(s, DeviceTake) && BlanksOk(s)
    ensures BlanksOk(NextState(s, DeviceTake))
  {
    hide Reachable;
    var t := DoTake(s);
    TakeStage(s);
    hide NextState;
  }

  lemma CompleteBlanks(s: State, head: nat, len: uint32, value: nat)
    requires Reachable(s) && Allowed(s, DeviceComplete(head, len, value)) && BlanksOk(s)
    ensures BlanksOk(NextState(s, DeviceComplete(head, len, value)))
  {
    hide Reachable, BlanksOk, QM.Complete;
    var t := DoComplete(s, head, len, value);
    CompleteRecord(s, head, len, value);
    hide NextState, QM.UsedIds;
    var k := KeyOf(s.d.q.out[head].cookie);
    assert t.r.stage == s.r.stage[k := s.r.stage[k]];
    BlankMoves(s, t, k, s.r.stage[k]);
  }

  lemma GetBufBlanks(s: State, u: nat)
    requires Reachable(s) && Allowed(s, GetBuf(u)) && BlanksOk(s)
    ensures BlanksOk(NextState(s, GetBuf(u)))
  {
    hide Reachable, BlanksOk, QM.Get, QM.UsedIds;
    var t := DoGetBuf(s, u);
    var head := s.d.q.used[0].id;
    var k := KeyOf(s.d.q.out[head].cookie);
    QueueIs(s);
    GotUsed(s.d.q);
    HeadsAreBuffers(s);
    OldestIsOut(s);
    BlankMoves(s, t, k, t.r.stage[k]);
  }

  lemma RecogniseBlanks(s: State, u: nat)
    requires Reachable(s) && Allowed(s, Recognise(u)) && BlanksOk(s)
    ensures BlanksOk(NextState(s, Recognise(u)))
  {
    hide Reachable, BlanksOk, Route;
    var c := s.d.task[u].pc.cookie;
    var t := DoRecognise(s, u, c);
    BlankMoves(s, t, KeyOf(c), t.r.stage[KeyOf(c)]);
  }

  lemma CloseBlanks(s: State, u: nat)
    requires Reachable(s) && Allowed(s, Close(u)) && BlanksOk(s)
    ensures BlanksOk(NextState(s, Close(u)))
  {
    hide Reachable, BlanksOk, Down, MaskAfter;
    var t := DoClose(s, u, s.d.task[u].pc.key);
    BlankMoves(s, t, s.d.task[u].pc.key, Idle);
  }

  lemma ReplyBlanks(s: State, u: nat)
    requires Reachable(s) && Allowed(s, SendReply(u)) && BlanksOk(s)
    ensures BlanksOk(NextState(s, SendReply(u)))
  {
    hide Reachable;
    var t := DoReply(s, u);
    hide NextState;
  }

  lemma SyncBlanks(s: State, step: Step)
    requires Reachable(s) && Allowed(s, step) && IsSyncStep(step) && BlanksOk(s)
    ensures BlanksOk(NextState(s, step))
  {
    hide Reachable, BlanksOk, QM.Add, QM.CanAdd;
    SyncStages(s, step);
    SyncResponses(s, step);
    hide NextState, Allowed;
    var k, t := Key(step.u, 0), NextState(s, step);
    BlankMoves(s, t, k, t.r.stage[k]);
  }

  lemma SyncResponses(s: State, step: Step)
    requires Allowed(s, step) && IsSyncStep(step)
    ensures var k, t := Key(step.u, 0), NextState(s, step);
            && s.d.resp.Keys <= t.d.resp.Keys && (forall j | j in s.d.resp && j != k :: t.d.resp[j] == s.d.resp[j])
            && k in t.r.stage
            && (step.SyncStart? ==> k in t.d.resp && t.d.resp[k] == Blank)
            && (!step.SyncStart? ==> t.r.stage[k].Idle? || t.r.stage[k].SyncTaken?)
            && QM.UsedIds(t.d.q.used) == QM.UsedIds(s.d.q.used)
  {
    hide QM.CanAdd;
  }

  lemma {:induction false} RunBlanks(run: seq<State>, units: set<nat>, num: nat, n: nat)
    requires IsRun(run, units, num) && n < |run|
    ensures BlanksOk(run[n])
  {
    hide NextState, Enabled, Initial, BlanksOk, Reachable;
    if n == 0 {
      NothingAsked(run[0], units, num);
    } else {
      RunBlanks(run, units, num, n - 1);
      assert Follows(run, n - 1);
      var step :| Allowed(run[n - 1], step) && run[n] == NextState(run[n - 1], step);
      PrefixReachable(run, units, num, n - 1);
      StepKeepsBlanks(run[n - 1], step);
    }
  }

  lemma NothingAsked(s: State, units: set<nat>, num: nat)
    requires Initial(s, units, num)
    ensures BlanksOk(s)
  {}

  lemma PrefixReachable(run: seq<State>, units: set<nat>, num: nat, n: nat)
    requires IsRun(run, units, num) && n < |run|
    ensures Reachable(run[n])
  {
    hide NextState, Allowed, Initial;
    var upTo := run[..n + 1];
    assert forall m | 0 <= m < n :: Follows(run, m) ==> Follows(upTo, m);
    assert IsRun(upTo, units, num) && upTo[|upTo| - 1] == run[n];
  }

  /** Nothing of an earlier request's response is left: in every reachable state a
      request's response buffer is blank until the device has answered it. */
  lemma UnansweredIsBlank(s: State, k: Key)
    requires Reachable(s) && k in s.r.stage && IoOf(s.r.stage[k]).Some?
    requires !Answered(s.r.stage[k], QM.UsedIds(s.d.q.used))
    ensures k in s.d.resp && s.d.resp[k] == Blank
  {
    hide Initial;
    var run, units, num :| IsRun(run, units, num) && run[|run| - 1] == s;
    RunBlanks(run, units, num, |run| - 1);
  }
}
