/** What the data path promises over every run of the tasks, the device and the
    callers. */
module DataTheorems {
  import opened Types
  import opened Pipeline
  import opened PipelineInv
  import opened PipelineSteps
  import opened PipelineTheorems
  import opened ScsiSteps
  import opened Memory
  import opened DataPath
  import opened DataRuns
  import opened DataSteps
  import QM = QueueModel

  // ---------------------------------------------------------------------
  // Runs
  // ---------------------------------------------------------------------

  ghost predicate Begins(j: Joint, units: set<nat>, num: nat)
  {
    && Initial(j.s, units, num)
    && StoreOk(j.m) && |j.m.table| == MAX_UNITS * MAX_INFLIGHT
    && (forall i | 0 <= i < |j.m.table| :: j.m.table[i] == NOTHING)
    && j.log == Log(map[], map[], map[])
  }

  ghost predicate Happens(w: World, j: Joint, e: Event, j': Joint)
  {
    Can(w, j, e) && j' == After(w, j, e)
  }

  ghost predicate LeadsTo(w: World, j: Joint, j': Joint) { exists e :: Happens(w, j, e, j') }

  ghost predicate Proceeds(w: World, run: seq<Joint>, n: nat)
    requires n + 1 < |run|
  {
    LeadsTo(w, run[n], run[n + 1])
  }

  /** Any interleaving of the unit tasks, the device and the callers. */
  ghost predicate IsHistory(w: World, run: seq<Joint>, units: set<nat>, num: nat)
  {
    run != [] && Begins(run[0], units, num) && forall n | 0 <= n < |run| - 1 :: Proceeds(w, run, n)
  }

  lemma BeginsInv(w: World, j: Joint, units: set<nat>, num: nat)
    requires Begins(j, units, num)
    ensures JointInv(w, j)
  {
    hide Initial, Inv, Reachable, StoreOk;
    StartsReachable(j.s, units, num);
    InitialInv(j.s, units, num);
    InitialIdle(j.s, units, num);
    forall k | k in j.s.r.stage
      ensures RowTied(w, k, j.s.r.stage[k], j.m, QM.UsedIds(j.s.d.q.used), j.log)
    {
      AtKey(j.s, k);
      SlotExists(j.m, k);
    }
  }

  lemma SlotExists(m: Store, k: Key)
    requires StoreOk(m) && |m.table| == MAX_UNITS * MAX_INFLIGHT && k.unit < MAX_UNITS && k.slot < MAX_INFLIGHT
    ensures HasSlot(m, RowOf(k))
  {
    hide RecordsOk, Held;
  }

  lemma InitialIdle(s: State, units: set<nat>, num: nat)
    requires Initial(s, units, num)
    ensures forall k | k in s.r.stage :: s.r.stage[k].Idle?
    ensures s.r.home == map[] && s.d.replies == []
    ensures forall u | u in s.d.task :: s.d.task[u].pc.Ready?
  {}

  lemma StartsReachable(s: State, units: set<nat>, num: nat)
    requires Initial(s, units, num)
    ensures Reachable(s)
  {
    hide Initial;
    assert IsRun([s], units, num) && [s][|[s]| - 1] == s;
  }

  lemma {:induction false} HistoryInv(w: World, run: seq<Joint>, units: set<nat>, num: nat, n: nat)
    requires IsHistory(w, run, units, num) && n < |run|
    ensures JointInv(w, run[n])
  {
    hide JointInv, Begins, After, Can;
    if n == 0 {
      BeginsInv(w, run[0], units, num);
    } else {
      HistoryInv(w, run, units, num, n - 1);
      assert Proceeds(w, run, n - 1);
      var e :| Happens(w, run[n - 1], e, run[n]);
      EventKeeps(w, run[n - 1], e);
    }
  }

  /** The states the whole can get into. */
  ghost predicate Attained(w: World, j: Joint)
  {
    exists run, units, num :: IsHistory(w, run, units, num) && run[|run| - 1] == j
  }

  lemma AttainedInv(w: World, j: Joint)
    requires Attained(w, j)
    ensures JointInv(w, j)
  {
    hide JointInv;
    var run, units, num :| IsHistory(w, run, units, num) && run[|run| - 1] == j;
    HistoryInv(w, run, units, num, |run| - 1);
  }

  lemma AttainedNext(w: World, j: Joint, e: Event, j': Joint)
    requires Attained(w, j) && Happens(w, j, e, j')
    ensures Attained(w, j')
  {
    hide Attained, IsHistory, Happens;
    AttainedRun(w, j);
    var run, units, num :| run != [] && IsHistory(w, run, units, num) && run[|run| - 1] == j;
    HappensLeads(w, j, e, j');
    HistoryStep(w, run, units, num, j');
    EndAttained(w, run + [j'], units, num);
  }

  lemma HappensLeads(w: World, j: Joint, e: Event, j': Joint)
    requires Happens(w, j, e, j')
    ensures LeadsTo(w, j, j')
  {}

  lemma EndAttained(w: World, run: seq<Joint>, units: set<nat>, num: nat)
    requires run != [] && IsHistory(w, run, units, num)
    ensures Attained(w, run[|run| - 1])
  {}

  lemma AttainedRun(w: World, j: Joint)
    requires Attained(w, j)
    ensures exists run, units, num :: run != [] && IsHistory(w, run, units, num) && run[|run| - 1] == j
  {
    var run, units, num :| IsHistory(w, run, units, num) && run[|run| - 1] == j;
    assert run != [] && IsHistory(w, run, units, num) && run[|run| - 1] == j;
  }

  lemma HistoryStep(w: World, run: seq<Joint>, units: set<nat>, num: nat, j': Joint)
    requires IsHistory(w, run, units, num) && LeadsTo(w, run[|run| - 1], j')
    ensures IsHistory(w, run + [j'], units, num)
  {
    hide LeadsTo, Begins;
    var longer := run + [j'];
    forall n | 0 <= n < |longer| - 1
      ensures Proceeds(w, longer, n)
    {
      assert n < |run| - 1 ==> Proceeds(w, run, n);
    }
  }

  lemma AttainedReachable(w: World, j: Joint)
    requires Attained(w, j)
    ensures Reachable(j.s)
  {
    hide Attained;
    AttainedInv(w, j);
  }

  // ---------------------------------------------------------------------
  // Writes
  // ---------------------------------------------------------------------

  /** Until it has answered, the device finds a bounced write's data as the
      caller gave it, a direct write's in the caller's own pages, and none in a
      read. */
  lemma DeviceFindsData(w: World, j: Joint, k: Key)
    requires Attained(w, j) && k in j.s.r.stage && j.s.r.stage[k].Flying?
    requires j.s.r.stage[k].head !in QM.UsedIds(j.s.d.q.used)
    ensures j.s.r.stage[k].head in j.s.d.q.out && j.s.r.stage[k].io in j.log.given
    ensures var io, x := j.s.r.stage[k].io, RecordFor(w, j.s.r.stage[k].io);
            var seen := DataOut(w, k, j.s.d.q.out[j.s.r.stage[k].head]);
            && Inside(|j.m.ram|, seen)
            && (Bounced(x, true) ==> Gather(j.m.ram, seen) == j.log.given[io])
            && (x.mapped && x.isWrite ==> seen == w.transfer(io).data.value)
            && (!x.isWrite ==> seen == [])
  {
    hide Attained;
    AttainedInv(w, j);
    RowAt(w, j, k);
    StoreIs(w, j);
    var io, i := j.s.r.stage[k].io, RowOf(k);
    var x := RecordFor(w, io);
    assert DataOk(|j.m.ram|, x);
    hide JointInv, StoreOk;
    DataOutIs(w, k, x, j.m.bounce[i], j.s.d.q.out[j.s.r.stage[k].head]);
    hide RecordFor, BufferOf, DataOut;
    if x.usingBounce && x.isWrite {
      GatherBuffer(j.m, i, x.size);
    }
  }

  /** What the device is given: header, data out, response, data in, the first two
      to be read and the others to be written; the data is the slot's own bounce
      buffer up to 64 KB, the caller's own pages beyond, on the side its direction
      asks. */
  lemma DeviceSeesRequest(w: World, j: Joint, k: Key)
    requires Attained(w, j) && k in j.s.r.stage && j.s.r.stage[k].Flying?
    ensures j.s.r.stage[k].head in j.s.d.q.out && RowOf(k) < |j.m.bounce|
    ensures var t, r := w.transfer(j.s.r.stage[k].io), j.s.d.q.out[j.s.r.stage[k].head];
            var data := if t.data.None? || t.length == 0 then []
                        else if t.length <= 65536 then [Sg(j.m.bounce[RowOf(k)], t.length)] else t.data.value;
            && r.outNum <= |r.sg|
            && r.sg[..r.outNum] == w.header(k) + (if t.isWrite then data else [])
            && r.sg[r.outNum..] == w.response(k) + (if t.isWrite then [] else data)
  {
    hide Attained;
    AttainedInv(w, j);
    RowAt(w, j, k);
    hide JointInv;
    var t, at := w.transfer(j.s.r.stage[k].io), j.m.bounce[RowOf(k)];
    ChainSays(t.data, t.length, t.isWrite, true, true, w.header(k), w.response(k), at);
    hide ChainOf, ReadableOf, Prepared, RowTied, Submittable;
    var data := if t.data.None? || t.length == 0 then []
                else if t.length <= 65536 then [Sg(at, t.length)] else t.data.value;
    Halves(w.header(k), data, w.response(k), t.isWrite, j.s.d.q.out[j.s.r.stage[k].head]);
  }

  lemma Halves(req: seq<Sg>, data: seq<Sg>, resp: seq<Sg>, isWrite: bool, r: QM.Request)
    requires r.sg == if isWrite then req + data + resp else req + resp + data
    requires r.outNum == if isWrite then |req| + |data| else |req|
    ensures r.outNum <= |r.sg| && r.sg[..r.outNum] == req + (if isWrite then data else [])
    ensures r.sg[r.outNum..] == resp + (if isWrite then [] else data)
  {}

  lemma DataOutIs(w: World, k: Key, x: Data, bounce: uint32, r: QM.Request)
    requires r.sg == ChainOf(x, w.header(k), w.response(k), bounce) && r.outNum == ReadableOf(x, w.header(k), bounce)
    ensures DataOut(w, k, r) == if x.isWrite then DataSegments(x, bounce) else []
  {
    hide DataSegments;
  }

  lemma GatherBuffer(m: Store, i: nat, n: uint32)
    requires HasSlot(m, i) && n <= BOUNCE_BUF_SIZE
    ensures var sg := [Sg(m.bounce[i], n)]; Inside(|m.ram|, sg) && Gather(m.ram, sg) == BufferOf(m, i)[..n]
  {
    GatherStep(m.ram, [Sg(m.bounce[i], n)]);
  }

  /** What is in the log stays there. */
  ghost predicate LogGrows(j: Joint, j': Joint)
  {
    && (forall io | io in j.log.given :: io in j'.log.given && j'.log.given[io] == j.log.given[io])
    && (forall io | io in j.log.wrote && io in j.s.r.done ::
          && io in j'.log.wrote && io in j'.s.r.done
          && j'.log.wrote[io] == j.log.wrote[io] && j'.s.r.done[io] == j.s.r.done[io])
    && (forall io | io in j.log.delivered :: io in j'.log.delivered && j'.log.delivered[io] == j.log.delivered[io])
  }

  lemma EventGrows(w: World, j: Joint, e: Event)
    requires JointInv(w, j) && Can(w, j, e)
    ensures LogGrows(j, After(w, j, e))
  {
    hide JointInv, NextState, Filled, Finished, Released, Actual, CallersBytes;
    if e.Drive? {
      DriveGrows(w, j, e.step, e.bytes);
    }
  }

  lemma DriveGrows(w: World, j: Joint, step: Step, bytes: seq<uint8>)
    requires JointInv(w, j) && Can(w, j, Drive(step, bytes))
    ensures LogGrows(j, After(w, j, Drive(step, bytes)))
  {
    hide JointInv, NextState, Written;
    IsReachable(w, j);
    if step.DeviceComplete? {
      CompleteRecord(j.s, step.head, step.len, step.value);
    } else {
      StepGrows(j.s, step);
    }
  }

  lemma {:induction false} HistoryGrows(w: World, run: seq<Joint>, units: set<nat>, num: nat, m: nat, n: nat)
    requires IsHistory(w, run, units, num) && m <= n < |run|
    ensures LogGrows(run[m], run[n])
  {
    hide JointInv, Begins, After, Can;
    if m < n {
      HistoryGrows(w, run, units, num, m, n - 1);
      HistoryInv(w, run, units, num, n - 1);
      assert Proceeds(w, run, n - 1);
      var e :| Happens(w, run[n - 1], e, run[n]);
      EventGrows(w, run[n - 1], e);
    }
  }

  /** From submission to the device: whatever happens in between, to this slot or
      to any other, at every later moment until the device answers it finds a
      bounced write's bytes as they were in the caller's pages when the task
      prepared the request. */
  lemma WriteArrives(w: World, run: seq<Joint>, units: set<nat>, num: nat, u: nat, n: nat, later: nat, k: Key)
    requires IsHistory(w, run, units, num) && n < later < |run|
    requires Happens(w, run[n], FillData(u), run[n + 1])
    requires k in run[later].s.r.stage && run[later].s.r.stage[k].Flying?
    requires run[later].s.r.stage[k].head !in QM.UsedIds(run[later].s.d.q.used)
    requires run[later].s.r.stage[k].io == run[n].s.d.task[u].pc.io
    requires var t := w.transfer(run[later].s.r.stage[k].io); t.data.Some? && 0 < t.length <= 65536 && t.isWrite
    ensures run[later].s.r.stage[k].head in run[later].s.d.q.out
    ensures var seen := DataOut(w, k, run[later].s.d.q.out[run[later].s.r.stage[k].head]);
            var pages := w.transfer(run[later].s.r.stage[k].io).data.value;
            && Inside(|run[later].m.ram|, seen) && Inside(|run[n].m.ram|, pages)
            && Gather(run[later].m.ram, seen) == Gather(run[n].m.ram, pages)
  {
    RecordSays(w, run[later].s.r.stage[k].io);
    HistoryGrows(w, run, units, num, n + 1, later);
    GivenIs(w, run[n], u);
    hide Happens, RecordFor;
    LaterAttained(w, run, units, num, later);
    DeviceFindsData(w, run[later], k);
  }

  /** The record of a request whose data goes through the bounce buffer. */
  lemma RecordSays(w: World, io: Io)
    ensures var t, x := w.transfer(io), RecordFor(w, io);
            && (Bounced(x, t.isWrite) <==> t.data.Some? && 0 < t.length <= 65536)
            && !Bounced(x, !t.isWrite) && (x.mapped <==> t.data.Some? && t.length > 65536)
            && (t.data.Some? && t.length > 0 ==> x.pages == t.data.value && x.size == t.length)
  {}

  lemma GivenIs(w: World, j: Joint, u: nat)
    requires Can(w, j, FillData(u))
    ensures var io, j' := j.s.d.task[u].pc.io, After(w, j, FillData(u));
            var pages := RecordFor(w, io).pages;
            Inside(|j.m.ram|, pages) && io in j'.log.given && j'.log.given[io] == Gather(j.m.ram, pages)
  {
    hide Filled, RecordFor;
    RecordFits(w, j.m, j.s.d.task[u].pc.io);
  }

  lemma LaterAttained(w: World, run: seq<Joint>, units: set<nat>, num: nat, n: nat)
    requires IsHistory(w, run, units, num) && n < |run|
    ensures Attained(w, run[n])
  {
    hide Begins, LeadsTo;
    var upTo := run[..n + 1];
    assert forall m | 0 <= m < n :: Proceeds(w, run, m) ==> Proceeds(w, upTo, m);
    assert IsHistory(w, upTo, units, num) && upTo[|upTo| - 1] == run[n];
  }

  // ---------------------------------------------------------------------
  // Reads
  // ---------------------------------------------------------------------

  predicate IsBouncedRead(t: Transfer) { t.data.Some? && 0 < t.length <= 65536 && !t.isWrite }

  /** A completion has left in the caller's pages what it must: on an error, or with
      a residual the length cannot hold, what was there; otherwise as many of the
      device's bytes as length and residual say, if it wrote that many, and behind
      them what was there. */
  ghost predicate Delivers(t: Transfer, v: Verdict, bytes: seq<uint8>, before: Ram, after: Ram)
    requires t.data.Some?
  {
    && Inside(|before|, t.data.value) && |after| == |before| && Total(t.data.value) == t.length
    && (v.error != 0 || v.residual > t.length ==> Gather(after, t.data.value) == Gather(before, t.data.value))
    && (v.error == 0 && t.length - |bytes| <= v.residual <= t.length ==>
          var n := t.length - v.residual;
          Gather(after, t.data.value) == bytes[..n] + Gather(before, t.data.value)[n..])
  }

  /** From the device to the caller: of a bounced read, whatever happens between
      the device's answer and the completion, the caller's pages then begin with
      io_Actual bytes of what the device wrote, and the rest is as it was just
      before; io_Actual is what the device's own answer to that request says. */
  lemma ReadArrives(w: World, run: seq<Joint>, units: set<nat>, num: nat,
                    k: Key, head: nat, len: uint32, value: nat, bytes: seq<uint8>, m: nat, u: nat, n: nat)
    requires IsHistory(w, run, units, num) && m < n < |run| - 1
    requires Happens(w, run[m], Drive(DeviceComplete(head, len, value), bytes), run[m + 1]) && Serves(run[m], head, k)
    requires Happens(w, run[n], FinishData(u), run[n + 1]) && run[n].s.d.task[u].pc.io == run[m].s.r.stage[k].io
    requires IsBouncedRead(w.transfer(run[m].s.r.stage[k].io))
    ensures run[n].s.d.task[u].pc.answer == Answer(value)
    ensures Delivers(w.transfer(run[m].s.r.stage[k].io), w.verdict(Answer(value)), bytes,
                     run[n].m.ram, run[n + 1].m.ram)
  {
    var io := run[m].s.r.stage[k].io;
    hide JointInv, Delivers;
    HistoryInv(w, run, units, num, m);
    AnswerIsLogged(w, run[m], head, k, len, value, bytes);
    HistoryGrows(w, run, units, num, m + 1, n);
    HistoryInv(w, run, units, num, n);
    CompletionDelivers(w, run[n], u);
  }

  lemma CompletionDelivers(w: World, j: Joint, u: nat)
    requires JointInv(w, j) && Can(w, j, FinishData(u)) && IsBouncedRead(w.transfer(j.s.d.task[u].pc.io))
    ensures var pc, j' := j.s.d.task[u].pc, After(w, j, FinishData(u));
            && pc.io in j.s.r.done && pc.answer == j.s.r.done[pc.io] && pc.io in j.log.wrote
            && Delivers(w.transfer(pc.io), w.verdict(pc.answer), j.log.wrote[pc.io], j.m.ram, j'.m.ram)
  {
    var pc, j' := j.s.d.task[u].pc, After(w, j, FinishData(u));
    hide JointInv;
    RecordSays(w, pc.io);
    DeliveryIs(w, j, u);
    HistoryEnd(w, j, u);
    hide RecordFor, Can, After;
    var pages := w.transfer(pc.io).data.value;
    DeliverySays(w, pc.io, pc.answer, j.log.wrote[pc.io],
                 Delivery(Gather(j.m.ram, pages), Gather(j'.m.ram, pages), j'.log.delivered[pc.io].actual));
  }

  lemma HistoryEnd(w: World, j: Joint, u: nat)
    requires JointInv(w, j) && Can(w, j, FinishData(u))
    ensures |After(w, j, FinishData(u)).m.ram| == |j.m.ram|
  {
    hide JointInv;
    FinishIs(w, j, u);
    var pc := j.s.d.task[u].pc;
    var v := w.verdict(pc.answer);
    FinishedFields(j.m, RowOf(pc.key), v.error, v.residual, w.transfer(pc.io).length);
  }

  lemma AnswerIsLogged(w: World, j: Joint, head: nat, k: Key, len: uint32, value: nat, bytes: seq<uint8>)
    requires JointInv(w, j) && Can(w, j, Drive(DeviceComplete(head, len, value), bytes)) && Serves(j, head, k)
    ensures var io, j' := j.s.r.stage[k].io, After(w, j, Drive(DeviceComplete(head, len, value), bytes));
            && io in j'.log.wrote && j'.log.wrote[io] == bytes
            && io in j'.s.r.done && j'.s.r.done[io] == Answer(value)
  {
    hide JointInv, NextState, Written;
    IsReachable(w, j);
    CompleteRecord(j.s, head, len, value);
  }

  /** What completion does to the caller's pages. */
  lemma DeliveryIs(w: World, j: Joint, u: nat)
    requires JointInv(w, j) && Can(w, j, FinishData(u))
    ensures var pc, j' := j.s.d.task[u].pc, After(w, j, FinishData(u));
            var pages := RecordFor(w, pc.io).pages;
            && pc.io in j.s.r.done && pc.answer == j.s.r.done[pc.io] && pc.io in j.log.wrote
            && Inside(|j.m.ram|, pages) && Inside(|j'.m.ram|, pages)
            && (RecordFor(w, pc.io).usingBounce ==> Total(pages) == RecordFor(w, pc.io).size)
            && DeliveryOk(w, pc.io, pc.answer, j.log.wrote[pc.io],
                 Delivery(Gather(j.m.ram, pages), Gather(j'.m.ram, pages), j'.log.delivered[pc.io].actual))
  {
    var pc := j.s.d.task[u].pc;
    IsReachable(w, j);
    ClosingSlot(j.s, u, pc.key);
    ClosingDone(j.s, u);
    RowAt(w, j, pc.key);
    StoreIs(w, j);
    var v, length, i := w.verdict(pc.answer), w.transfer(pc.io).length, RowOf(pc.key);
    hide JointInv, Reachable, StoreOk, RecordFor, Actual, DeliveryOk, Finished;
    FinishedWell(w, j.m, i, pc.io, pc.answer, j.log);
    RecordInside(j.m, i);
    FinishedFields(j.m, i, v.error, v.residual, length);
  }

  lemma RecordInside(m: Store, i: nat)
    requires HasSlot(m, i) && StoreOk(m)
    ensures Inside(|m.ram|, m.table[i].pages) && (m.table[i].usingBounce ==> Total(m.table[i].pages) == m.table[i].size)
  {}

  /** A read too long to bounce: the device's own write lands in the caller's pages
      as it answers. */
  lemma DirectReadLands(w: World, j: Joint, head: nat, k: Key, len: uint32, value: nat, bytes: seq<uint8>)
    requires Attained(w, j) && Can(w, j, Drive(DeviceComplete(head, len, value), bytes)) && Serves(j, head, k)
    requires var t := w.transfer(j.s.r.stage[k].io); t.data.Some? && t.length > 65536 && !t.isWrite
    ensures var pages := w.transfer(j.s.r.stage[k].io).data.value;
            var ram := After(w, j, Drive(DeviceComplete(head, len, value), bytes)).m.ram;
            && Inside(|j.m.ram|, pages) && |ram| == |j.m.ram| && |bytes| <= Total(pages)
            && Gather(ram, pages) == bytes + Gather(j.m.ram, pages)[|bytes|..]
  {
    hide Attained, NextState, Reachable;
    AttainedInv(w, j);
    AttainedReachable(w, j);
    CompleteFacts(j.s, head);
    RowAt(w, j, k);
    StoreIs(w, j);
    RecordSays(w, j.s.r.stage[k].io);
    var x, at := j.m.table[RowOf(k)], j.m.bounce[RowOf(k)];
    assert DataOk(|j.m.ram|, x) && Apart(x.pages);
    hide JointInv, StoreOk, RecordFor;
    DataInIs(w, k, x, at, j.s.d.q.out[head]);
    hide DataIn, Scatter, Gather;
    GatherScatter(j.m.ram, x.pages, bytes);
  }

  /** At step `m` of the run the device answers `io` and writes `bytes`. */
  ghost predicate AnsweredAt(w: World, run: seq<Joint>, m: nat, io: Io, answer: Answer, bytes: seq<uint8>)
  {
    m + 1 < |run| && exists k, head, len, value ::
      && Happens(w, run[m], Drive(DeviceComplete(head, len, value), bytes), run[m + 1]) && Serves(run[m], head, k)
      && run[m].s.r.stage[k].io == io && answer == Answer(value)
  }

  /** At step `n` a task completes `io`. */
  ghost predicate CompletedAt(w: World, run: seq<Joint>, n: nat, io: Io)
  {
    n + 1 < |run| && exists u ::
      Happens(w, run[n], FinishData(u), run[n + 1]) && run[n].s.d.task[u].pc.io == io
  }

  lemma {:induction false} WasAnswered(w: World, run: seq<Joint>, units: set<nat>, num: nat, n: nat, io: Io)
    requires IsHistory(w, run, units, num) && n < |run| && io in run[n].log.wrote
    ensures io in run[n].s.r.done
    ensures exists m :: 0 <= m < n && AnsweredAt(w, run, m, io, run[n].s.r.done[io], run[n].log.wrote[io])
  {
    hide JointInv, Begins, After, Can, AnsweredAt;
    if n == 0 {
      NothingLogged(run[0], units, num);
    } else {
      HistoryInv(w, run, units, num, n - 1);
      assert Proceeds(w, run, n - 1);
      var e :| Happens(w, run[n - 1], e, run[n]);
      if io in run[n - 1].log.wrote {
        WasAnswered(w, run, units, num, n - 1, io);
        EventGrows(w, run[n - 1], e);
      } else {
        FirstAnswer(w, run, n - 1, e, io);
      }
    }
  }

  lemma NothingLogged(j: Joint, units: set<nat>, num: nat)
    requires Begins(j, units, num)
    ensures j.log == Log(map[], map[], map[])
  {}

  lemma FirstAnswer(w: World, run: seq<Joint>, n: nat, e: Event, io: Io)
    requires n + 1 < |run| && JointInv(w, run[n]) && Happens(w, run[n], e, run[n + 1])
    requires io !in run[n].log.wrote && io in run[n + 1].log.wrote
    ensures io in run[n + 1].s.r.done
    ensures AnsweredAt(w, run, n, io, run[n + 1].s.r.done[io], run[n + 1].log.wrote[io])
  {
    hide JointInv, NextState, Filled, Finished, Released, Written, CallersBytes, Actual;
    assert e.Drive? && e.step.DeviceComplete?;
    var j, head := run[n], e.step.head;
    var k := KeyOf(j.s.d.q.out[head].cookie);
    assert Serves(j, head, k) && j.s.r.stage[k].io == io;
    AnswerIsLogged(w, j, head, k, e.step.len, e.step.value, e.bytes);
  }

  lemma {:induction false} WasCompleted(w: World, run: seq<Joint>, units: set<nat>, num: nat, n: nat, io: Io)
    requires IsHistory(w, run, units, num) && n < |run| && io in run[n].log.delivered
    ensures exists m :: 0 <= m < n && CompletedAt(w, run, m, io)
  {
    hide Begins, After, Can, CompletedAt;
    if n == 0 {
      NothingLogged(run[0], units, num);
    } else if io in run[n - 1].log.delivered {
      WasCompleted(w, run, units, num, n - 1, io);
    } else {
      assert Proceeds(w, run, n - 1);
      var e :| Happens(w, run[n - 1], e, run[n]);
      FirstCompletion(w, run, n - 1, e, io);
    }
  }

  lemma FirstCompletion(w: World, run: seq<Joint>, n: nat, e: Event, io: Io)
    requires n + 1 < |run| && Happens(w, run[n], e, run[n + 1])
    requires io !in run[n].log.delivered && io in run[n + 1].log.delivered
    ensures CompletedAt(w, run, n, io)
  {
    hide NextState, Filled, Finished, Released, Written, CallersBytes, Actual;
    assert e.FinishData?;
  }

  /** From the request to the reply: every reply to a bounced read follows the
      device's answer to that request and a completion that put what the device
      had written into the caller's pages. */
  lemma ReadEndToEnd(w: World, run: seq<Joint>, units: set<nat>, num: nat, i: nat)
    returns (m: nat, n: nat, bytes: seq<uint8>)
    requires IsHistory(w, run, units, num) && i < |run[|run| - 1].s.d.replies|
    requires IsBouncedRead(w.transfer(run[|run| - 1].s.d.replies[i].io))
    ensures var reply := run[|run| - 1].s.d.replies[i];
            && m < n < |run| - 1 && AnsweredAt(w, run, m, reply.io, reply.answer, bytes)
            && CompletedAt(w, run, n, reply.io)
            && Delivers(w.transfer(reply.io), w.verdict(reply.answer), bytes, run[n].m.ram, run[n + 1].m.ram)
  {
    var last := |run| - 1;
    var reply := run[last].s.d.replies[i];
    LaterAttained(w, run, units, num, last);
    CompletedRight(w, run[last]);
    WasCompleted(w, run, units, num, last, reply.io);
    n :| 0 <= n < last && CompletedAt(w, run, n, reply.io);
    var u :| Happens(w, run[n], FinishData(u), run[n + 1]) && run[n].s.d.task[u].pc.io == reply.io;
    HistoryInv(w, run, units, num, n);
    HistoryGrows(w, run, units, num, n, last);
    hide IsHistory, JointInv;
    CompletionReads(w, run[n], u);
    m, bytes := AnswerBefore(w, run, units, num, n, reply.io, reply.answer);
    var k, head, len, value :|
      && Happens(w, run[m], Drive(DeviceComplete(head, len, value), bytes), run[m + 1]) && Serves(run[m], head, k)
      && run[m].s.r.stage[k].io == reply.io && reply.answer == Answer(value);
    hide Happens, AnsweredAt, CompletedAt;
    ReadArrives(w, run, units, num, k, head, len, value, bytes, m, u, n);
  }

  lemma CompletionReads(w: World, j: Joint, u: nat)
    requires JointInv(w, j) && Can(w, j, FinishData(u))
    ensures j.s.d.task[u].pc.io in j.log.wrote && j.s.d.task[u].pc.io in j.s.r.done
  {
    hide DeliveryOk, JointInv, After;
    DeliveryIs(w, j, u);
  }

  lemma AnswerBefore(w: World, run: seq<Joint>, units: set<nat>, num: nat, n: nat, io: Io, answer: Answer)
    returns (m: nat, bytes: seq<uint8>)
    requires IsHistory(w, run, units, num) && n < |run| && io in run[n].log.wrote
    requires io in run[n].s.r.done && answer == run[n].s.r.done[io]
    ensures m < n && AnsweredAt(w, run, m, io, answer, bytes)
  {
    WasAnswered(w, run, units, num, n, io);
    hide AnsweredAt;
    bytes := run[n].log.wrote[io];
    m :| 0 <= m < n && AnsweredAt(w, run, m, io, run[n].s.r.done[io], run[n].log.wrote[io]);
  }

  /** Every reply was completed, and as its own answer says: io_Actual and the
      residual add up to the length, or io_Actual is 0; only a bounced read's
      completion touches the caller's pages, and then by as much as io_Actual. */
  lemma RepliesAreDelivered(w: World, j: Joint)
    requires Attained(w, j)
    ensures forall i | 0 <= i < |j.s.d.replies| ::
              var reply := j.s.d.replies[i];
              && reply.io in j.log.delivered && reply.io in j.log.wrote && reply.io in j.s.r.done
              && reply.answer == j.s.r.done[reply.io]
              && DeliveredRight(w.transfer(reply.io), w.verdict(reply.answer), j.log.wrote[reply.io],
                                j.log.delivered[reply.io])
  {
    CompletedRight(w, j);
    hide Attained, DeliveryOk;
    forall i | 0 <= i < |j.s.d.replies|
      ensures var reply := j.s.d.replies[i];
              reply.io in j.s.r.done && reply.io in j.log.wrote && reply.io in j.log.delivered
              && DeliveredRight(w.transfer(reply.io), w.verdict(reply.answer), j.log.wrote[reply.io],
                                j.log.delivered[reply.io])
    {
      var reply := j.s.d.replies[i];
      DeliverySays(w, reply.io, reply.answer, j.log.wrote[reply.io], j.log.delivered[reply.io]);
    }
  }

  predicate DeliveredRight(t: Transfer, v: Verdict, wrote: seq<uint8>, e: Delivery)
  {
    && (v.error != 0 || v.residual > t.length ==> e.actual == 0 && e.after == e.before)
    && (v.error == 0 && v.residual <= t.length ==> e.actual + v.residual == t.length)
    && (!IsBouncedRead(t) ==> e.after == e.before)
    && (IsBouncedRead(t) && e.actual <= |wrote| ==>
          e.actual <= |e.before| && e.after == wrote[..e.actual] + e.before[e.actual..])
  }

  lemma DeliverySays(w: World, io: Io, answer: Answer, wrote: seq<uint8>, e: Delivery)
    requires DeliveryOk(w, io, answer, wrote, e)
    ensures DeliveredRight(w.transfer(io), w.verdict(answer), wrote, e)
  {
    RecordSays(w, io);
    hide RecordFor;
  }

  lemma CompletedRight(w: World, j: Joint)
    requires Attained(w, j)
    ensures forall i | 0 <= i < |j.s.d.replies| ::
              var reply := j.s.d.replies[i];
              && reply.io in j.log.delivered && reply.io in j.log.wrote && reply.io in j.s.r.done
              && reply.answer == j.s.r.done[reply.io]
              && DeliveryOk(w, reply.io, reply.answer, j.log.wrote[reply.io], j.log.delivered[reply.io])
  {
    hide Attained, DeliveryOk, Reachable;
    AttainedInv(w, j);
    ReachableInv(j.s);
    hide Domains, ListOk, SlotsOk, QueueOk, TasksOk, PendingOk, AnswersOk, RepliesOk, HomesOk, CountsOk, SyncLogOk;
  }

  // ---------------------------------------------------------------------
  // The ledger of mappings
  // ---------------------------------------------------------------------

  /** The mapping a slot answers for: its request's while it is submitted, until
      the task completing it has ended the mapping. */
  ghost function Owed(w: World, j: Joint, k: Key): multiset<Mapping>
  {
    if k !in j.s.r.stage then multiset{}
    else
      match j.s.r.stage[k]
      case Reserved(io) => if HasSlot(j.m, RowOf(k)) then MappingOf(j.m.table[RowOf(k)]) else multiset{}
      case Flying(io, _) => MappingOf(RecordFor(w, io))
      case Carried(io, _) => MappingOf(RecordFor(w, io))
      case Closed(io, _) => if io in j.log.delivered then multiset{} else MappingOf(RecordFor(w, io))
      case _ => multiset{}
  }

  /** In every run the live mappings are exactly those the slots answer for. */
  lemma LiveMappings(w: World, j: Joint)
    requires Attained(w, j)
    ensures j.m.live == Held(j.m.table) && |j.m.table| == MAX_UNITS * MAX_INFLIGHT
    ensures forall i | 0 <= i < |j.m.table| :: MappingOf(j.m.table[i]) == Owed(w, j, KeyAt(i))
  {
    hide Attained, Held;
    AttainedInv(w, j);
    StoreIs(w, j);
    forall i | 0 <= i < |j.m.table|
      ensures MappingOf(j.m.table[i]) == Owed(w, j, KeyAt(i))
    {
      RowOwes(w, j, i);
    }
  }

  lemma RowOwes(w: World, j: Joint, i: nat)
    requires JointInv(w, j) && i < |j.m.table|
    ensures MappingOf(j.m.table[i]) == Owed(w, j, KeyAt(i))
  {
    hide JointInv;
    var k := KeyAt(i);
    assert RowOf(k) == i;
    hide RowOf, KeyAt, RecordFor, BufferOf;
    if k in j.s.r.stage {
      RowAt(w, j, k);
    } else {
      NoSlotRow(w, j, i);
    }
  }

  lemma NoSlotRow(w: World, j: Joint, i: nat)
    requires JointInv(w, j) && i < |j.m.table| && KeyAt(i) !in j.s.r.stage
    ensures !j.m.table[i].mapped
  {
    hide Reachable, RowsTied, ChainsTied, LogTied, RepliesTied, StoreOk;
  }

  /** Every mapping is ended exactly once: when the pipeline has gone quiet none
      is left. */
  lemma QuietLedger(w: World, j: Joint)
    requires Attained(w, j) && Quiet(j.s.d)
    ensures j.m.live == multiset{}
  {
    hide Attained, Held, Quiet, Reachable;
    AttainedInv(w, j);
    LiveMappings(w, j);
    QuietIdle(j.s);
    hide JointInv;
    forall i | 0 <= i < |j.m.table|
      ensures !j.m.table[i].mapped
    {
      assert MappingOf(j.m.table[i]) == Owed(w, j, KeyAt(i)) == multiset{};
    }
    HeldByNone(j.m.table);
  }

  lemma QuietIdle(s: State)
    requires Reachable(s) && Quiet(s.d)
    ensures forall k | k in s.r.stage :: s.r.stage[k].Idle?
  {
    hide Reachable;
    ReachableInv(s);
    hide Inv;
    AllIdle(s);
  }
}
