/** The pipeline and the callers' data taken together.  Between its lock sections
    a task copies and maps, the device writes what it read, and the callers use
    their own memory; all of this interleaves with the pipeline's steps. */
module DataRuns {
  import opened Types
  import opened Pipeline
  import opened PipelineInv
  import opened PipelineSteps
  import opened PipelineTheorems
  import opened ScsiSteps
  import opened Memory
  import opened DataPath
  import QM = QueueModel

  /** An IORequest's io_Data, io_Length and direction. */
  datatype Transfer = Transfer(data: Option<seq<Sg>>, length: uint32, isWrite: bool)

  /** What the driver reads out of a response: io_Error and the residual. */
  datatype Verdict = Verdict(error: int, residual: uint32)

  /** What the code outside this model contributes: each request's data, the
      meaning of each answer (map_scsi_error), and where the slots' request and
      response buffers are mapped (dma_req_lists[], dma_resp_lists[]). */
  datatype World = World(transfer: Io -> Transfer, verdict: Answer -> Verdict,
                         header: Key -> seq<Sg>, response: Key -> seq<Sg>)

  /** A slot's place in a table of all the units' slots. */
  function RowOf(k: Key): nat { MAX_INFLIGHT * k.unit + k.slot }

  function KeyAt(row: nat): Key { Key(row / MAX_INFLIGHT, row % MAX_INFLIGHT) }

  lemma RowsAreKeys(k: Key)
    requires k.slot < MAX_INFLIGHT
    ensures KeyAt(RowOf(k)) == k
  {}

  function RecordFor(w: World, io: Io): Data
  {
    var t := w.transfer(io);
    Prepared(t.data, t.length, t.isWrite)
  }

  /** The chain a request makes in slot `k`, and how much of it is readable. */
  function ChainFor(w: World, k: Key, io: Io, bounce: uint32): seq<Sg>
  {
    ChainOf(RecordFor(w, io), w.header(k), w.response(k), bounce)
  }

  function OutFor(w: World, k: Key, io: Io, bounce: uint32): nat
  {
    ReadableOf(RecordFor(w, io), w.header(k), bounce)
  }

  /** The caller's duty: its buffer is real memory of the length it says, its
      own, and clear of the driver's buffers. */
  ghost predicate CallerOk(w: World, m: Store, io: Io)
  {
    var t := w.transfer(io);
    t.data.Some? ==> Inside(|m.ram|, t.data.value) && Total(t.data.value) == t.length && Clear(t.data.value, m.bounce)
  }

  // ---------------------------------------------------------------------
  // The machine
  // ---------------------------------------------------------------------

  /** The caller's pages just before and just after a completion, and io_Actual. */
  datatype Delivery = Delivery(before: seq<uint8>, after: seq<uint8>, actual: uint32)

  /** What no step of the driver reads: the caller's bytes when its request was
      prepared, the bytes the device wrote in answer, and how each request was
      completed. */
  datatype Log = Log(given: map<Io, seq<uint8>>, wrote: map<Io, seq<uint8>>, delivered: map<Io, Delivery>)

  datatype Joint = Joint(s: State, m: Store, log: Log)

  /** A step of the pipeline, with the bytes the device writes if it answers;
      one of the stretches in which a task works on a slot's data; or anything a
      caller does to memory that is not the driver's. */
  datatype Event =
    | Drive(step: Step, bytes: seq<uint8>)
    | FillData(u: nat)
    | UndoFill(u: nat)
    | FinishData(u: nat)
    | CallerWrites(ram: Ram)

  predicate IsFilling(j: Joint, u: nat)
  {
    At(j.s.d, u) && j.s.d.task[u].pc.Filling? && HasSlot(j.m, RowOf(FillKey(j.s, u)))
  }

  predicate IsClosing(j: Joint, u: nat)
  {
    At(j.s.d, u) && j.s.d.task[u].pc.Closing? && HasSlot(j.m, RowOf(j.s.d.task[u].pc.key))
  }

  function FillKey(s: State, u: nat): Key
    requires u in s.d.task && s.d.task[u].pc.Filling?
  {
    Key(u, s.d.task[u].pc.slot)
  }

  /** The slot an outstanding request of the pipeline's belongs to. */
  predicate Serves(j: Joint, head: nat, k: Key)
  {
    && head in j.s.d.q.out && k == KeyOf(j.s.d.q.out[head].cookie) && k in j.s.r.stage && j.s.r.stage[k].Flying?
    && HasSlot(j.m, RowOf(k))
  }

  /** What program order asks of a task before some of its steps, and the bounds
      the chain sets the device. */
  ghost predicate InOrder(w: World, j: Joint, step: Step, bytes: seq<uint8>)
    requires Enabled(j.s.d, step)
  {
    match step
    case Abandon(u) =>
      IsFilling(j, u) && !j.m.table[RowOf(FillKey(j.s, u))].mapped
    case Post(u, sg, outNum, _) =>
      && IsFilling(j, u)
      && var k, io := FillKey(j.s, u), j.s.d.task[u].pc.io;
         && io in j.log.given && j.m.table[RowOf(k)] == RecordFor(w, io)
         && sg == ChainFor(w, k, io, j.m.bounce[RowOf(k)]) && outNum == OutFor(w, k, io, j.m.bounce[RowOf(k)])
    case DeviceComplete(head, _, _) =>
      var k := KeyOf(j.s.d.q.out[head].cookie);
      Serves(j, head, k) ==> |bytes| <= Total(DataIn(w, k, j.s.d.q.out[head]))
    case Close(u) =>
      j.s.d.task[u].pc.io in j.log.delivered
    case _ => true
  }

  ghost predicate Can(w: World, j: Joint, e: Event)
  {
    match e
    case Drive(step, bytes) =>
      Allowed(j.s, step) && InOrder(w, j, step, bytes)
    case FillData(u) =>
      // once for each request, with the slot's record as the last one left it
      IsFilling(j, u) && j.s.d.task[u].pc.io !in j.log.given && CallerOk(w, j.m, j.s.d.task[u].pc.io)
    case UndoFill(u) =>
      IsFilling(j, u) && j.s.d.task[u].pc.io in j.log.given
    case FinishData(u) =>
      IsClosing(j, u) && j.s.d.task[u].pc.io !in j.log.delivered
    case CallerWrites(ram) =>
      |ram| == |j.m.ram| && forall i | HasSlot(j.m, i) :: SameBuffer(j.m, j.m.(ram := ram), i)
  }

  /** The bytes of a request's data, where the caller has them. */
  ghost function CallersBytes(ram: Ram, x: Data): seq<uint8>
  {
    if Inside(|ram|, x.pages) then Gather(ram, x.pages) else []
  }

  /** The device answers a request of the pipeline's: `bytes` go where the chain it
      was given says, whatever the driver means by it. */
  ghost function AfterAnswer(w: World, j: Joint, head: nat, bytes: seq<uint8>): (r: Joint)
    requires head in j.s.d.q.out
    ensures r.s == j.s
  {
    var k := KeyOf(j.s.d.q.out[head].cookie);
    if Serves(j, head, k) then
      j.(m := j.m.(ram := WrittenInto(j.m.ram, DataIn(w, k, j.s.d.q.out[head]), bytes)),
         log := j.log.(wrote := j.log.wrote[j.s.r.stage[k].io := bytes]))
    else j
  }

  ghost function WrittenInto(ram: Ram, into: seq<Sg>, bytes: seq<uint8>): (r: Ram)
    ensures |r| == |ram|
  {
    if Inside(|ram|, into) && |bytes| <= Total(into) then Scatter(ram, into, bytes) else ram
  }

  /** The part of an outstanding request the device may read, after the header. */
  function DataOut(w: World, k: Key, r: QM.Request): seq<Sg>
  {
    if |w.header(k)| <= r.outNum <= |r.sg| then r.sg[|w.header(k)|..r.outNum] else []
  }

  /** The part it may write, after the response. */
  function DataIn(w: World, k: Key, r: QM.Request): seq<Sg>
  {
    if r.outNum + |w.response(k)| <= |r.sg| then r.sg[r.outNum + |w.response(k)|..] else []
  }

  ghost function After(w: World, j: Joint, e: Event): Joint
    requires Can(w, j, e)
  {
    match e
    case Drive(step, bytes) =>
      var answered := if step.DeviceComplete? then AfterAnswer(w, j, step.head, bytes) else j;
      answered.(s := NextState(j.s, step))
    case FillData(u) =>
      var io := j.s.d.task[u].pc.io;
      var x := RecordFor(w, io);
      j.(m := Filled(j.m, RowOf(FillKey(j.s, u)), x),
         log := j.log.(given := j.log.given[io := CallersBytes(j.m.ram, x)]))
    case UndoFill(u) =>
      j.(m := Released(j.m, RowOf(FillKey(j.s, u))))
    case FinishData(u) =>
      var pc := j.s.d.task[u].pc;
      var v, length := w.verdict(pc.answer), w.transfer(pc.io).length;
      var i := RowOf(pc.key);
      var m := Finished(j.m, i, v.error, v.residual, length);
      var before, after := CallersBytes(j.m.ram, j.m.table[i]), CallersBytes(m.ram, j.m.table[i]);
      j.(m := m, log := j.log.(delivered := j.log.delivered[pc.io :=
           Delivery(before, after, Actual(v.error, v.residual, length))]))
    case CallerWrites(ram) =>
      j.(m := j.m.(ram := ram))
  }

  // ---------------------------------------------------------------------
  // The invariant
  // ---------------------------------------------------------------------

  predicate Bounced(x: Data, isWrite: bool) { x.usingBounce && x.isWrite == isWrite }

  /** The slot has its request's record, and a bounced write's bytes. */
  predicate WriteKept(w: World, io: Io, x: Data, buffer: seq<uint8>, log: Log)
  {
    && io in log.given && x == RecordFor(w, io)
    && (Bounced(x, true) ==> x.size <= |buffer| && buffer[..x.size] == log.given[io])
  }

  /** The slot has its request's record, and the bytes of a bounced read. */
  predicate ReadKept(w: World, io: Io, x: Data, buffer: seq<uint8>, log: Log)
  {
    && x == RecordFor(w, io) && io in log.wrote
    && (Bounced(x, false) ==>
          |log.wrote[io]| <= x.size && |log.wrote[io]| <= |buffer| && buffer[..|log.wrote[io]|] == log.wrote[io])
  }

  /** What a slot's record and bounce buffer hold at each stage of its request. */
  predicate Tied(w: World, s: Stage, x: Data, buffer: seq<uint8>, answered: bool, log: Log)
  {
    match s
    case Reserved(io) =>
      && io !in log.delivered && (x.mapped ==> io in log.given)
      && (io in log.given && x == RecordFor(w, io) ==> WriteKept(w, io, x, buffer, log))
    case Flying(io, _) =>
      io !in log.delivered && if answered then ReadKept(w, io, x, buffer, log) else WriteKept(w, io, x, buffer, log)
    case Carried(io, _) =>
      io !in log.delivered && ReadKept(w, io, x, buffer, log)
    case Closed(io, _) =>
      if io in log.delivered then !x.mapped else ReadKept(w, io, x, buffer, log)
    case _ =>
      !x.mapped
  }

  predicate InUsed(s: Stage, used: seq<nat>) { s.Flying? && s.head in used }

  predicate RowTied(w: World, k: Key, s: Stage, m: Store, used: seq<nat>, log: Log)
  {
    && k.slot < MAX_INFLIGHT && HasSlot(m, RowOf(k))
    && Tied(w, s, m.table[RowOf(k)], BufferOf(m, RowOf(k)), InUsed(s, used), log)
  }

  ghost predicate RowsTied(w: World, stage: map<Key, Stage>, m: Store, used: seq<nat>, log: Log)
  {
    forall k | k in stage :: RowTied(w, k, stage[k], m, used, log)
  }

  ghost predicate SlotsOnly(table: seq<Data>, stage: map<Key, Stage>)
  {
    forall i | 0 <= i < |table| && table[i].mapped :: KeyAt(i) in stage
  }

  /** Each outstanding request is the chain Submit built for its slot. */
  predicate ChainTied(w: World, k: Key, s: Stage, out: map<nat, QM.Request>, bounce: seq<uint32>)
  {
    s.Flying? ==>
      && RowOf(k) < |bounce| && s.head in out
      && out[s.head].sg == ChainFor(w, k, s.io, bounce[RowOf(k)])
      && out[s.head].outNum == OutFor(w, k, s.io, bounce[RowOf(k)])
  }

  ghost predicate ChainsTied(w: World, stage: map<Key, Stage>, out: map<nat, QM.Request>, bounce: seq<uint32>)
  {
    forall k | k in stage :: ChainTied(w, k, stage[k], out, bounce)
  }

  /** How a request must have been completed, given the answer to it and what the
      device wrote: io_Actual is the length less the residual, none on an error;
      of a bounced read the caller's pages begin with that many of the device's
      bytes, and the rest is as it was; no other completion touches them. */
  predicate DeliveryOk(w: World, io: Io, answer: Answer, wrote: seq<uint8>, e: Delivery)
  {
    var x, v := RecordFor(w, io), w.verdict(answer);
    && e.actual == Actual(v.error, v.residual, w.transfer(io).length)
    && (Bounced(x, false) && e.actual <= |wrote| ==>
          e.actual <= |e.before| && e.after == wrote[..e.actual] + e.before[e.actual..])
    && (!Bounced(x, false) ==> e.after == e.before)
  }

  ghost predicate LogTied(w: World, log: Log, r: Record)
  {
    && (forall io | io in log.given :: io in r.home)
    && (forall io | io in log.delivered ::
          io in r.home && io in log.wrote && io in r.done
          && DeliveryOk(w, io, r.done[io], log.wrote[io], log.delivered[io]))
  }

  ghost predicate RepliesTied(d: Driver, log: Log)
  {
    && (forall u | u in d.task && d.task[u].pc.Replying? :: d.task[u].pc.io in log.delivered)
    && (forall i | 0 <= i < |d.replies| :: d.replies[i].io in log.delivered)
  }

  ghost predicate StoreTied(m: Store, stage: map<Key, Stage>)
  {
    StoreOk(m) && |m.table| == MAX_UNITS * MAX_INFLIGHT && SlotsOnly(m.table, stage)
  }

  ghost predicate JointInv(w: World, j: Joint)
  {
    && Reachable(j.s)
    && StoreTied(j.m, j.s.r.stage)
    && RowsTied(w, j.s.r.stage, j.m, QM.UsedIds(j.s.d.q.used), j.log)
    && ChainsTied(w, j.s.r.stage, j.s.d.q.out, j.m.bounce)
    && LogTied(w, j.log, j.s.r)
    && RepliesTied(j.s.d, j.log)
  }
}
