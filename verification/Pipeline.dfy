/** The in-flight request pipeline of src/virtio/virtio_scsi_io.c: up to eight
    unit tasks and a device sharing one request queue, as a transition system.
    A step is one lock section, one stretch between two lock sections that
    touches only what its task owns, or one move of the device. */
module Pipeline {
  import opened Types
  import QM = QueueModel

  /** A slot of a unit: it names the inflight[] entry and the request and
      response buffers alike. */
  datatype Key = Key(unit: nat, slot: nat)

  /** A request, told apart from every other ever submitted. */
  type Io = nat

  /** Contents of a response buffer. */
  datatype Answer = Blank | Answer(value: nat)

  datatype Slot = Slot(ioreq: Option<Io>, cookie: Option<Cookie>)

  const EMPTY := Slot(None, None)

  /** What a unit task is in the middle of.  `Hand` holds a cookie GetBuf has
      returned; `Closing` is inside complete_inflight_slot before its lock
      section, `Replying` after it. */
  datatype Pc =
    | Ready
    | Filling(slot: nat, io: Io)
    | Hand(cookie: Cookie)
    | Closing(key: Key, io: Io, answer: Answer)
    | Replying(io: Io, answer: Answer)

  /** Whether the task is inside a synchronous DoIO, and has its cookie. */
  datatype Sync = NotSync | Waiting(io: Io) | Got(io: Io)

  datatype Task = Task(pc: Pc, sync: Sync)

  datatype Reply = Reply(io: Io, answer: Answer)

  /** The driver's state, and the log of what it has answered. */
  datatype Driver = Driver(
    units: set<nat>,
    q: QM.Queue,
    free: map<nat, seq<nat>>,           // free_head / inflight_next[], in list order
    slots: map<Key, Slot>,              // inflight[].ioreq and .cookie
    ids: map<Key, nat>,                 // req_bufs[]->id
    resp: map<Key, Answer>,             // resp_bufs[]
    count: map<nat, nat>,               // inflight_count
    occupied: nat,                      // occupied_count
    mask: set<nat>,                     // active_units_mask
    pending: map<nat, Option<Cookie>>,  // doio_pending_cookie
    task: map<nat, Task>,
    replies: seq<Reply>,                // ReplyMsg of pipeline requests
    answers: seq<Reply>)                // results DoIO read

  ghost function Everywhere<K, V>(keys: set<K>, v: V): (m: map<K, V>)
    ensures m.Keys == keys && forall k | k in keys :: m[k] == v
  {
    map k | k in keys :: v
  }

  function CookieOf(k: Key): Cookie { RequestBuffer(k.unit, k.slot) }

  function KeyOf(c: Cookie): Key { if c.RequestBuffer? then Key(c.unit, c.slot) else Key(MAX_UNITS, 0) }

  /** The id Submit writes; DoIO always writes 1. */
  function IdOf(k: Key): nat { k.unit * 0x1_0000 + k.slot }

  const SYNC_ID: nat := 1

  // ---------------------------------------------------------------------
  // Routing
  // ---------------------------------------------------------------------

  predicate Holds(d: Driver, k: Key, c: Cookie)
  {
    k in d.slots && d.slots[k].cookie == Some(c) && d.slots[k].ioreq.Some?
  }

  /** The constant-time decode: the buffer's id names a unit and a slot, and
      the slot must hold this very cookie. */
  function Route(d: Driver, c: Cookie): Option<Key>
    requires KeyOf(c) in d.ids
  {
    var id := d.ids[KeyOf(c)];
    var k := Key(id / 0x1_0000, id % 0x1_0000);
    if k.slot < MAX_INFLIGHT && k.unit < MAX_UNITS && Holds(d, k, c) then Some(k) else None
  }

  /** The unit whose synchronous request buffer this is. */
  function SyncOwner(d: Driver, c: Cookie): Option<nat>
  {
    if c.RequestBuffer? && c.slot == 0 && c.unit in d.units then Some(c.unit) else None
  }

  // ---------------------------------------------------------------------
  // Steps
  // ---------------------------------------------------------------------

  datatype Step =
    | Pop(u: nat, io: Io)
    | Abandon(u: nat)
    | Post(u: nat, sg: seq<Sg>, outNum: nat, table: Option<nat>)
    | DeviceTake
    | DeviceComplete(head: nat, len: uint32, value: nat)
    | GetBuf(u: nat)
    | Recognise(u: nat)
    | Close(u: nat)
    | SendReply(u: nat)
    | SyncStart(u: nat, io: Io, sg: seq<Sg>, outNum: nat, table: Option<nat>)
    | SyncFail(u: nat)
    | SyncPickup(u: nat)
    | SyncFinish(u: nat)

  predicate At(d: Driver, u: nat) { u in d.units && u in d.task && u in d.free && u in d.count && u in d.pending }

  /** When the code can take a step; freshness of `io` is the caller's duty and
      is asked for where runs are defined. */
  predicate Enabled(d: Driver, s: Step)
  {
    match s
    case Pop(u, _) =>
      At(d, u) && d.task[u] == Task(Ready, NotSync) && d.free[u] != [] && Key(u, d.free[u][0]) in d.slots
    case Abandon(u) =>
      At(d, u) && d.task[u].pc.Filling?
    case Post(u, sg, _, table) =>
      At(d, u) && d.task[u].pc.Filling? && Key(u, d.task[u].pc.slot) in d.slots && QM.CanAdd(d.q, sg, table)
    case DeviceTake =>
      d.q.avail != []
    case DeviceComplete(head, _, _) =>
      head in d.q.held && head in d.q.out && KeyOf(d.q.out[head].cookie) in d.resp
    case GetBuf(u) =>
      At(d, u) && d.task[u].pc.Ready? && !d.task[u].sync.Got? && d.q.used != [] && d.q.used[0].id in d.q.out
    case Recognise(u) =>
      At(d, u) && d.task[u].pc.Hand? && KeyOf(d.task[u].pc.cookie) in d.ids && KeyOf(d.task[u].pc.cookie) in d.resp
      && forall v | v in d.units :: v in d.pending
    case Close(u) =>
      At(d, u) && d.task[u].pc.Closing? && d.task[u].pc.key in d.slots && At(d, d.task[u].pc.key.unit)
    case SendReply(u) =>
      At(d, u) && d.task[u].pc.Replying?
    case SyncStart(u, _, sg, _, table) =>
      // a call, or its retry after CHECK CONDITION
      At(d, u) && d.task[u].pc.Ready? && !d.task[u].sync.Waiting? && Key(u, 0) in d.slots && QM.CanAdd(d.q, sg, table)
    case SyncFail(u) =>
      At(d, u) && d.task[u].pc.Ready? && !d.task[u].sync.Waiting? && Key(u, 0) in d.slots
    case SyncPickup(u) =>
      At(d, u) && d.task[u].pc.Ready? && d.task[u].sync.Waiting? && d.pending[u] == Some(CookieOf(Key(u, 0)))
    case SyncFinish(u) =>
      At(d, u) && d.task[u].pc.Ready? && d.task[u].sync.Got? && Key(u, 0) in d.resp
  }

  function SetPc(d: Driver, u: nat, pc: Pc): map<nat, Task>
    requires u in d.task
  {
    d.task[u := d.task[u].(pc := pc)]
  }

  /** complete_inflight_slot's lock section: push the slot, uncount it, and drop
      the mask bit with the last one.  The guards are the code's own. */
  function CloseSlot(d: Driver, k: Key): Driver
    requires k in d.slots && At(d, k.unit)
  {
    var u := k.unit;
    d.(slots := d.slots[k := EMPTY],
       free := d.free[u := [k.slot] + d.free[u]],
       occupied := Down(d.occupied),
       count := d.count[u := Down(d.count[u])],
       mask := MaskAfter(d.mask, d.count[u], u))
  }

  function Down(n: nat): nat { if n > 0 then n - 1 else 0 }

  function MaskAfter(mask: set<nat>, count: nat, u: nat): set<nat>
  {
    if count > 0 && Down(count) == 0 then mask - {u} else mask
  }

  function Next(d: Driver, s: Step): Driver
    requires Enabled(d, s)
  {
    match s
    case Pop(u, io) =>
      // take the first free slot; blank its response, write its id
      var k := Key(u, d.free[u][0]);
      d.(free := d.free[u := d.free[u][1..]],
         resp := d.resp[k := Blank],
         ids := d.ids[k := IdOf(k)],
         task := SetPc(d, u, Filling(k.slot, io)))
    case Abandon(u) =>
      // every failure of Submit, AddBuf's included: the slot goes back
      d.(free := d.free[u := [d.task[u].pc.slot] + d.free[u]],
         task := SetPc(d, u, Ready))
    case Post(u, sg, outNum, table) =>
      var k, io := Key(u, d.task[u].pc.slot), d.task[u].pc.io;
      d.(slots := d.slots[k := Slot(Some(io), Some(CookieOf(k)))],
         q := QM.Add(d.q, sg, outNum, CookieOf(k), table),
         occupied := d.occupied + 1,
         count := d.count[u := d.count[u] + 1],
         mask := d.mask + {u},
         task := SetPc(d, u, Ready))
    case DeviceTake =>
      d.(q := QM.Take(d.q))
    case DeviceComplete(head, len, value) =>
      d.(q := QM.Complete(d.q, head, len),
         resp := d.resp[KeyOf(d.q.out[head].cookie) := Answer(value)])
    case GetBuf(u) =>
      var c := d.q.out[d.q.used[0].id].cookie;
      var d' := d.(q := QM.Get(d.q));
      if d.task[u].sync.Waiting? && c == CookieOf(Key(u, 0)) then
        d'.(task := d.task[u := Task(Ready, Got(d.task[u].sync.io))])
      else
        d'.(task := SetPc(d, u, Hand(c)))
    case Recognise(u) =>
      var c := d.task[u].pc.cookie;
      var k := Route(d, c);
      if k.Some? then
        d.(task := SetPc(d, u, Closing(k.value, d.slots[k.value].ioreq.value, d.resp[KeyOf(c)])))
      else
        var v := SyncOwner(d, c);
        d.(pending := if v.Some? then d.pending[v.value := Some(c)] else d.pending,
           task := SetPc(d, u, Ready))
    case Close(u) =>
      var pc := d.task[u].pc;
      CloseSlot(d, pc.key).(task := SetPc(d, u, Replying(pc.io, pc.answer)))
    case SendReply(u) =>
      var pc := d.task[u].pc;
      d.(replies := d.replies + [Reply(pc.io, pc.answer)], task := SetPc(d, u, Ready))
    case SyncStart(u, io, sg, outNum, table) =>
      // nothing here looks at inflight[0], which owns the same buffers
      var k := Key(u, 0);
      d.(resp := d.resp[k := Blank],
         ids := d.ids[k := SYNC_ID],
         q := QM.Add(d.q, sg, outNum, CookieOf(k), table),
         mask := d.mask + {u},
         task := d.task[u := Task(Ready, Waiting(io))])
    case SyncFail(u) =>
      // AddBuf would not have the chain
      d.(resp := d.resp[Key(u, 0) := Blank],
         ids := d.ids[Key(u, 0) := SYNC_ID],
         mask := if d.count[u] == 0 then d.mask - {u} else d.mask,
         task := d.task[u := Task(Ready, NotSync)])
    case SyncPickup(u) =>
      d.(pending := d.pending[u := None],
         task := d.task[u := Task(Ready, Got(d.task[u].sync.io))])
    case SyncFinish(u) =>
      d.(answers := d.answers + [Reply(d.task[u].sync.io, d.resp[Key(u, 0)])],
         mask := if d.count[u] == 0 then d.mask - {u} else d.mask,
         task := d.task[u := Task(Ready, NotSync)])
  }
}
