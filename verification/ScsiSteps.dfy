/** What the steps change, field by field. */
module ScsiSteps {
  import opened Types
  import opened Pipeline
  import opened PipelineInv
  import opened PipelineTheorems
  import opened PipelineSteps
  import opened UnitState
  import QM = QueueModel

  /** One step between reachable states. */
  ghost predicate Steps(s: State, step: Step, t: State)
  {
    Reachable(s) && Allowed(s, step) && t == NextState(s, step) && Reachable(t)
  }

  lemma Take(s: State, step: Step) returns (t: State)
    requires Reachable(s) && Allowed(s, step)
    ensures Steps(s, step, t) && t == NextState(s, step)
  {
    hide NextState, Initial, Enabled;
    t := NextState(s, step);
    var run, units, num :| IsRun(run, units, num) && run[|run| - 1] == s;
    hide IsRun;
    RunStep(run, units, num, step);
    var longer := run + [t];
    assert IsRun(longer, units, num) && longer[|longer| - 1] == t;
  }

  lemma RunStep(run: seq<State>, units: set<nat>, num: nat, step: Step)
    requires IsRun(run, units, num) && Allowed(run[|run| - 1], step)
    ensures IsRun(run + [NextState(run[|run| - 1], step)], units, num)
  {
    hide NextState, Initial, Enabled;
    var n := |run| - 1;
    var longer := run + [NextState(run[n], step)];
    assert longer[n] == run[n] && Allowed(longer[n], step);
    assert longer[n + 1] == NextState(longer[n], step);
    assert Follows(longer, n);
    forall k | 0 <= k < n
      ensures Follows(longer, k)
    {
      assert Follows(run, k);
      assert longer[k] == run[k] && longer[k + 1] == run[k + 1];
    }
  }

  /** Task `u` is in its event loop and is given a new request. */
  ghost predicate Starts(s: State, u: nat, io: Io)
  {
    At(s.d, u) && s.d.task[u] == Task(Ready, NotSync) && io !in s.r.home && Reachable(s)
  }

  lemma DoPop(s: State, u: nat, io: Io) returns (t: State)
    requires Starts(s, u, io) && s.d.free[u] != []
    ensures Steps(s, Pop(u, io), t)
    ensures var k := Key(u, s.d.free[u][0]);
            && k in s.d.slots && k in s.d.ids && k in s.d.resp && k.slot < MAX_INFLIGHT
            && t.d == s.d.(free := s.d.free[u := s.d.free[u][1..]], resp := s.d.resp[k := Blank],
                           ids := s.d.ids[k := IdOf(k)], task := SetPc(s.d, u, Filling(k.slot, io)))
            && t.r.stage == s.r.stage[k := Reserved(io)]
  {
    hide Reachable, Inv;
    ReachableInv(s);
    FreeIsLegal(s, u);
    t := Take(s, Pop(u, io));
  }

  lemma FreeIsLegal(s: State, u: nat)
    requires At(s.d, u) && s.d.free[u] != [] && Inv(s)
    ensures Key(u, s.d.free[u][0]) in s.d.slots && s.d.free[u][0] < MAX_INFLIGHT
    ensures s.d.slots.Keys == s.d.ids.Keys == s.d.resp.Keys
  {
    hide SlotsOk, QueueOk, TasksOk, PendingOk, AnswersOk, RepliesOk, HomesOk, CountsOk, LogOk, SyncLogOk;
    assert s.d.free[u][0] in s.d.free[u];
  }

  /** What lies on a free list is not in the pipeline's use. */
  lemma FreeIsIdle(s: State, u: nat)
    requires At(s.d, u) && s.d.free[u] != [] && Reachable(s)
    ensures Key(u, s.d.free[u][0]) in s.r.stage && OnList(s.r.stage[Key(u, s.d.free[u][0])])
  {
    hide Reachable;
    ReachableInv(s);
    FreeIsLegal(s, u);
    AllLegal(s);
    hide Inv;
    ListSays(s, Key(u, s.d.free[u][0]));
  }

  /** Task `u` holds `slot` and has not submitted it yet. */
  ghost predicate Fills(s: State, u: nat, slot: nat)
  {
    At(s.d, u) && s.d.task[u].pc.Filling? && s.d.task[u].pc.slot == slot && Reachable(s)
  }

  lemma FillsSlot(s: State, u: nat, slot: nat)
    requires Fills(s, u, slot)
    ensures Key(u, slot) in s.d.slots && s.d.slots[Key(u, slot)] == EMPTY
    ensures slot < MAX_INFLIGHT && slot !in s.d.free[u]
  {
    hide Reachable;
    ReachableInv(s);
    hide Inv;
    AtTask(s, u);
    InStage(s, Key(u, slot));
    AtKey(s, Key(u, slot));
  }

  lemma InFilling(s: State, u: nat)
    requires At(s.d, u) && s.d.task[u].pc.Filling? && Reachable(s)
    ensures Key(u, s.d.task[u].pc.slot) in s.r.stage
    ensures s.r.stage[Key(u, s.d.task[u].pc.slot)] == Reserved(s.d.task[u].pc.io)
  {
    hide Reachable;
    ReachableInv(s);
    hide Inv;
    AtTask(s, u);
  }

  lemma DoAbandon(s: State, u: nat) returns (t: State)
    requires At(s.d, u) && s.d.task[u].pc.Filling? && Reachable(s)
    ensures Steps(s, Abandon(u), t)
    ensures var pc := s.d.task[u].pc;
            && pc.slot < MAX_INFLIGHT && pc.slot !in s.d.free[u]
            && t.d == s.d.(free := s.d.free[u := [pc.slot] + s.d.free[u]], task := SetPc(s.d, u, Ready))
            && t.r.stage == s.r.stage[Key(u, pc.slot) := Idle]
  {
    hide Reachable, Inv;
    FillsSlot(s, u, s.d.task[u].pc.slot);
    t := Take(s, Abandon(u));
  }

  lemma DoPost(s: State, u: nat, sg: seq<Sg>, outNum: nat, table: Option<nat>) returns (t: State)
    requires At(s.d, u) && s.d.task[u].pc.Filling? && QM.CanAdd(s.d.q, sg, table) && Reachable(s)
    ensures Steps(s, Post(u, sg, outNum, table), t)
    ensures var pc := s.d.task[u].pc;
            var k := Key(u, pc.slot);
            && t.d == s.d.(slots := s.d.slots[k := Slot(Some(pc.io), Some(CookieOf(k)))],
                           q := QM.Add(s.d.q, sg, outNum, CookieOf(k), table),
                           occupied := s.d.occupied + 1, count := s.d.count[u := s.d.count[u] + 1],
                           mask := s.d.mask + {u}, task := SetPc(s.d, u, Ready))
            && t.r.stage == s.r.stage[k := Flying(pc.io, s.d.q.free[0])]
  {
    hide Reachable, Inv, QM.Add, QM.CanAdd;
    FillsSlot(s, u, s.d.task[u].pc.slot);
    t := Take(s, Post(u, sg, outNum, table));
  }

  // ---------------------------------------------------------------------
  // Harvesting
  // ---------------------------------------------------------------------

  /** Task `u` may ask the used ring for a completion. */
  ghost predicate MayHarvest(s: State, u: nat)
  {
    At(s.d, u) && s.d.task[u].pc.Ready? && !s.d.task[u].sync.Got? && Reachable(s)
  }

  /** The oldest completion belongs to a buffer of the pipeline's. */
  lemma OldestIsOut(s: State)
    requires s.d.q.used != [] && Reachable(s)
    ensures var head := s.d.q.used[0].id;
            && head in s.d.q.out
            && var c := s.d.q.out[head].cookie;
               c == CookieOf(KeyOf(c)) && KeyOf(c) in s.r.stage && HeadOf(s.r.stage[KeyOf(c)]) == Some(head)
  {
    hide Reachable;
    ReachableInv(s);
    hide Domains, ListOk, SlotsOk, TasksOk, PendingOk, AnswersOk, RepliesOk, HomesOk, CountsOk, LogOk, SyncLogOk;
    QM.GetInv(s.d.q);
    var head := s.d.q.used[0].id;
    assert HeadOk(head, s.d.q.out[head].cookie, s.r.stage);
  }

  /** Whether the oldest completion is the one task `u` is waiting for. */
  predicate IsOwn(d: Driver, u: nat, c: Cookie)
    requires u in d.task
  {
    d.task[u].sync.Waiting? && c == CookieOf(Key(u, 0))
  }

  lemma OwnIsSync(s: State, u: nat)
    requires u in s.d.task && s.d.task[u].sync.Waiting? && Reachable(s)
    ensures Key(u, 0) in s.r.stage && IsSync(s.r.stage[Key(u, 0)])
  {
    hide Reachable;
    ReachableInv(s);
    hide Inv;
    AtTask(s, u);
  }

  lemma DoGetBuf(s: State, u: nat) returns (t: State)
    requires s.d.q.used != [] && MayHarvest(s, u)
    ensures Steps(s, GetBuf(u), t) && s.d.q.used[0].id in s.d.q.out
    ensures var c := s.d.q.out[s.d.q.used[0].id].cookie;
            var k := KeyOf(c);
            && c == CookieOf(k) && k in s.r.stage && k in t.r.stage
            && t.d == s.d.(q := QM.Get(s.d.q),
                           task := if IsOwn(s.d, u, c) then s.d.task[u := Task(Ready, Got(s.d.task[u].sync.io))]
                                   else SetPc(s.d, u, Hand(c)))
            && t.r.stage == s.r.stage[k := t.r.stage[k]] && HeadOf(s.r.stage[k]).Some?
            && (s.r.stage[k].Flying? && !IsOwn(s.d, u, c) ==> t.r.stage[k] == Carried(s.r.stage[k].io, u))
            && (s.r.stage[k].SyncFlying? ==> t.r.stage[k].SyncCarried? || t.r.stage[k].SyncTaken?)
            && (IsOwn(s.d, u, c) ==> s.r.stage[k].SyncFlying?)
  {
    hide Reachable, QM.Get;
    OldestIsOut(s);
    if s.d.task[u].sync.Waiting? {
      OwnIsSync(s, u);
    }
    t := Take(s, GetBuf(u));
  }

  /** Task `u` holds a cookie it has taken from the used ring. */
  ghost predicate Carries(s: State, u: nat, c: Cookie)
  {
    At(s.d, u) && s.d.task[u].pc == Hand(c) && Reachable(s)
  }

  lemma InHand(s: State, u: nat, c: Cookie)
    requires Carries(s, u, c)
    ensures var k := KeyOf(c);
            && c == CookieOf(k) && k in s.r.stage && k in s.d.slots && k in s.d.ids && k in s.d.resp && At(s.d, k.unit)
            && Fits(k) && k.unit in s.d.units
            && (forall j :: j in s.d.slots <==> Legal(s.d.units, j))
            && (forall v | v in s.d.units :: v in s.d.pending && v < MAX_UNITS)
    ensures var k := KeyOf(c);
            if Route(s.d, c).Some?
            then && Route(s.d, c) == Some(k) && s.r.stage[k].Carried?
                 && s.d.slots[k] == Slot(Some(s.r.stage[k].io), Some(c))
            else SyncOwner(s.d, c) == Some(k.unit) && k.slot == 0 && IsSync(s.r.stage[k])
  {
    hide Reachable;
    ReachableInv(s);
    var k := KeyOf(c);
    AllLegal(s);
    hide Inv;
    AtTask(s, u);
    AtKey(s, k);
    RouteIsRight(s, k);
  }

  lemma AllLegal(s: State)
    requires Inv(s)
    ensures forall j :: j in s.d.slots <==> Legal(s.d.units, j)
    ensures forall v | v in s.d.units :: v in s.d.pending && v < MAX_UNITS
    ensures s.d.slots.Keys == s.d.ids.Keys == s.d.resp.Keys == s.r.stage.Keys
  {}

  lemma DoRecognise(s: State, u: nat, c: Cookie) returns (t: State)
    requires Carries(s, u, c)
    ensures Steps(s, Recognise(u), t)
    ensures KeyOf(c) in s.r.stage && KeyOf(c) in s.d.slots && KeyOf(c) in s.d.resp && KeyOf(c) in s.d.ids
    ensures var k := KeyOf(c);
            if Route(s.d, c).Some?
            then && s.d.slots[k].ioreq.Some? && s.r.stage[k].Carried?
                 && t.d == s.d.(task := SetPc(s.d, u, Closing(k, s.d.slots[k].ioreq.value, s.d.resp[k])))
                 && t.r.stage == s.r.stage[k := Closed(s.r.stage[k].io, u)]
            else && IsSync(s.r.stage[k])
                 && t.d == s.d.(pending := s.d.pending[k.unit := Some(c)], task := SetPc(s.d, u, Ready))
                 && t.r.stage == s.r.stage[k := SyncPending(s.r.stage[k].io)]
  {
    hide Reachable;
    InHand(s, u, c);
    t := Take(s, Recognise(u));
    hide *;
  }

  /** Task `u` is about to close a slot. */
  ghost predicate Closes(s: State, u: nat, k: Key)
  {
    At(s.d, u) && s.d.task[u].pc.Closing? && s.d.task[u].pc.key == k && Reachable(s)
  }

  lemma ClosingSlot(s: State, u: nat, k: Key)
    requires Closes(s, u, k)
    ensures k in s.r.stage && k in s.d.slots && At(s.d, k.unit) && Fits(k) && k.slot !in s.d.free[k.unit]
    ensures s.r.stage[k] == Closed(s.d.task[u].pc.io, u) && s.d.slots[k].ioreq == Some(s.d.task[u].pc.io)
  {
    hide Reachable;
    ReachableInv(s);
    hide Inv;
    AtTask(s, u);
    AtKey(s, k);
    ListSays(s, k);
  }

  /** The answer the task goes by is the one in the slot's response buffer. */
  lemma ClosingAnswer(s: State, u: nat, k: Key)
    requires Closes(s, u, k)
    ensures k in s.d.resp && s.d.resp[k] == s.d.task[u].pc.answer
  {
    hide Reachable;
    ClosingSlot(s, u, k);
    ReachableInv(s);
    hide Inv;
    AtTask(s, u);
    AtKey(s, k);
  }

  lemma ListSays(s: State, k: Key)
    requires Inv(s) && k in s.r.stage
    ensures k.unit in s.d.free && (k.slot in s.d.free[k.unit] <==> OnList(s.r.stage[k]))
  {}

  lemma DoClose(s: State, u: nat, k: Key) returns (t: State)
    requires Closes(s, u, k)
    ensures Steps(s, Close(u), t) && k in s.d.slots && At(s.d, k.unit)
    ensures t.d == CloseSlot(s.d, k).(task := SetPc(s.d, u, Replying(s.d.task[u].pc.io, s.d.task[u].pc.answer)))
    ensures t.r.stage == s.r.stage[k := Idle]
  {
    hide Reachable;
    ClosingSlot(s, u, k);
    t := Take(s, Close(u));
  }

  lemma DoReply(s: State, u: nat) returns (t: State)
    requires At(s.d, u) && s.d.task[u].pc.Replying? && Reachable(s)
    ensures Steps(s, SendReply(u), t)
    ensures var pc := s.d.task[u].pc;
            && t.d == s.d.(replies := s.d.replies + [Reply(pc.io, pc.answer)], task := SetPc(s.d, u, Ready))
            && t.r.stage == s.r.stage
  {
    hide Reachable;
    t := Take(s, SendReply(u));
  }

  /** Both steps of a completion, once its slot is known. */
  lemma CloseAndReply(s: State, u: nat, k: Key) returns (mid: State, t: State)
    requires Closes(s, u, k)
    ensures Steps(s, Close(u), mid) && Steps(mid, SendReply(u), t) && k in s.d.slots && At(s.d, k.unit)
    ensures var pc := s.d.task[u].pc;
            t.d == CloseSlot(s.d, k).(task := SetPc(s.d, u, Ready), replies := s.d.replies + [Reply(pc.io, pc.answer)])
  {
    hide Reachable;
    mid := DoClose(s, u, k);
    hide CloseSlot;
    t := DoReply(mid, u);
  }

  // ---------------------------------------------------------------------
  // One turn of the harvest loop
  // ---------------------------------------------------------------------

  ghost predicate HasOldest(d: Driver)
  {
    d.q.used != [] && d.q.used[0].id in d.q.out && HasBuffer(d, d.q.out[d.q.used[0].id].cookie)
  }

  function OldestCookie(d: Driver): Cookie
    requires HasOldest(d)
  {
    d.q.out[d.q.used[0].id].cookie
  }

  ghost predicate HasBuffer(d: Driver, c: Cookie)
  {
    var k := KeyOf(c);
    k in d.ids && k in d.resp && k in d.slots && At(d, k.unit)
  }

  /** A cookie dealt with: a submitted slot's request is answered and the slot
      freed, a DoIO's cookie is left with its unit. */
  ghost function Settled(d: Driver, c: Cookie): Driver
    requires HasBuffer(d, c)
  {
    var k := KeyOf(c);
    if Holds(d, k, c) && Route(d, c).Some?
    then CloseSlot(d, k).(replies := d.replies + [Reply(d.slots[k].ioreq.value, d.resp[k])])
    else d.(pending := d.pending[k.unit := Some(c)])
  }

  lemma SettledKeeps(d: Driver, c: Cookie)
    requires HasBuffer(d, c)
    ensures var e := Settled(d, c);
            && e.q == d.q && e.task == d.task && e.units == d.units && e.ids == d.ids && e.resp == d.resp
            && e.slots.Keys == d.slots.Keys
            && (forall u | At(d, u) :: At(e, u))
            && (forall j | j != KeyOf(c) && j in d.slots :: e.slots[j] == d.slots[j])
  {
    hide Down, MaskAfter;
  }

  /** One turn of the loop deals with the oldest completion. */
  ghost function OneTurn(d: Driver): Driver
    requires HasOldest(d)
  {
    Settled(d.(q := QM.Get(d.q)), OldestCookie(d))
  }

  lemma OldestExists(s: State)
    requires s.d.q.used != [] && Reachable(s)
    ensures HasOldest(s.d)
  {
    hide Reachable;
    OldestIsOut(s);
    ReachableInv(s);
    AllLegal(s);
    hide Inv;
    AtKey(s, KeyOf(s.d.q.out[s.d.q.used[0].id].cookie));
  }

  /** The sections after GetBuf, taken together. */
  lemma StashSettles(s: State, t: State, u: nat, c: Cookie)
    requires HasBuffer(s.d, c) && At(s.d, u) && s.d.task[u].pc.Hand? && Route(s.d, c).None?
    requires t.d == s.d.(pending := s.d.pending[KeyOf(c).unit := Some(c)], task := SetPc(s.d, u, Ready))
    ensures t.d == Settled(s.d, c).(task := SetPc(s.d, u, Ready))
  {}

  lemma CloseSettles(s: State, t1: State, t: State, u: nat, c: Cookie)
    requires HasBuffer(s.d, c) && At(s.d, u) && Route(s.d, c) == Some(KeyOf(c)) && s.d.slots[KeyOf(c)].ioreq.Some?
    requires var k := KeyOf(c);
             var pc := Closing(k, s.d.slots[k].ioreq.value, s.d.resp[k]);
             && t1.d == s.d.(task := SetPc(s.d, u, pc))
             && t.d == CloseSlot(t1.d, k).(task := SetPc(t1.d, u, Ready),
                                           replies := t1.d.replies + [Reply(pc.io, pc.answer)])
    ensures t.d == Settled(s.d, c).(task := SetPc(s.d, u, Ready))
  {
    hide Down, MaskAfter;
    assert Holds(s.d, KeyOf(c), c);
    assert SetPc(t1.d, u, Ready) == SetPc(s.d, u, Ready);
  }

  lemma TurnIs(s: State, t1: State, t: State, u: nat)
    requires HasOldest(s.d) && At(s.d, u) && s.d.task[u].pc.Ready?
    requires t1.d == s.d.(q := QM.Get(s.d.q), task := SetPc(s.d, u, Hand(OldestCookie(s.d))))
    requires t.d == Settled(t1.d, OldestCookie(s.d)).(task := SetPc(t1.d, u, Ready))
    ensures t.d == OneTurn(s.d)
  {
    hide QM.Get, Down, MaskAfter;
    assert SetPc(t1.d, u, Ready) == s.d.task;
  }

  // ---------------------------------------------------------------------
  // What a whole harvest answers
  // ---------------------------------------------------------------------

  /** The reply a cookie's completion calls for: none for a DoIO's. */
  ghost function ReplyFor(d: Driver, c: Cookie): seq<Reply>
  {
    var k := KeyOf(c);
    if HasBuffer(d, c) && Holds(d, k, c) && Route(d, c).Some? then [Reply(d.slots[k].ioreq.value, d.resp[k])] else []
  }

  /** The replies the completions `used` call for, in their order. */
  ghost function RepliesFor(d: Driver, used: seq<QM.Used>): seq<Reply>
  {
    if used == [] then []
    else (if used[0].id in d.q.out then ReplyFor(d, d.q.out[used[0].id].cookie) else []) + RepliesFor(d, used[1..])
  }

  lemma NoReplies(d: Driver)
    ensures RepliesFor(d, []) == []
  {}

  lemma SettledReplies(d: Driver, c: Cookie)
    requires HasBuffer(d, c)
    ensures Settled(d, c).replies == d.replies + ReplyFor(d, c)
  {
    hide Down, MaskAfter;
  }

  /** Dealing with one cookie does not change what another calls for. */
  lemma ReplyForKept(d: Driver, c: Cookie, c': Cookie)
    requires HasBuffer(d, c) && c == CookieOf(KeyOf(c)) && c' == CookieOf(KeyOf(c')) && c' != c
    requires d.slots[KeyOf(c)].cookie.None? || d.slots[KeyOf(c)].cookie == Some(c)
    ensures ReplyFor(Settled(d, c), c') == ReplyFor(d, c')
  {
    SettledKeeps(d, c);
    var e := Settled(d, c);
    assert e.slots[KeyOf(c)].cookie.None? || e.slots[KeyOf(c)] == d.slots[KeyOf(c)];
    assert forall u | At(e, u) :: At(d, u);
    assert KeyOf(c') != KeyOf(c);
    hide Settled;
  }

  lemma TurnReplies(s: State)
    requires s.d.q.used != [] && Reachable(s)
    ensures HasOldest(s.d)
    ensures var t := OneTurn(s.d);
            && t.q.used == s.d.q.used[1..]
            && t.replies + RepliesFor(t, t.q.used) == s.d.replies + RepliesFor(s.d, s.d.q.used)
  {
    hide Reachable;
    OldestExists(s);
    TurnAdds(s.d);
    hide OneTurn, ReplyFor, HasBuffer;
    var rest := s.d.q.used[1..];
    forall i | 0 <= i < |rest|
      ensures SameReply(s.d, OneTurn(s.d), rest[i].id)
    {
      LaterReply(s, i + 1);
    }
    RepliesKept(s.d, OneTurn(s.d), rest);
  }

  lemma TurnAdds(d: Driver)
    requires HasOldest(d)
    ensures OneTurn(d).q.used == d.q.used[1..] && OneTurn(d).replies == d.replies + ReplyFor(d, OldestCookie(d))
  {
    var c, e := OldestCookie(d), d.(q := QM.Get(d.q));
    SettledReplies(e, c);
    SettledKeeps(e, c);
    hide Settled;
    assert ReplyFor(e, c) == ReplyFor(d, c);
  }

  lemma LaterReply(s: State, i: nat)
    requires HasOldest(s.d) && 1 <= i < |s.d.q.used| && Reachable(s)
    ensures SameReply(s.d, OneTurn(s.d), s.d.q.used[i].id)
  {
    hide Reachable, Settled;
    var c := OldestCookie(s.d);
    var e := s.d.(q := QM.Get(s.d.q));
    LaterCookie(s, i);
    OldestSlot(s);
    SettledKeeps(e, c);
    ReplyForKept(e, c, s.d.q.out[s.d.q.used[i].id].cookie);
  }

  lemma OldestSlot(s: State)
    requires HasOldest(s.d) && Reachable(s)
    ensures var c := OldestCookie(s.d);
            c == CookieOf(KeyOf(c)) && (s.d.slots[KeyOf(c)].cookie.None? || s.d.slots[KeyOf(c)].cookie == Some(c))
  {
    hide Reachable;
    OldestIsOut(s);
    ReachableInv(s);
    hide Inv;
    AtKey(s, KeyOf(OldestCookie(s.d)));
  }

  /** The completions behind the oldest carry other cookies. */
  lemma LaterCookie(s: State, i: nat)
    requires HasOldest(s.d) && 1 <= i < |s.d.q.used| && Reachable(s)
    ensures var id := s.d.q.used[i].id;
            && id in s.d.q.out && id != s.d.q.used[0].id
            && s.d.q.out[id].cookie != OldestCookie(s.d)
            && s.d.q.out[id].cookie == CookieOf(KeyOf(s.d.q.out[id].cookie))
  {
    hide Reachable;
    ReachableInv(s);
    UsedHead(s, i);
    HeadsInv(s);
  }

  lemma UsedHead(s: State, i: nat)
    requires 1 <= i < |s.d.q.used| && Inv(s)
    ensures s.d.q.used[i].id in s.d.q.out && s.d.q.used[i].id != s.d.q.used[0].id
  {
    hide Domains, ListOk, SlotsOk, TasksOk, PendingOk, AnswersOk, RepliesOk, HomesOk, CountsOk, LogOk, SyncLogOk;
    var ids := QM.UsedIds(s.d.q.used);
    assert QM.Phased(s.d.q) && ids[i] in ids;
    assert ids[0] != ids[i];
  }

  lemma {:induction false} RepliesKept(d: Driver, e: Driver, used: seq<QM.Used>)
    requires forall i | 0 <= i < |used| :: SameReply(d, e, used[i].id)
    ensures RepliesFor(d, used) == RepliesFor(e, used)
  {
    if used != [] {
      assert SameReply(d, e, used[0].id);
      forall i | 0 <= i < |used[1..]|
        ensures SameReply(d, e, used[1..][i].id)
      {
        assert SameReply(d, e, used[i + 1].id);
      }
      RepliesKept(d, e, used[1..]);
    }
  }

  ghost predicate SameReply(d: Driver, e: Driver, id: nat)
  {
    && id in d.q.out && id in e.q.out && d.q.out[id].cookie == e.q.out[id].cookie
    && ReplyFor(d, d.q.out[id].cookie) == ReplyFor(e, d.q.out[id].cookie)
  }

  // ---------------------------------------------------------------------
  // What a DoIO finds in the used ring
  // ---------------------------------------------------------------------

  /** The completion task `u` waits for is among `used`. */
  ghost predicate OwnAmong(d: Driver, used: seq<QM.Used>, u: nat)
  {
    exists i :: 0 <= i < |used| && IsOwnId(d, used[i].id, u)
  }

  predicate IsOwnId(d: Driver, id: nat, u: nat) { id in d.q.out && d.q.out[id].cookie == CookieOf(Key(u, 0)) }

  lemma NoneOwn(d: Driver, u: nat)
    ensures d.q.used == [] ==> !OwnAmong(d, d.q.used, u)
  {}

  lemma TurnOwn(s: State, u: nat)
    requires At(s.d, u) && s.d.task[u].sync.Waiting? && Reachable(s)
    ensures s.d.q.used != [] ==>
      && HasOldest(s.d) && OneTurn(s.d).q.used == s.d.q.used[1..]
      && (IsOwn(s.d, u, OldestCookie(s.d)) ==> OwnAmong(s.d, s.d.q.used, u))
      && (!IsOwn(s.d, u, OldestCookie(s.d)) ==>
            OwnAmong(OneTurn(s.d), OneTurn(s.d).q.used, u) == OwnAmong(s.d, s.d.q.used, u))
  {
    if s.d.q.used != [] {
      hide Reachable, OneTurn;
      OldestExists(s);
      TurnAdds(s.d);
      var d, t, used := s.d, OneTurn(s.d), s.d.q.used;
      assert IsOwnId(d, used[0].id, u) <==> IsOwn(d, u, OldestCookie(d));
      forall i | 1 <= i < |used|
        ensures IsOwnId(t, used[1..][i - 1].id, u) == IsOwnId(d, used[i].id, u)
      {
        LaterReply(s, i);
      }
      assert forall i | 0 <= i < |used| - 1 :: used[1..][i] == used[i + 1];
    }
  }

  // ---------------------------------------------------------------------
  // DoIO
  // ---------------------------------------------------------------------

  /** Task `u` may start a DoIO: slot 0 is not in the pipeline's use. */
  ghost predicate MayStartSync(s: State, u: nat)
  {
    At(s.d, u) && s.d.task[u].pc.Ready? && !s.d.task[u].sync.Waiting? && SlotZeroUnused(s.d, u) && Reachable(s)
  }

  lemma DoSyncStart(s: State, u: nat, io: Io, sg: seq<Sg>, outNum: nat, table: Option<nat>) returns (t: State)
    requires io !in s.r.home && QM.CanAdd(s.d.q, sg, table) && MayStartSync(s, u)
    ensures Steps(s, SyncStart(u, io, sg, outNum, table), t)
    ensures var k := Key(u, 0);
            t.d == s.d.(resp := s.d.resp[k := Blank], ids := s.d.ids[k := SYNC_ID],
                        q := QM.Add(s.d.q, sg, outNum, CookieOf(k), table), mask := s.d.mask + {u},
                        task := s.d.task[u := Task(Ready, Waiting(io))])
  {
    hide Reachable, QM.Add, QM.CanAdd;
    t := Take(s, SyncStart(u, io, sg, outNum, table));
  }

  lemma DoSyncFail(s: State, u: nat) returns (t: State)
    requires MayStartSync(s, u)
    ensures Steps(s, SyncFail(u), t)
    ensures var k := Key(u, 0);
            t.d == s.d.(resp := s.d.resp[k := Blank], ids := s.d.ids[k := SYNC_ID],
                        mask := if s.d.count[u] == 0 then s.d.mask - {u} else s.d.mask,
                        task := s.d.task[u := Task(Ready, NotSync)])
  {
    hide Reachable;
    t := Take(s, SyncFail(u));
  }

  function AddIf(ok: bool, q: QM.Queue, sg: seq<Sg>, outNum: nat, cookie: Cookie, table: Option<nat>): QM.Queue
    requires ok ==> QM.CanAdd(q, sg, table)
  {
    if ok then QM.Add(q, sg, outNum, cookie, table) else q
  }

  function MarkIf(ok: bool, mask: set<nat>, count: nat, u: nat): set<nat>
  {
    if ok then mask + {u} else if count == 0 then mask - {u} else mask
  }

  lemma DoSyncSection(s: State, u: nat, io: Io, ok: bool, sg: seq<Sg>, outNum: nat, table: Option<nat>)
    returns (t: State)
    requires io !in s.r.home && ok == QM.CanAdd(s.d.q, sg, table) && MayStartSync(s, u)
    ensures Steps(s, if ok then SyncStart(u, io, sg, outNum, table) else SyncFail(u), t)
    ensures var k := Key(u, 0);
            t.d == s.d.(resp := s.d.resp[k := Blank], ids := s.d.ids[k := SYNC_ID],
                        q := AddIf(ok, s.d.q, sg, outNum, CookieOf(k), table),
                        mask := MarkIf(ok, s.d.mask, s.d.count[u], u),
                        task := s.d.task[u := Task(Ready, if ok then Waiting(io) else NotSync)])
  {
    hide Reachable, Steps, QM.Add, QM.CanAdd;
    if ok {
      t := DoSyncStart(s, u, io, sg, outNum, table);
    } else {
      t := DoSyncFail(s, u);
    }
  }

  lemma SlotZeroHere(s: State, u: nat)
    requires MayStartSync(s, u)
    ensures var k := Key(u, 0); k in s.d.slots && k in s.d.ids && k in s.d.resp
  {
    hide Reachable;
    ReachableInv(s);
    AllLegal(s);
  }

  lemma DoSyncPickup(s: State, u: nat) returns (t: State)
    requires MayHarvest(s, u) && s.d.task[u].sync.Waiting? && s.d.pending[u] == Some(CookieOf(Key(u, 0)))
    ensures Steps(s, SyncPickup(u), t)
    ensures t.d == s.d.(pending := s.d.pending[u := None], task := s.d.task[u := Task(Ready, Got(s.d.task[u].sync.io))])
  {
    hide Reachable;
    t := Take(s, SyncPickup(u));
  }

  /** Task `u` has its completion back. */
  ghost predicate HasResult(s: State, u: nat)
  {
    At(s.d, u) && s.d.task[u].pc.Ready? && s.d.task[u].sync.Got? && Reachable(s)
  }

  lemma SlotZeroAnswer(s: State, u: nat)
    requires u in s.d.task && Reachable(s)
    ensures Key(u, 0) in s.d.resp
  {
    hide Reachable;
    ReachableInv(s);
    hide Inv;
    AtTask(s, u);
    AtKey(s, Key(u, 0));
  }

  lemma DoSyncFinish(s: State, u: nat) returns (t: State)
    requires HasResult(s, u)
    ensures Steps(s, SyncFinish(u), t) && Key(u, 0) in s.d.resp
    ensures t.d == s.d.(answers := s.d.answers + [Reply(s.d.task[u].sync.io, s.d.resp[Key(u, 0)])],
                        mask := if s.d.count[u] == 0 then s.d.mask - {u} else s.d.mask,
                        task := s.d.task[u := Task(Ready, NotSync)])
  {
    hide Reachable;
    SlotZeroAnswer(s, u);
    t := Take(s, SyncFinish(u));
  }

  // ---------------------------------------------------------------------
  // The device
  // ---------------------------------------------------------------------

  lemma DoTake(s: State) returns (t: State)
    requires s.d.q.avail != [] && Reachable(s)
    ensures Steps(s, DeviceTake, t) && t.d == s.d.(q := QM.Take(s.d.q))
  {
    hide Reachable;
    t := Take(s, DeviceTake);
  }

  lemma HeldIsOut(s: State, head: nat)
    requires head in s.d.q.held && Reachable(s)
    ensures head in s.d.q.out && KeyOf(s.d.q.out[head].cookie) in s.d.resp
  {
    hide Reachable;
    ReachableInv(s);
    HeadsInv(s);
    AllLegal(s);
    hide Domains, ListOk, SlotsOk, TasksOk, PendingOk, AnswersOk, RepliesOk, HomesOk, CountsOk, LogOk, SyncLogOk;
    assert QM.Phased(s.d.q);
  }

  lemma DoComplete(s: State, head: nat, len: uint32, value: nat) returns (t: State)
    requires head in s.d.q.held && Reachable(s)
    ensures Steps(s, DeviceComplete(head, len, value), t)
    ensures head in s.d.q.out && KeyOf(s.d.q.out[head].cookie) in s.d.resp
    ensures t.d == s.d.(q := QM.Complete(s.d.q, head, len),
                        resp := s.d.resp[KeyOf(s.d.q.out[head].cookie) := Answer(value)])
  {
    hide Reachable, QM.Complete;
    HeldIsOut(s, head);
    t := Take(s, DeviceComplete(head, len, value));
  }
}
