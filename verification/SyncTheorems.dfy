/** The synchronous DoIO among the pipeline's harvesters. */
module SyncTheorems {
  import opened Types
  import opened Pipeline
  import opened PipelineInv
  import opened PipelineSteps
  import opened PipelineTheorems
  import QM = QueueModel

  // ---------------------------------------------------------------------
  // The cookie of a pending DoIO
  // ---------------------------------------------------------------------

  /** The five places a DoIO's cookie can be. */
  datatype Place = WithDevice | InUsedRing | InHands(holder: nat) | Stashed | Taken

  ghost predicate Located(d: Driver, u: nat, p: Place)
    requires At(d, u)
  {
    var c := CookieOf(Key(u, 0));
    match p
    case WithDevice => exists h :: h in d.q.out && d.q.out[h].cookie == c && (h in d.q.avail || h in d.q.held)
    case InUsedRing => exists h :: h in d.q.out && d.q.out[h].cookie == c && h in QM.UsedIds(d.q.used)
    case InHands(t) => t in d.task && d.task[t].pc == Hand(c)
    case Stashed => d.pending[u] == Some(c)
    case Taken => d.task[u].sync.Got?
  }

  /** While a DoIO is pending its cookie is in exactly one place, whichever task
      dequeues it; and no other unit's stash ever holds it. */
  lemma HandOff(s: State, u: nat)
    requires At(s.d, u) && !s.d.task[u].sync.NotSync? && Reachable(s)
    ensures exists p :: Located(s.d, u, p) && forall p' | Located(s.d, u, p') :: p' == p
    ensures forall v | v in s.d.pending && v != u :: s.d.pending[v] != Some(CookieOf(Key(u, 0)))
  {
    hide Inv, Reachable;
    ReachableInv(s);
    var k := Key(u, 0);
    AtTask(s, u);
    AtKey(s, k);
    AtPending(s, u);
    SyncPlace(s, k);
    forall p | Located(s.d, u, p)
      ensures p == PlaceOf(s, k)
    {
      OnlyPlace(s, k, p);
    }
    forall v | v in s.d.pending && v != u
      ensures s.d.pending[v] != Some(CookieOf(k))
    {
      AtPendingCookie(s, v);
    }
  }

  ghost function PlaceOf(s: State, k: Key): Place
    requires k in s.r.stage && IsSync(s.r.stage[k])
  {
    match s.r.stage[k]
    case SyncFlying(_, h) => if h in QM.UsedIds(s.d.q.used) then InUsedRing else WithDevice
    case SyncCarried(_, t) => InHands(t)
    case SyncPending(_) => Stashed
    case _ => Taken
  }

  lemma AtPendingCookie(s: State, v: nat)
    requires Inv(s) && v in s.d.pending
    ensures s.d.pending[v].None? || s.d.pending[v] == Some(CookieOf(Key(v, 0)))
  {}

  lemma AtHead(s: State, h: nat)
    requires Inv(s) && h in s.d.q.out
    ensures HeadOk(h, s.d.q.out[h].cookie, s.r.stage)
    ensures h in s.d.q.avail || h in s.d.q.held <==> h !in QM.UsedIds(s.d.q.used)
  {}

  lemma AtFlying(s: State, k: Key)
    requires Inv(s) && k in s.r.stage && HeadOf(s.r.stage[k]).Some?
    ensures HeadOf(s.r.stage[k]).value in s.d.q.out
    ensures s.d.q.out[HeadOf(s.r.stage[k]).value].cookie == CookieOf(k)
  {}

  lemma SyncPlace(s: State, k: Key)
    requires Inv(s) && k in s.r.stage && k.slot == 0 && IsSync(s.r.stage[k]) && At(s.d, k.unit)
    ensures Located(s.d, k.unit, PlaceOf(s, k))
  {
    hide Inv;
    AtKey(s, k);
    AtPending(s, k.unit);
    AtPendingCookie(s, k.unit);
    if s.r.stage[k].SyncFlying? {
      AtFlying(s, k);
      AtHead(s, s.r.stage[k].head);
    }
  }

  lemma OnlyPlace(s: State, k: Key, p: Place)
    requires Inv(s) && k in s.r.stage && k.slot == 0 && IsSync(s.r.stage[k]) && At(s.d, k.unit)
    requires Located(s.d, k.unit, p)
    ensures p == PlaceOf(s, k)
  {
    hide Inv;
    AtKey(s, k);
    AtPending(s, k.unit);
    match p
    case WithDevice =>
      var h :| h in s.d.q.out && s.d.q.out[h].cookie == CookieOf(k) && (h in s.d.q.avail || h in s.d.q.held);
      AtHead(s, h);
    case InUsedRing =>
      var h :| h in s.d.q.out && s.d.q.out[h].cookie == CookieOf(k) && h in QM.UsedIds(s.d.q.used);
      AtHead(s, h);
    case InHands(t) =>
      AtTask(s, t);
    case _ =>
  }

  // ---------------------------------------------------------------------
  // Slot 0
  // ---------------------------------------------------------------------

  /** Every submitted slot is found by its own cookie. */
  ghost predicate RoutesRight(d: Driver)
  {
    forall k | k in d.slots && d.slots[k].ioreq.Some? :: k in d.ids && Route(d, CookieOf(k)) == Some(k)
  }

  lemma InvRoutesRight(s: State)
    requires Inv(s)
    ensures RoutesRight(s.d)
  {
    hide Inv;
    forall k | k in s.d.slots && s.d.slots[k].ioreq.Some?
      ensures k in s.d.ids && Route(s.d, CookieOf(k)) == Some(k)
    {
      InStage(s, k);
      AtKey(s, k);
    }
  }

  /** All DoIO's start changes of what routing reads is the id in slot 0's
      request buffer. */
  lemma SyncStartEffect(d: Driver, u: nat, io: Io, sg: seq<Sg>, outNum: nat, table: Option<nat>)
    requires Enabled(d, SyncStart(u, io, sg, outNum, table))
    ensures var d' := Next(d, SyncStart(u, io, sg, outNum, table));
            && d'.slots == d.slots && d'.ids == d.ids[Key(u, 0) := SYNC_ID] && d'.units == d.units
            && d'.replies == d.replies && d'.pending == d.pending && d'.resp == d.resp[Key(u, 0) := Blank]
            && d'.free == d.free && d'.count == d.count
            && d'.task == d.task[u := Task(Ready, Waiting(io))]
            && d'.q == QM.Add(d.q, sg, outNum, CookieOf(Key(u, 0)), table)
  {}

  /** No slot but (0, 1) can answer to id 1, and that one holds its own cookie. */
  lemma SyncIdFindsNothing(s: State, d': Driver, k: Key)
    requires k in s.r.stage && k.slot == 0 && Inv(s)
    requires d'.slots == s.d.slots && k in d'.ids && d'.ids[k] == SYNC_ID
    ensures Route(d', CookieOf(k)).None?
  {
    hide Inv;
    var other := Key(0, 1);
    if other in s.d.slots {
      InStage(s, other);
      AtKey(s, other);
    }
  }

  /** Nothing in DoIO looks at slot 0 before taking over its buffers.  Routing
      survives its start exactly when the slot is not in use. */
  lemma SyncStartNeedsSlotZero(s: State, u: nat, io: Io, sg: seq<Sg>, outNum: nat, table: Option<nat>)
    requires Reachable(s) && Enabled(s.d, SyncStart(u, io, sg, outNum, table))
    ensures RoutesRight(Next(s.d, SyncStart(u, io, sg, outNum, table))) <==> SlotZeroUnused(s.d, u)
  {
    hide Inv, Reachable;
    ReachableInv(s);
    var k := Key(u, 0);
    var d' := Next(s.d, SyncStart(u, io, sg, outNum, table));
    InvRoutesRight(s);
    SyncStartEffect(s.d, u, io, sg, outNum, table);
    InStage(s, k);
    SyncIdFindsNothing(s, d', k);
    if SlotZeroUnused(s.d, u) {
      forall j | j in d'.slots && d'.slots[j].ioreq.Some?
        ensures j in d'.ids && Route(d', CookieOf(j)) == Some(j)
      {
        assert Route(s.d, CookieOf(j)) == Some(j);
      }
    }
  }

  /** Submit answers "no free slot", and the caller falls back to DoIO, only
      when slot 0 is in use: the fallback never meets DoIO's condition. */
  lemma FallbackFindsSlotZeroUsed(s: State, u: nat)
    requires At(s.d, u) && s.d.task[u] == Task(Ready, NotSync) && s.d.free[u] == [] && Reachable(s)
    ensures !SlotZeroUnused(s.d, u)
  {
    hide Reachable;
    ReachableInv(s);
    hide SlotsOk, QueueOk, PendingOk, AnswersOk, RepliesOk, HomesOk, CountsOk, LogOk, SyncLogOk;
    AtTask(s, u);
    AtKey(s, Key(u, 0));
  }

  ghost predicate Goes(d: Driver, step: Step, d': Driver) { Enabled(d, step) && d' == Next(d, step) }

  /** What then goes wrong: when the pipelined request in slot 0 is harvested,
      its completion is handed to the DoIO as the DoIO's own, though the DoIO's
      chain is still outstanding, and the slot stays occupied. */
  lemma FallbackTakesWrongCompletion(s: State, u: nat, t: nat, io: Io, sg: seq<Sg>, outNum: nat, table: Option<nat>)
    returns (d1: Driver, d2: Driver, d3: Driver)
    requires Reachable(s) && Enabled(s.d, SyncStart(u, io, sg, outNum, table)) && !SlotZeroUnused(s.d, u)
    requires t in s.d.task && t != u && s.d.task[t].pc == Hand(CookieOf(Key(u, 0)))
    ensures Goes(s.d, SyncStart(u, io, sg, outNum, table), d1)
    ensures Goes(d1, Recognise(t), d2)
    ensures Goes(d2, SyncPickup(u), d3)
    ensures d3.task[u] == Task(Ready, Got(io))
    ensures s.d.q.free[0] in d3.q.out && d3.q.out[s.d.q.free[0]].cookie == CookieOf(Key(u, 0))
    ensures d3.slots == s.d.slots && d3.replies == s.d.replies
  {
    hide Inv, Reachable;
    ReachableInv(s);
    var k := Key(u, 0);
    d1 := Next(s.d, SyncStart(u, io, sg, outNum, table));
    InStage(s, k);
    AtTask(s, t);
    AtKey(s, k);
    AllPending(s);
    SyncStartEffect(s.d, u, io, sg, outNum, table);
    SyncIdFindsNothing(s, d1, k);
    d2 := StashStep(d1, u, t);
    d3 := PickupStep(d2, u);
  }

  lemma StashStep(d: Driver, u: nat, t: nat) returns (d': Driver)
    requires At(d, t) && t != u && d.task[t].pc == Hand(CookieOf(Key(u, 0)))
    requires Key(u, 0) in d.ids && Key(u, 0) in d.resp && u in d.units && forall v | v in d.units :: v in d.pending
    requires Route(d, CookieOf(Key(u, 0))).None?
    ensures Goes(d, Recognise(t), d')
    ensures d' == d.(pending := d.pending[u := Some(CookieOf(Key(u, 0)))], task := SetPc(d, t, Ready))
  {
    d' := Next(d, Recognise(t));
  }

  lemma PickupStep(d: Driver, u: nat) returns (d': Driver)
    requires At(d, u) && d.task[u].pc.Ready? && d.task[u].sync.Waiting? && d.pending[u] == Some(CookieOf(Key(u, 0)))
    ensures Goes(d, SyncPickup(u), d')
    ensures d' == d.(pending := d.pending[u := None], task := d.task[u := Task(Ready, Got(d.task[u].sync.io))])
  {
    d' := Next(d, SyncPickup(u));
  }

  lemma AllPending(s: State)
    requires Inv(s)
    ensures s.d.pending.Keys == s.d.units == s.d.task.Keys
  {}
}
