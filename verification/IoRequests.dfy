/** Who owns an IORequest, from BeginIO to its reply (src/BeginIO.c and the event
    loop, dispatch and drains of src/unit_task.c). */
module IoRequests {
  import opened Types
  import Ledger
  import DP = DataPath

  type SlotData = DP.SlotData

  type Io = nat

  datatype Command =
    | AddChangeInt | Remove | RemChangeInt
    | Stop | Start | Motor
    | Seek | Eject | Seek64 | EtdMotor | EtdSeek | Clear | EtdClear
    | ChangeNum | ChangeState | ProtStatus | GetDriveType | DeviceQuery
    | Read | EtdRead | Write | Format | EtdFormat | EtdWrite
    | Update | Flush | EtdUpdate | ScsiCmd | GetGeometry | GetNumTracks
    | Read64 | Write64 | Format64
    | NsRead64 | NsWrite64 | NsSeek64 | NsFormat64 | NsGetGeometry64
    | NsChangeUnit | NsAddStatCallback | NsRemStatCallback
    | NsEtdRead64 | NsEtdWrite64 | NsEtdSeek64 | NsEtdFormat64
    | Other(number: nat)

  const OPENFAIL: int := -1
  const ABORTED: int := -2
  const NOCMD: int := -3

  datatype Reply = Reply(io: Io, error: int)

  // ---------------------------------------------------------------------
  // The two switches
  // ---------------------------------------------------------------------

  /** What BeginIO does with a command: `hasUnit` whether io_Unit is set,
      `portOpen` whether that unit has its io_port. */
  datatype Fate = Answer(error: int) | HoldChangeInt | HoldRemove | ReleaseChangeInt | Enqueue

  function FateOf(c: Command, hasUnit: bool, portOpen: bool): Fate
  {
    match c
    case AddChangeInt => if hasUnit then HoldChangeInt else Answer(OPENFAIL)
    case Remove => if hasUnit then HoldRemove else Answer(OPENFAIL)
    case RemChangeInt => if hasUnit then ReleaseChangeInt else Answer(0)
    case Stop | Start | Motor => Answer(0)
    case Seek | Eject | Seek64 | EtdMotor | EtdSeek | Clear | EtdClear => Answer(0)
    case ChangeNum | ChangeState | ProtStatus | GetDriveType => Answer(0)
    case DeviceQuery => Answer(0)
    case Read | EtdRead | Write | Format | EtdFormat | EtdWrite | Update | Flush | EtdUpdate | ScsiCmd
       | GetGeometry | GetNumTracks | Read64 | Write64 | Format64 | NsRead64 | NsWrite64 | NsSeek64 | NsFormat64
       | NsGetGeometry64 | NsChangeUnit | NsAddStatCallback | NsRemStatCallback
       | NsEtdRead64 | NsEtdWrite64 | NsEtdSeek64 | NsEtdFormat64 =>
      if hasUnit && portOpen then Enqueue else Answer(OPENFAIL)
    case Other(_) => Answer(NOCMD)
  }

  /** No command without a unit is kept: each is answered there and then, so none
      is orphaned. */
  lemma UnitlessIsAnswered(c: Command, portOpen: bool)
    ensures FateOf(c, false, portOpen).Answer?
    ensures FateOf(c, false, portOpen).error == OPENFAIL <==>
            c.AddChangeInt? || c.Remove? || !TreatmentOf(c).Unknown?
  {}

  /** How UnitTask_Dispatch treats a request it has taken from the port. */
  datatype Treatment = BlockIo(isWrite: bool) | Synchronous | Unknown

  function TreatmentOf(c: Command): Treatment
  {
    match c
    case Read | EtdRead => BlockIo(false)
    case Write | Format | EtdFormat | EtdWrite => BlockIo(true)
    case Read64 => BlockIo(false)
    case Write64 | Format64 => BlockIo(true)
    case NsRead64 | NsEtdRead64 => BlockIo(false)
    case NsWrite64 | NsFormat64 | NsEtdWrite64 | NsEtdFormat64 => BlockIo(true)
    case Update | Flush | EtdUpdate | GetGeometry | GetNumTracks | ScsiCmd | NsGetGeometry64 => Synchronous
    case NsSeek64 | NsChangeUnit | NsAddStatCallback | NsRemStatCallback | NsEtdSeek64 => Synchronous
    case _ => Unknown
  }

  /** BeginIO's switch, command by command, for a unit that is there. */
  lemma FateIs(c: Command, portOpen: bool)
    ensures c.AddChangeInt? ==> FateOf(c, true, portOpen) == HoldChangeInt
    ensures c.Remove? ==> FateOf(c, true, portOpen) == HoldRemove
    ensures c.RemChangeInt? ==> FateOf(c, true, portOpen) == ReleaseChangeInt
    ensures c.Other? ==> FateOf(c, true, portOpen) == Answer(NOCMD)
    ensures (c in {Stop, Start, Motor, Seek, Eject, Seek64, EtdMotor, EtdSeek, Clear, EtdClear, ChangeNum, ChangeState,
               ProtStatus, GetDriveType, DeviceQuery}) ==>
              FateOf(c, true, portOpen) == Answer(0)
    ensures (c in {Read, EtdRead, Write, Format, EtdFormat, EtdWrite, Update, Flush, EtdUpdate, ScsiCmd, GetGeometry,
               GetNumTracks, Read64, Write64, Format64, NsRead64, NsWrite64, NsSeek64, NsFormat64,
               NsGetGeometry64, NsChangeUnit, NsAddStatCallback, NsRemStatCallback, NsEtdRead64, NsEtdWrite64,
               NsEtdSeek64, NsEtdFormat64}) ==>
              FateOf(c, true, portOpen) == if portOpen then Enqueue else Answer(OPENFAIL)
  {}

  /** The unit task's switch, command by command. */
  lemma TreatmentIs(c: Command)
    ensures c in {Read, EtdRead, Read64, NsRead64, NsEtdRead64} <==> TreatmentOf(c) == BlockIo(false)
    ensures (c in {Write, Format, EtdFormat, EtdWrite, Write64, Format64, NsWrite64, NsFormat64, NsEtdWrite64,
                  NsEtdFormat64}) <==>
              TreatmentOf(c) == BlockIo(true)
    ensures (c in {Update, Flush, EtdUpdate, GetGeometry, GetNumTracks, ScsiCmd, NsGetGeometry64, NsSeek64,
                  NsChangeUnit, NsAddStatCallback, NsRemStatCallback, NsEtdSeek64}) <==>
              TreatmentOf(c) == Synchronous
  {}

  /** The two switches agree: BeginIO queues exactly the commands the unit task
      knows. */
  lemma QueuedIsKnown(c: Command)
    ensures FateOf(c, true, true).Enqueue? <==> !TreatmentOf(c).Unknown?
  {}

  // ---------------------------------------------------------------------
  // A unit
  // ---------------------------------------------------------------------

  function One(io: Option<Io>): multiset<Io> { if io.Some? then multiset{io.value} else multiset{} }

  function Ios(log: seq<Reply>): multiset<Io>
  {
    if log == [] then multiset{} else Ios(log[..|log| - 1]) + multiset{log[|log| - 1].io}
  }

  ghost function HeldOf(port: seq<Io>, changeInt: Option<Io>, remove: Option<Io>, dispatching: Option<Io>,
                        slots: multiset<Io>): multiset<Io>
  {
    multiset(port) + One(changeInt) + One(remove) + One(dispatching) + slots
  }

  /** Every request is in one place, and none has been lost or answered twice:
      each time one was handed in it was returned at once, has been replied, or
      is still held. */
  ghost predicate OnceEach(entered: multiset<Io>, quick: multiset<Io>, replied: multiset<Io>, held: multiset<Io>)
  {
    (forall io | io in held :: held[io] == 1) && entered == quick + replied + held
  }

  lemma Enters(entered: multiset<Io>, quick: multiset<Io>, replied: multiset<Io>, held: multiset<Io>, io: Io)
    requires OnceEach(entered, quick, replied, held)
    ensures io !in held ==> OnceEach(entered + multiset{io}, quick, replied, held + multiset{io})
    ensures OnceEach(entered + multiset{io}, quick + multiset{io}, replied, held)
    ensures OnceEach(entered + multiset{io}, quick, replied + multiset{io}, held)
  {}

  lemma Leaves(entered: multiset<Io>, quick: multiset<Io>, replied: multiset<Io>, held: multiset<Io>, io: Io)
    requires OnceEach(entered, quick, replied, held + multiset{io})
    ensures OnceEach(entered, quick, replied + multiset{io}, held) && io !in held
  {
    var all := held + multiset{io};
    assert io in all && all[io] == held[io] + 1;
    forall j | j in held
      ensures held[j] == 1
    {
      assert j in all && all[j] == held[j];
    }
    assert quick + replied + all == quick + (replied + multiset{io}) + held;
  }

  // What one more request in each place comes to.

  lemma OneInPort(port: seq<Io>, changeInt: Option<Io>, remove: Option<Io>, dispatching: Option<Io>,
                  slots: multiset<Io>, io: Io)
    ensures HeldOf(port + [io], changeInt, remove, dispatching, slots)
         == HeldOf(port, changeInt, remove, dispatching, slots) + multiset{io}
  {}

  lemma OneInChange(port: seq<Io>, changeInt: Option<Io>, remove: Option<Io>, dispatching: Option<Io>,
                    slots: multiset<Io>, io: Io)
    ensures HeldOf(port, Some(io), remove, dispatching, slots)
         == HeldOf(port, None, remove, dispatching, slots) + multiset{io}
  {}

  lemma OneInRemove(port: seq<Io>, changeInt: Option<Io>, remove: Option<Io>, dispatching: Option<Io>,
                    slots: multiset<Io>, io: Io)
    ensures HeldOf(port, changeInt, Some(io), dispatching, slots)
         == HeldOf(port, changeInt, None, dispatching, slots) + multiset{io}
  {}

  lemma OneInHand(port: seq<Io>, changeInt: Option<Io>, remove: Option<Io>, dispatching: Option<Io>,
                  slots: multiset<Io>, io: Io)
    ensures HeldOf(port, changeInt, remove, Some(io), slots)
         == HeldOf(port, changeInt, remove, None, slots) + multiset{io}
  {}

  lemma OneInSlots(port: seq<Io>, changeInt: Option<Io>, remove: Option<Io>, dispatching: Option<Io>,
                   slots: multiset<Io>, io: Io)
    ensures HeldOf(port, changeInt, remove, dispatching, slots + multiset{io})
         == HeldOf(port, changeInt, remove, dispatching, slots) + multiset{io}
  {}

  lemma OneFromPort(port: seq<Io>, changeInt: Option<Io>, remove: Option<Io>, dispatching: Option<Io>,
                    slots: multiset<Io>, i: nat)
    requires i < |port|
    ensures HeldOf(port, changeInt, remove, dispatching, slots)
         == HeldOf(port[..i] + port[i + 1..], changeInt, remove, dispatching, slots) + multiset{port[i]}
  {
    assert port == port[..i] + [port[i]] + port[i + 1..];
  }

  class Unit {
    var portOpen: bool
    var port: seq<Io>                       // io_port's message list
    var changeInt: Option<Io>               // changeint_req
    var remove: Option<Io>                  // remove_req
    var dispatching: Option<Io>             // taken from the port, not yet dealt with
    const inflight: array<Option<Io>>       // inflight[].ioreq
    var log: seq<Reply>                     // ReplyMsg, in order
    ghost var entered: multiset<Io>         // what BeginIO was given
    ghost var quick: multiset<Io>           // what it returned at once, the caller polling

    /** The requests the unit has not given back. */
    ghost function Held(): multiset<Io>
      reads this, inflight
    {
      HeldOf(port, changeInt, remove, dispatching, Ledger.Held(inflight[..], One))
    }

    ghost predicate Valid()
      reads this, inflight
    {
      inflight.Length == MAX_INFLIGHT && OnceEach(entered, quick, Ios(log), Held())
    }

    constructor ()
      ensures Valid() && entered == multiset{} && log == [] && portOpen && fresh(inflight)
    {
      portOpen, port, changeInt, remove, dispatching := true, [], None, None, None;
      inflight := new Option<Io>[MAX_INFLIGHT](_ => None);
      log, entered, quick := [], multiset{}, multiset{};
      new;
      Ledger.HeldByNone(inflight[..], One);
      assert Held() == multiset{};
    }

    /** ReplyMsg. */
    method ReplyMsg(io: Io, error: int)
      modifies this`log
      ensures log == old(log) + [Reply(io, error)] && Ios(log) == Ios(old(log)) + multiset{io}
    {
      IosPush(log, Reply(io, error));
      log := log + [Reply(io, error)];
    }

    /** Answer a request inline: at once if the caller polls, by a reply if not. */
    method AnswerInline(io: Io, isQuick: bool, error: int)
      modifies this`log, this`quick
      ensures quick == if isQuick then old(quick) + multiset{io} else old(quick)
      ensures log == if isQuick then old(log) else old(log) + [Reply(io, error)]
      ensures Ios(log) == if isQuick then Ios(old(log)) else Ios(old(log)) + multiset{io}
    {
      if isQuick {
        quick := quick + multiset{io};
      } else {
        ReplyMsg(io, error);
      }
    }

    /** Hold a TD_ADDCHANGEINT, sending back the one it replaces. */
    method HoldChange(io: Io)
      requires Valid() && io !in Held()
      modifies this`changeInt, this`log, this`entered
      ensures Valid() && entered == old(entered) + multiset{io} && changeInt == Some(io)
      ensures log == old(log) + if old(changeInt).Some? then [Reply(old(changeInt).value, ABORTED)] else []
    {
      hide Ledger.Held, Ios, HeldOf, OnceEach;
      ghost var slots := Ledger.Held(inflight[..], One);
      if changeInt.Some? {
        OneInChange(port, None, remove, dispatching, slots, changeInt.value);
        Leaves(entered, quick, Ios(log), HeldOf(port, None, remove, dispatching, slots), changeInt.value);
        ReplyMsg(changeInt.value, ABORTED);
      }
      OneInChange(port, None, remove, dispatching, slots, io);
      Enters(entered, quick, Ios(log), HeldOf(port, None, remove, dispatching, slots), io);
      entered := entered + multiset{io};
      changeInt := Some(io);
    }

    method HoldRemoval(io: Io)
      requires Valid() && io !in Held()
      modifies this`remove, this`log, this`entered
      ensures Valid() && entered == old(entered) + multiset{io} && remove == Some(io)
      ensures log == old(log) + if old(remove).Some? then [Reply(old(remove).value, ABORTED)] else []
    {
      hide Ledger.Held, Ios, HeldOf, OnceEach;
      ghost var slots := Ledger.Held(inflight[..], One);
      if remove.Some? {
        OneInRemove(port, changeInt, None, dispatching, slots, remove.value);
        Leaves(entered, quick, Ios(log), HeldOf(port, changeInt, None, dispatching, slots), remove.value);
        ReplyMsg(remove.value, ABORTED);
      }
      OneInRemove(port, changeInt, None, dispatching, slots, io);
      Enters(entered, quick, Ios(log), HeldOf(port, changeInt, None, dispatching, slots), io);
      entered := entered + multiset{io};
      remove := Some(io);
    }

    /** Reply the held TD_ADDCHANGEINT, if there is one. */
    method EndChange(error: int)
      requires Valid()
      modifies this`changeInt, this`log
      ensures Valid() && changeInt.None?
      ensures log == old(log) + HeldReply(old(changeInt), error)
      ensures forall io | io !in old(Held()) :: io !in Held()
    {
      hide Ledger.Held, Ios, HeldOf, OnceEach;
      ghost var slots := Ledger.Held(inflight[..], One);
      if changeInt.Some? {
        OneInChange(port, None, remove, dispatching, slots, changeInt.value);
        Leaves(entered, quick, Ios(log), HeldOf(port, None, remove, dispatching, slots), changeInt.value);
        ReplyMsg(changeInt.value, error);
        changeInt := None;
      }
    }

    /** A request answered inline is never held. */
    method TakeAndAnswer(io: Io, isQuick: bool, error: int)
      requires Valid()
      modifies this`log, this`quick, this`entered
      ensures Valid() && entered == old(entered) + multiset{io}
      ensures quick == old(quick) + if isQuick then multiset{io} else multiset{}
      ensures log == old(log) + if isQuick then [] else [Reply(io, error)]
    {
      hide Ledger.Held, Ios, HeldOf, OnceEach;
      Enters(entered, quick, Ios(log), Held(), io);
      entered := entered + multiset{io};
      AnswerInline(io, isQuick, error);
    }

    method Put(io: Io)
      requires Valid() && io !in Held()
      modifies this`port, this`entered
      ensures Valid() && entered == old(entered) + multiset{io} && port == old(port) + [io]
    {
      hide Ledger.Held, Ios, HeldOf, OnceEach;
      ghost var slots := Ledger.Held(inflight[..], One);
      OneInPort(port, changeInt, remove, dispatching, slots, io);
      Enters(entered, quick, Ios(log), Held(), io);
      entered := entered + multiset{io};
      port := port + [io];
    }

    /** _manager_BeginIO, for a unit that is there. */
    method BeginIO(io: Io, c: Command, isQuick: bool)
      requires Valid() && io !in Held()
      modifies this`port, this`changeInt, this`remove, this`log, this`entered, this`quick
      ensures Valid() && entered == old(entered) + multiset{io}
      ensures var fate := FateOf(c, true, portOpen);
              && port == (if fate.Enqueue? then old(port) + [io] else old(port))
              && changeInt == (if fate.HoldChangeInt? then Some(io)
                               else if fate.ReleaseChangeInt? then None else old(changeInt))
              && remove == (if fate.HoldRemove? then Some(io) else old(remove))
              && log == old(log) + Released(fate, old(changeInt), old(remove))
                        + (if Inline(fate) && !isQuick then [Reply(io, ErrorOf(fate))] else [])
              && quick == old(quick) + if Inline(fate) && isQuick then multiset{io} else multiset{}
      ensures c.AddChangeInt? ==>
        && changeInt == Some(io) && remove == old(remove) && port == old(port) && quick == old(quick)
        && log == old(log) + if old(changeInt).Some? then [Reply(old(changeInt).value, ABORTED)] else []
      ensures c.Remove? ==>
        && remove == Some(io) && changeInt == old(changeInt) && port == old(port) && quick == old(quick)
        && log == old(log) + if old(remove).Some? then [Reply(old(remove).value, ABORTED)] else []
      ensures c.RemChangeInt? ==>
        && changeInt.None? && remove == old(remove) && port == old(port)
        && log == old(log) + (if old(changeInt).Some? then [Reply(old(changeInt).value, 0)] else [])
                  + (if isQuick then [] else [Reply(io, 0)])
        && quick == old(quick) + if isQuick then multiset{io} else multiset{}
      ensures !c.AddChangeInt? && !c.Remove? && !c.RemChangeInt? ==>
        changeInt == old(changeInt) && remove == old(remove)
      ensures c.Other? ==>
        && port == old(port) && log == old(log) + (if isQuick then [] else [Reply(io, NOCMD)])
        && quick == old(quick) + if isQuick then multiset{io} else multiset{}
      ensures c in {Stop, Start, Motor, Seek, Eject, Seek64, EtdMotor, EtdSeek, Clear, EtdClear, ChangeNum, ChangeState,
                    ProtStatus, GetDriveType, DeviceQuery} ==>
        && port == old(port) && log == old(log) + (if isQuick then [] else [Reply(io, 0)])
        && quick == old(quick) + if isQuick then multiset{io} else multiset{}
      ensures c in {Read, EtdRead, Write, Format, EtdFormat, EtdWrite, Update, Flush, EtdUpdate, ScsiCmd, GetGeometry,
                    GetNumTracks, Read64, Write64, Format64, NsRead64, NsWrite64, NsSeek64, NsFormat64,
                    NsGetGeometry64, NsChangeUnit, NsAddStatCallback, NsRemStatCallback, NsEtdRead64, NsEtdWrite64,
                    NsEtdSeek64, NsEtdFormat64} ==>
        if portOpen then port == old(port) + [io] && log == old(log) && quick == old(quick)
        else && port == old(port) && log == old(log) + (if isQuick then [] else [Reply(io, OPENFAIL)])
             && quick == old(quick) + if isQuick then multiset{io} else multiset{}
    {
      FateIs(c, portOpen);
      hide FateOf, Unit.Valid, Unit.Held, Ios;
      match FateOf(c, true, portOpen) {
        case HoldChangeInt => HoldChange(io);
        case HoldRemove => HoldRemoval(io);
        case ReleaseChangeInt =>
          EndChange(0);
          TakeAndAnswer(io, isQuick, 0);
        case Answer(error) => TakeAndAnswer(io, isQuick, error);
        case Enqueue => Put(io);
      }
    }

    /** AbortIO's walk along the port's list. */
    method FindInPort(io: Io) returns (i: nat)
      ensures i <= |port| && io !in port[..i] && (i < |port| ==> port[i] == io)
    {
      i := 0;
      while i < |port| && port[i] != io
        invariant 0 <= i <= |port| && io !in port[..i]
      {
        i := i + 1;
      }
    }

    /** _manager_AbortIO: a request still in the port is taken out and replied;
        any other is left alone. */
    method AbortIO(io: Io) returns (rc: int, ghost at: nat)
      requires Valid()
      modifies this`port, this`log
      ensures Valid() && rc == if portOpen && io in old(port) then 0 else NOCMD
      ensures rc != 0 ==> port == old(port) && log == old(log)
      ensures rc == 0 ==>
        && at < |old(port)| && old(port)[at] == io && port == old(port)[..at] + old(port)[at + 1..]
        && log == old(log) + [Reply(io, ABORTED)] && io !in Held()
    {
      hide Unit.Valid, Unit.Held;
      at := 0;
      if !portOpen {
        return NOCMD, 0;
      }
      var i := FindInPort(io);
      at := i;
      if i == |port| {
        return NOCMD, i;
      }
      Withdraw(i, ABORTED);
      rc := 0;
    }

    /** Take a request out of the port and reply it. */
    method Withdraw(i: nat, error: int)
      requires Valid() && i < |port|
      modifies this`port, this`log
      ensures Valid() && port == old(port)[..i] + old(port)[i + 1..]
      ensures log == old(log) + [Reply(old(port)[i], error)] && old(port)[i] !in Held()
    {
      hide Ledger.Held, Ios, HeldOf, OnceEach;
      ghost var slots := Ledger.Held(inflight[..], One);
      ghost var shorter := port[..i] + port[i + 1..];
      OneFromPort(port, changeInt, remove, dispatching, slots, i);
      Leaves(entered, quick, Ios(log), HeldOf(shorter, changeInt, remove, dispatching, slots), port[i]);
      ReplyMsg(port[i], error);
      port := port[..i] + port[i + 1..];
    }

    /** GetMsg in the event loop. */
    method GetMsg() returns (io: Option<Io>)
      requires Valid() && dispatching.None?
      modifies this`port, this`dispatching
      ensures Valid() && dispatching == io
      ensures if old(port) == [] then io.None? && port == [] else io == Some(old(port)[0]) && port == old(port)[1..]
    {
      hide Ledger.Held, Ios, HeldOf, OnceEach;
      ghost var slots := Ledger.Held(inflight[..], One);
      io := None;
      if port != [] {
        io := Some(port[0]);
        assert port[..0] + port[1..] == port[1..];
        OneFromPort(port, changeInt, remove, None, slots, 0);
        OneInHand(port[1..], changeInt, remove, None, slots, port[0]);
        port := port[1..];
        dispatching := io;
      }
    }

    /** UnitTask_Dispatch: a block request Submit accepts goes to its slot;
        everything else is replied here. */
    method Dispatch(c: Command, submitted: Option<nat>, error: int)
      requires Valid() && dispatching.Some?
      requires submitted.Some? ==> submitted.value < MAX_INFLIGHT && inflight[submitted.value].None?
      modifies this`dispatching, this`log, inflight
      ensures Valid() && dispatching.None?
      ensures if TreatmentOf(c).BlockIo? && submitted.Some?
              then log == old(log) && inflight[..] == old(inflight[..])[submitted.value := old(dispatching)]
              else inflight[..] == old(inflight[..])
                   && log == old(log)
                             + [Reply(old(dispatching).value, if TreatmentOf(c).Unknown? then NOCMD else error)]
      // the block commands
      ensures c in {Read, EtdRead, Read64, NsRead64, NsEtdRead64, Write, Format, EtdFormat, EtdWrite, Write64, Format64,
                    NsWrite64, NsFormat64, NsEtdWrite64, NsEtdFormat64} && submitted.Some? ==>
        log == old(log) && inflight[..] == old(inflight[..])[submitted.value := old(dispatching)]
      ensures c in {Read, EtdRead, Read64, NsRead64, NsEtdRead64, Write, Format, EtdFormat, EtdWrite, Write64, Format64,
                    NsWrite64, NsFormat64, NsEtdWrite64, NsEtdFormat64} && submitted.None? ==>
        log == old(log) + [Reply(old(dispatching).value, error)] && inflight[..] == old(inflight[..])
      // those answered by the unit task itself
      ensures c in {Update, Flush, EtdUpdate, GetGeometry, GetNumTracks, ScsiCmd, NsGetGeometry64, NsSeek64,
                    NsChangeUnit, NsAddStatCallback, NsRemStatCallback, NsEtdSeek64} ==>
        log == old(log) + [Reply(old(dispatching).value, error)] && inflight[..] == old(inflight[..])
      // all others
      ensures c.Other? || c in {AddChangeInt, Remove, RemChangeInt, Stop, Start, Motor, Seek, Eject, Seek64, EtdMotor,
                                EtdSeek, Clear, EtdClear, ChangeNum, ChangeState, ProtStatus, GetDriveType,
                                DeviceQuery} ==>
        log == old(log) + [Reply(old(dispatching).value, NOCMD)] && inflight[..] == old(inflight[..])
    {
      TreatmentIs(c);
      hide TreatmentOf, Unit.Valid;
      if TreatmentOf(c).BlockIo? && submitted.Some? {
        Keep(submitted.value);
      } else {
        ReplyTaken(if TreatmentOf(c).Unknown? then NOCMD else error);
      }
    }

    /** The request taken from the port is in slot `s`. */
    method Keep(s: nat)
      requires Valid() && dispatching.Some? && s < MAX_INFLIGHT && inflight[s].None?
      modifies this`dispatching, inflight
      ensures Valid() && dispatching.None? && inflight[..] == old(inflight[..])[s := old(dispatching)]
    {
      hide Ledger.Held, Ios, HeldOf, OnceEach;
      ghost var before, slots := inflight[..], Ledger.Held(inflight[..], One);
      OneInHand(port, changeInt, remove, None, slots, dispatching.value);
      Ledger.HeldUpdate(before, One, s, dispatching);
      OneInSlots(port, changeInt, remove, None, slots, dispatching.value);
      assert Ledger.Held(before[s := dispatching], One) == slots + multiset{dispatching.value};
      inflight[s] := dispatching;
      assert inflight[..] == before[s := dispatching];
      dispatching := None;
    }

    /** It is replied there and then. */
    method ReplyTaken(error: int)
      requires Valid() && dispatching.Some?
      modifies this`dispatching, this`log
      ensures Valid() && dispatching.None? && log == old(log) + [Reply(old(dispatching).value, error)]
    {
      hide Ledger.Held, Ios, HeldOf, OnceEach;
      ghost var slots := Ledger.Held(inflight[..], One);
      OneInHand(port, changeInt, remove, None, slots, dispatching.value);
      Leaves(entered, quick, Ios(log), HeldOf(port, changeInt, remove, None, slots), dispatching.value);
      ReplyMsg(dispatching.value, error);
      dispatching := None;
    }

    /** The reply of complete_inflight_slot, and of the shutdown drain. */
    method ReplySlot(s: nat, error: int)
      requires Valid() && s < MAX_INFLIGHT && inflight[s].Some?
      modifies this`log, inflight
      ensures Valid() && inflight[..] == old(inflight[..])[s := None]
      ensures log == old(log) + [Reply(old(inflight[s]).value, error)]
    {
      hide Ledger.Held, Ios, HeldOf, OnceEach;
      ghost var slots := Ledger.Held(inflight[..], One);
      ghost var before := inflight[..];
      Ledger.HeldUpdate(before, One, s, None);
      ghost var others := Ledger.Held(before[s := None], One);
      assert slots == others + multiset{inflight[s].value};
      OneInSlots(port, changeInt, remove, dispatching, others, inflight[s].value);
      Leaves(entered, quick, Ios(log), HeldOf(port, changeInt, remove, dispatching, others), inflight[s].value);
      ReplyMsg(inflight[s].value, error);
      inflight[s] := None;
      assert inflight[..] == before[s := None];
    }

    // -------------------------------------------------------------------
    // Shutdown
    // -------------------------------------------------------------------

    method EndRemove(error: int)
      requires Valid()
      modifies this`remove, this`log
      ensures Valid() && remove.None?
      ensures log == old(log) + HeldReply(old(remove), error)
    {
      hide Ledger.Held, Ios, HeldOf, OnceEach;
      ghost var slots := Ledger.Held(inflight[..], One);
      if remove.Some? {
        OneInRemove(port, changeInt, None, dispatching, slots, remove.value);
        Leaves(entered, quick, Ios(log), HeldOf(port, changeInt, None, dispatching, slots), remove.value);
        ReplyMsg(remove.value, error);
        remove := None;
      }
    }

    /** Reply_Held_Async_Reqs: the second of two calls finds nothing. */
    method ReplyHeld(error: int)
      requires Valid()
      modifies this`changeInt, this`remove, this`log
      ensures Valid() && changeInt.None? && remove.None?
      ensures log == old(log) + HeldReply(old(changeInt), error) + HeldReply(old(remove), error)
      ensures log == old(log)
                + (if old(changeInt).Some? then [Reply(old(changeInt).value, error)] else [])
                + (if old(remove).Some? then [Reply(old(remove).value, error)] else [])
    {
      hide Unit.Valid;
      EndChange(error);
      EndRemove(error);
    }

    /** Abort whatever is in a slot and end the slot's mapping; the unit's rows of
        the data table begin at `first`. */
    method DrainSlots(data: SlotData, first: nat)
      requires Valid() && data.Valid() && first + MAX_INFLIGHT <= data.table.Length
      modifies this`log, inflight, data`live, data.table
      ensures Valid() && forall s | 0 <= s < MAX_INFLIGHT :: inflight[s].None?
      ensures log == old(log) + SlotReplies(old(inflight[..]))
      ensures data.Valid() && data.Value() == Drained(old(data.Value()), first, old(inflight[..]))
    {
      hide OnceEach, HeldOf, Ios, Ledger.Held, SlotReplies, SlotData.Valid, Drained, DP.Released;
      ghost var before, m := inflight[..], data.Value();
      SlotRepliesPush(before, 0);
      DrainedPush(m, first, before, 0);
      var s := 0;
      while s < MAX_INFLIGHT
        invariant 0 <= s <= MAX_INFLIGHT && Valid()
        invariant forall i | 0 <= i < s :: inflight[i].None?
        invariant forall i | s <= i < MAX_INFLIGHT :: inflight[i] == before[i]
        invariant log == old(log) + SlotReplies(before[..s])
        invariant data.Valid() && data.Value() == Drained(m, first, before[..s])
      {
        SlotRepliesPush(before, s);
        DrainedPush(m, first, before, s);
        if inflight[s].Some? {
          ReplySlot(s, ABORTED);
          data.Release(first + s);
        }
        s := s + 1;
      }
      assert before[..s] == before;
    }

    /** Abort whatever is in the port. */
    method DrainPort()
      requires Valid()
      modifies this`port, this`log
      ensures Valid() && port == []
      ensures log == old(log) + PortReplies(old(port))
    {
      hide Unit.Valid, Unit.Held, PortReplies;
      ghost var before := port;
      ghost var n := 0;
      PortRepliesPush(before, 0);
      while port != []
        invariant 0 <= n <= |before| && port == before[n..] && Valid()
        invariant log == old(log) + PortReplies(before[..n])
        decreases |port|
      {
        PortRepliesPush(before, n);
        Withdraw(0, ABORTED);
        n := n + 1;
      }
      assert before[..n] == before;
    }

    /** The way out of the unit task: slots, port and held requests are replied
        in that order, after which nothing is held and every request ever handed
        in has been given back exactly once. */
    method Shutdown(data: SlotData, first: nat)
      requires Valid() && dispatching.None? && data.Valid() && first + MAX_INFLIGHT <= data.table.Length
      modifies this`port, this`changeInt, this`remove, this`log, inflight, data`live, data.table
      ensures Valid() && Held() == multiset{} && entered == quick + Ios(log)
      ensures log == old(log) + SlotReplies(old(inflight[..])) + PortReplies(old(port))
                     + HeldReply(old(changeInt), ABORTED) + HeldReply(old(remove), ABORTED)
      ensures data.Valid() && data.Value() == Drained(old(data.Value()), first, old(inflight[..]))
    {
      hide OnceEach, HeldOf, Ios, Ledger.Held, SlotData.Valid, Drained, SlotReplies, PortReplies, HeldReply;
      DrainSlots(data, first);
      DrainPort();
      ReplyHeld(ABORTED);
      AllBack();
    }

    /** With every place empty, whatever was handed in has been given back. */
    lemma AllBack()
      requires Valid() && dispatching.None? && port == [] && changeInt.None? && remove.None?
      requires forall i | 0 <= i < inflight.Length :: inflight[i].None?
      ensures Held() == multiset{} && entered == quick + Ios(log)
    {
      hide OnceEach, HeldOf, Ios;
      Ledger.HeldByNone(inflight[..], One);
      NothingHeld();
      AllGiven(entered, quick, Ios(log));
    }

    /** Freeing the port with messages in it loses them: all is still accounted
        for exactly if none was queued since the drain. */
    method ClosePort()
      requires Valid()
      modifies this`port, this`portOpen
      ensures !portOpen && port == [] && (Valid() <==> old(port) == [])
    {
      hide OnceEach, HeldOf, Ios, Ledger.Held;
      LostFromPort(entered, quick, Ios(log), port, changeInt, remove, dispatching, Ledger.Held(inflight[..], One));
      portOpen, port := false, [];
    }
  }

  /** What freeing the port so costs: BeginIO tests io_port without the lock, so a
      read can come in after the drain; the log ends with the drain's replies, and
      the read is neither among them nor held. */
  method LateRequestIsLost(unit: Unit, io: Io, data: SlotData, first: nat)
    requires unit.Valid() && unit.dispatching.None? && unit.portOpen
    requires data.Valid() && first + MAX_INFLIGHT <= data.table.Length
    modifies unit, unit.inflight, data`live, data.table
    ensures !unit.Valid() && unit.port == []
    ensures unit.entered == old(unit.entered) + multiset{io} && unit.quick == old(unit.quick)
    ensures unit.log == old(unit.log) + SlotReplies(old(unit.inflight[..])) + PortReplies(old(unit.port))
                        + HeldReply(old(unit.changeInt), ABORTED) + HeldReply(old(unit.remove), ABORTED)
  {
    hide OnceEach, Ios, Unit.Valid, Unit.Held, SlotReplies, PortReplies, SlotData.Valid, Drained;
    unit.Shutdown(data, first);
    QueueRead(unit, io);
    unit.ClosePort();
  }

  method QueueRead(unit: Unit, io: Io)
    requires unit.Valid() && unit.portOpen && io !in unit.Held()
    modifies unit`port, unit`changeInt, unit`remove, unit`log, unit`entered, unit`quick
    ensures unit.Valid() && unit.port == old(unit.port) + [io] && unit.log == old(unit.log)
    ensures unit.entered == old(unit.entered) + multiset{io} && unit.quick == old(unit.quick)
  {
    hide Unit.Valid, Unit.Held;
    unit.BeginIO(io, Read, false);
  }

  function HeldReply(held: Option<Io>, error: int): seq<Reply>
  {
    if held.Some? then [Reply(held.value, error)] else []
  }

  function SlotReplies(slots: seq<Option<Io>>): seq<Reply>
  {
    if slots == [] then []
    else SlotReplies(slots[..|slots| - 1]) + HeldReply(slots[|slots| - 1], ABORTED)
  }

  function PortReplies(port: seq<Io>): seq<Reply>
  {
    if port == [] then [] else PortReplies(port[..|port| - 1]) + [Reply(port[|port| - 1], ABORTED)]
  }

  lemma SlotRepliesPush(slots: seq<Option<Io>>, n: nat)
    requires n < |slots|
    ensures SlotReplies(slots[..0]) == []
    ensures SlotReplies(slots[..n + 1]) == SlotReplies(slots[..n]) + HeldReply(slots[n], ABORTED)
  {
    assert slots[..n + 1][..n] == slots[..n];
  }

  /** The drain of the port replies each request in it, in order, as aborted. */
  lemma {:induction false} PortRepliesAre(port: seq<Io>)
    ensures |PortReplies(port)| == |port|
    ensures forall i | 0 <= i < |port| :: PortReplies(port)[i] == Reply(port[i], ABORTED)
  {
    if port != [] {
      PortRepliesAre(port[..|port| - 1]);
    }
  }

  /** The drain of the slots replies what is in each of them, slot after slot, as
      aborted. */
  lemma {:induction false} SlotRepliesAre(a: seq<Option<Io>>, b: seq<Option<Io>>, io: Io)
    ensures SlotReplies([]) == [] && SlotReplies([None]) == [] && SlotReplies([Some(io)]) == [Reply(io, ABORTED)]
    ensures SlotReplies(a + b) == SlotReplies(a) + SlotReplies(b)
  {
    var none: Option<Io> := None;
    assert [Some(io)][..0] == [] && [none][..0] == [];
    if b == [] {
      assert a + b == a;
    } else {
      var n := |b| - 1;
      assert (a + b)[..|a + b| - 1] == a + b[..n];
      SlotRepliesAre(a, b[..n], io);
    }
  }

  /** The data of the slots once the first `|slots|` have been drained. */
  ghost function Drained(m: DP.Store, first: nat, slots: seq<Option<Io>>): DP.Store
  {
    if slots == [] then m
    else
      var n := |slots| - 1;
      var d := Drained(m, first, slots[..n]);
      if slots[n].Some? && DP.HasSlot(d, first + n) then DP.Released(d, first + n) else d
  }

  lemma DrainedPush(m: DP.Store, first: nat, slots: seq<Option<Io>>, n: nat)
    requires n < |slots|
    ensures Drained(m, first, slots[..0]) == m
    ensures var d := Drained(m, first, slots[..n]);
            Drained(m, first, slots[..n + 1])
            == if slots[n].Some? && DP.HasSlot(d, first + n) then DP.Released(d, first + n) else d
  {
    hide DP.Released;
    assert slots[..n + 1][..n] == slots[..n];
  }

  /** The mapping of every occupied slot is ended; memory and the other rows are as
      they were. */
  ghost predicate RowsDrained(m: DP.Store, d: DP.Store, first: nat, slots: seq<Option<Io>>)
  {
    && d.ram == m.ram && d.bounce == m.bounce && |d.table| == |m.table|
    && forall i | 0 <= i < |m.table| ::
         d.table[i] == if first <= i < first + |slots| && slots[i - first].Some?
                       then m.table[i].(mapped := false) else m.table[i]
  }

  lemma {:induction false} DrainedRows(m: DP.Store, first: nat, slots: seq<Option<Io>>)
    requires DP.StoreOk(m) && first + |slots| <= |m.table|
    ensures DP.StoreOk(Drained(m, first, slots)) && RowsDrained(m, Drained(m, first, slots), first, slots)
  {
    hide DP.StoreOk, DP.Released, DP.HasSlot;
    if slots != [] {
      var n := |slots| - 1;
      DrainedRows(m, first, slots[..n]);
      var d := Drained(m, first, slots[..n]);
      HasRow(d, first + n);
      DP.ReleasedOk(d, first + n);
      ReleasedIs(d, first + n);
      hide Drained;
      if slots[n].Some? {
        RowsDrainedStep(m, d, DP.Released(d, first + n), first, slots);
      } else {
        RowsDrainedStep(m, d, d, first, slots);
      }
    }
  }

  lemma RowsDrainedStep(m: DP.Store, d: DP.Store, e: DP.Store, first: nat, slots: seq<Option<Io>>)
    requires slots != [] && first + |slots| <= |m.table| && RowsDrained(m, d, first, slots[..|slots| - 1])
    requires e.ram == d.ram && e.bounce == d.bounce
    requires var n := |slots| - 1;
             e.table == if slots[n].Some? then d.table[first + n := d.table[first + n].(mapped := false)] else d.table
    ensures RowsDrained(m, e, first, slots)
  {}

  lemma ReleasedIs(m: DP.Store, i: nat)
    requires DP.HasSlot(m, i)
    ensures i < |m.table|
    ensures var r := DP.Released(m, i);
            r.ram == m.ram && r.bounce == m.bounce && r.table == m.table[i := m.table[i].(mapped := false)]
  {
    hide DP.MappingOf;
  }

  lemma HasRow(m: DP.Store, i: nat)
    requires DP.StoreOk(m) && i < |m.table|
    ensures DP.HasSlot(m, i)
  {
    hide DP.RecordsOk, DP.Held;
  }

  lemma PortRepliesPush(port: seq<Io>, n: nat)
    ensures PortReplies(port[..0]) == []
    ensures n < |port| ==> PortReplies(port[..n + 1]) == PortReplies(port[..n]) + [Reply(port[n], ABORTED)]
  {
    if n < |port| {
      assert port[..n + 1][..n] == port[..n];
    }
  }

  lemma NothingHeld()
    ensures HeldOf([], None, None, None, multiset{}) == multiset{}
  {}

  lemma AllGiven(entered: multiset<Io>, quick: multiset<Io>, replied: multiset<Io>)
    requires OnceEach(entered, quick, replied, multiset{})
    ensures entered == quick + replied
  {}

  lemma LostFromPort(entered: multiset<Io>, quick: multiset<Io>, replied: multiset<Io>, port: seq<Io>,
                     changeInt: Option<Io>,
                     remove: Option<Io>, dispatching: Option<Io>, slots: multiset<Io>)
    requires OnceEach(entered, quick, replied, HeldOf(port, changeInt, remove, dispatching, slots))
    ensures OnceEach(entered, quick, replied, HeldOf([], changeInt, remove, dispatching, slots)) <==> port == []
  {
    var kept := HeldOf([], changeInt, remove, dispatching, slots);
    assert HeldOf(port, changeInt, remove, dispatching, slots) == kept + multiset(port);
    if port != [] {
      assert port[0] in multiset(port);
      assert (quick + replied + (kept + multiset(port)))[port[0]] > (quick + replied + kept)[port[0]];
    }
  }

  /** A request handed in once has been answered at once, or replied once, or is
      held; and a reply to it is the only one. */
  lemma AnsweredOnce(entered: multiset<Io>, quick: multiset<Io>, log: seq<Reply>, held: multiset<Io>, io: Io)
    requires OnceEach(entered, quick, Ios(log), held) && entered[io] == 1
    ensures quick[io] + held[io] + (if exists n :: 0 <= n < |log| && log[n].io == io then 1 else 0) == 1
    ensures forall m, n | 0 <= m < n < |log| && log[m].io == io :: log[n].io != io
  {
    assert entered[io] == quick[io] + Ios(log)[io] + held[io];
    RepliesCounted(log, io);
  }

  lemma {:induction false} RepliesCounted(log: seq<Reply>, io: Io)
    ensures Ios(log)[io] > 0 <==> exists n :: 0 <= n < |log| && log[n].io == io
    ensures Ios(log)[io] <= 1 ==> forall m, n | 0 <= m < n < |log| && log[m].io == io :: log[n].io != io
  {
    if log != [] {
      var k := |log| - 1;
      var front, last := log[..k], log[k];
      RepliesCounted(front, io);
      assert log == front + [last];
      IosPush(front, last);
      hide Ios;
      OneMoreReply(front, last, io, Ios(front)[io], Ios(log)[io]);
    }
  }

  lemma OneMoreReply(front: seq<Reply>, last: Reply, io: Io, before: nat, after: nat)
    requires before > 0 <==> exists n :: 0 <= n < |front| && front[n].io == io
    requires before <= 1 ==> forall m, n | 0 <= m < n < |front| && front[m].io == io :: front[n].io != io
    requires after == before + if last.io == io then 1 else 0
    ensures after > 0 <==> exists n :: 0 <= n < |front + [last]| && (front + [last])[n].io == io
    ensures after <= 1 ==>
      forall m, n | 0 <= m < n < |front + [last]| && (front + [last])[m].io == io :: (front + [last])[n].io != io
  {
    var log := front + [last];
    assert log[|front|] == last && forall n | 0 <= n < |front| :: log[n] == front[n];
  }

  predicate Inline(fate: Fate) { fate.Answer? || fate.ReleaseChangeInt? }

  function ErrorOf(fate: Fate): int { if fate.Answer? then fate.error else 0 }

  /** The held request a command sends back: one it replaces, or the one
      TD_REMCHANGEINT ends. */
  function Released(fate: Fate, changeInt: Option<Io>, remove: Option<Io>): seq<Reply>
  {
    if fate.HoldChangeInt? && changeInt.Some? then [Reply(changeInt.value, ABORTED)]
    else if fate.HoldRemove? && remove.Some? then [Reply(remove.value, ABORTED)]
    else if fate.ReleaseChangeInt? && changeInt.Some? then [Reply(changeInt.value, 0)]
    else []
  }

  lemma IosPush(log: seq<Reply>, r: Reply)
    ensures Ios(log + [r]) == Ios(log) + multiset{r.io}
  {
    assert (log + [r])[..|log|] == log;
  }
}
