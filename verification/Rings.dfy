/** The available and used rings: 16-bit wrapping indices and `% num` slots,
    read as two unbounded queues. */
module Rings {
  import opened Types
  import opened VRing
  import opened Counters
  import QM = QueueModel

  /** struct vring_used_elem, as the CPU would load it. */
  datatype UsedElem = UsedElem(id: uint32, len: uint32)

  ghost predicate AvailSlot(modern: bool, num: nat, ring: seq<uint16>, taken: nat, avail: seq<nat>, j: nat)
    requires 0 < num <= |ring| && j < |avail|
  {
    avail[j] < num <= WRAP && ring[(taken + j) % num] == Vr16(modern, avail[j])
  }

  /** `posted` heads have gone in, `taken` have been read by the device. */
  ghost predicate AvailRing(modern: bool, num: nat, ring: seq<uint16>, idx: uint16,
                            posted: nat, taken: nat, avail: seq<nat>)
  {
    && LegalSize(num) && num <= |ring|
    && idx == Vr16(modern, Wrap(posted))
    && posted == taken + |avail|
    && forall j | 0 <= j < |avail| :: AvailSlot(modern, num, ring, taken, avail, j)
  }

  ghost predicate UsedSlot(modern: bool, num: nat, ring: seq<UsedElem>, harvested: nat, used: seq<QM.Used>, j: nat)
    requires 0 < num <= |ring| && j < |used|
  {
    && used[j].id < num <= WRAP
    && ring[(harvested + j) % num] == UsedElem(Vr32(modern, used[j].id), Vr32(modern, used[j].len))
  }

  /** `completed` elements have been written, `harvested` have been read. */
  ghost predicate UsedRing(modern: bool, num: nat, ring: seq<UsedElem>, idx: uint16,
                           completed: nat, harvested: nat, used: seq<QM.Used>)
  {
    && LegalSize(num) && num <= |ring|
    && idx == Vr16(modern, Wrap(completed))
    && completed == harvested + |used|
    && forall j | 0 <= j < |used| :: UsedSlot(modern, num, ring, harvested, used, j)
  }

  /** Publishing a head overwrites no head the device has yet to read. */
  lemma Publish(modern: bool, num: nat, ring: seq<uint16>, idx: uint16, posted: nat, taken: nat, avail: seq<nat>,
                head: nat)
    requires AvailRing(modern, num, ring, idx, posted, taken, avail)
    requires |avail| < num && head < num
    ensures var i := Vr16(modern, idx);
            && AvailRing(modern, num, ring[i % num := Vr16(modern, head)], Vr16(modern, (i + 1) % WRAP),
                         posted + 1, taken, avail + [head])
  {
    Vr16RoundTrip(modern, Wrap(posted));
    WrapSlot(posted, num);
    WrapNext(posted);
    var ring' := ring[posted % num := Vr16(modern, head)];
    forall j | 0 <= j < |avail + [head]|
      ensures AvailSlot(modern, num, ring', taken, avail + [head], j)
    {
      if j < |avail| {
        assert AvailSlot(modern, num, ring, taken, avail, j);
        SlotsDiffer(taken + j, posted, num);
      }
    }
  }

  /** The device finds the oldest unread head in the slot its own wrapped
      counter selects. */
  lemma Fetch(modern: bool, num: nat, ring: seq<uint16>, idx: uint16, posted: nat, taken: nat, avail: seq<nat>)
    requires AvailRing(modern, num, ring, idx, posted, taken, avail) && avail != []
    ensures DeviceReads(modern, Stored16(ring[Wrap(taken) % num])) == avail[0]
    ensures AvailRing(modern, num, ring, idx, posted, taken + 1, avail[1..])
  {
    WrapSlot(taken, num);
    assert AvailSlot(modern, num, ring, taken, avail, 0);
    Vr16RoundTrip(modern, avail[0]);
    var next, rest := taken + 1, avail[1..];
    forall j | 0 <= j < |rest|
      ensures AvailSlot(modern, num, ring, next, rest, j)
    {
      assert AvailSlot(modern, num, ring, taken, avail, j + 1);
    }
  }

  /** Completing a request overwrites no element the driver has yet to read. */
  lemma Deposit(modern: bool, num: nat, ring: seq<UsedElem>, idx: uint16, completed: nat, harvested: nat,
                used: seq<QM.Used>, u: QM.Used)
    requires UsedRing(modern, num, ring, idx, completed, harvested, used)
    requires |used| < num && u.id < num
    ensures var i := Vr16(modern, idx);
            && UsedRing(modern, num, ring[i % num := UsedElem(Vr32(modern, u.id), Vr32(modern, u.len))],
                        Vr16(modern, (i + 1) % WRAP), completed + 1, harvested, used + [u])
  {
    Vr16RoundTrip(modern, Wrap(completed));
    WrapSlot(completed, num);
    WrapNext(completed);
    var ring' := ring[completed % num := UsedElem(Vr32(modern, u.id), Vr32(modern, u.len))];
    forall j | 0 <= j < |used + [u]|
      ensures UsedSlot(modern, num, ring', harvested, used + [u], j)
    {
      if j < |used| {
        assert UsedSlot(modern, num, ring, harvested, used, j);
        SlotsDiffer(harvested + j, completed, num);
      }
    }
  }

  /** The driver's equality test sees exactly whether anything is waiting. */
  lemma EmptyTest(modern: bool, num: nat, ring: seq<UsedElem>, idx: uint16, completed: nat, harvested: nat,
                  used: seq<QM.Used>)
    requires UsedRing(modern, num, ring, idx, completed, harvested, used) && |used| <= num
    ensures Wrap(harvested) == Vr16(modern, idx) <==> used == []
  {
    Vr16RoundTrip(modern, Wrap(completed));
    WrapEqual(harvested, completed);
  }

  /** The driver reads the oldest unread element. */
  lemma Collect(modern: bool, num: nat, ring: seq<UsedElem>, idx: uint16, completed: nat, harvested: nat,
                used: seq<QM.Used>)
    requires UsedRing(modern, num, ring, idx, completed, harvested, used) && used != []
    ensures var e := ring[Wrap(harvested) % num];
            Vr32(modern, e.id) == used[0].id && Vr32(modern, e.len) == used[0].len
    ensures UsedRing(modern, num, ring, idx, completed, harvested + 1, used[1..])
  {
    WrapSlot(harvested, num);
    assert UsedSlot(modern, num, ring, harvested, used, 0);
    Vr32RoundTrip(modern, used[0].id);
    Vr32RoundTrip(modern, used[0].len);
    var next, rest := harvested + 1, used[1..];
    forall j | 0 <= j < |rest|
      ensures UsedSlot(modern, num, ring, next, rest, j)
    {
      assert UsedSlot(modern, num, ring, harvested, used, j + 1);
    }
  }
}
