/** The ring structures of include/virtio/virtqueue.h, byte order included. */
module VRing {
  import opened Types

  const F_NEXT: uint16 := 1
  const F_WRITE: uint16 := 2
  const F_INDIRECT: uint16 := 4

  // ---------------------------------------------------------------------
  // Byte order.  The guest CPU is big-endian: storing a native value leaves
  // its most significant byte first.  A modern device reads the same bytes
  // as little-endian, a legacy device as big-endian.
  // ---------------------------------------------------------------------

  function Stored16(v: uint16): seq<uint8> { [v / 0x100, v % 0x100] }

  function Stored32(v: uint32): seq<uint8> { Stored16(v / 0x1_0000) + Stored16(v % 0x1_0000) }

  function Stored64(v: uint64): seq<uint8> { Stored32(v / 0x1_0000_0000) + Stored32(v % 0x1_0000_0000) }

  function BigEndian(b: seq<uint8>): nat
  {
    if b == [] then 0 else BigEndian(b[..|b| - 1]) * 0x100 + b[|b| - 1]
  }

  function LittleEndian(b: seq<uint8>): nat
  {
    if b == [] then 0 else b[0] + 0x100 * LittleEndian(b[1..])
  }

  /** What the device makes of the bytes it finds in shared memory. */
  function DeviceReads(modern: bool, b: seq<uint8>): nat
  {
    if modern then LittleEndian(b) else BigEndian(b)
  }

  function Swap16(v: uint16): uint16 { v % 0x100 * 0x100 + v / 0x100 }

  function Swap32(v: uint32): uint32 { Swap16(v % 0x1_0000) * 0x1_0000 + Swap16(v / 0x1_0000) }

  function Swap64(v: uint64): uint64
  {
    Swap32(v % 0x1_0000_0000) * 0x1_0000_0000 + Swap32(v / 0x1_0000_0000)
  }

  function Vr16(modern: bool, v: uint16): uint16 { if modern then Swap16(v) else v }

  function Vr32(modern: bool, v: uint32): uint32 { if modern then Swap32(v) else v }

  function Vr64(modern: bool, v: uint64): uint64 { if modern then Swap64(v) else v }

  lemma Vr16RoundTrip(modern: bool, v: uint16)
    ensures Vr16(modern, Vr16(modern, v)) == v
    ensures DeviceReads(modern, Stored16(Vr16(modern, v))) == v
  {
    Read2(Vr16(modern, v));
  }

  lemma Vr32RoundTrip(modern: bool, v: uint32)
    ensures Vr32(modern, Vr32(modern, v)) == v
    ensures DeviceReads(modern, Stored32(Vr32(modern, v))) == v
  {
    Swap32Twice(v);
    Read4(Vr32(modern, v));
  }

  lemma Vr64RoundTrip(modern: bool, v: uint64)
    ensures Vr64(modern, Vr64(modern, v)) == v
    ensures DeviceReads(modern, Stored64(Vr64(modern, v))) == v
  {
    Swap64Twice(v);
    Read8(Vr64(modern, v));
  }

  /** The bytes in memory, first to last: least significant first for a modern
      device, most significant first for a legacy one. */
  lemma FieldBytes16(modern: bool, v: uint16)
    ensures Stored16(Vr16(modern, v)) == if modern then [v % 0x100, v / 0x100] else [v / 0x100, v % 0x100]
  {}

  lemma FieldBytes32(modern: bool, hi: uint16, lo: uint16, v: uint32)
    requires v == hi * 0x1_0000 + lo
    ensures Stored32(Vr32(modern, v))
         == if modern then [lo % 0x100, lo / 0x100, hi % 0x100, hi / 0x100]
            else [hi / 0x100, hi % 0x100, lo / 0x100, lo % 0x100]
  {
    FieldBytes16(true, lo);
    FieldBytes16(true, hi);
    FieldBytes16(false, lo);
    FieldBytes16(false, hi);
    hide Swap16, Stored16;
    Halves(hi, lo, 0x1_0000);
    Halves(Swap16(lo), Swap16(hi), 0x1_0000);
  }

  lemma FieldBytes64(modern: bool, hi: uint32, lo: uint32, v: uint64)
    requires v == hi * 0x1_0000_0000 + lo
    ensures Stored64(Vr64(modern, v))
         == if modern then Stored32(Vr32(true, lo)) + Stored32(Vr32(true, hi)) else Stored32(hi) + Stored32(lo)
  {
    Halves(hi, lo, 0x1_0000_0000);
    Swap64Halves(v);
    hide Stored32, Swap32;
  }

  lemma Swap16Twice(v: uint16)
    ensures Swap16(Swap16(v)) == v
  {
    Halves(v % 0x100, v / 0x100, 0x100);
  }

  lemma Swap32Twice(v: uint32)
    ensures Swap32(Swap32(v)) == v
  {
    var hi, lo := Swap16(v % 0x1_0000), Swap16(v / 0x1_0000);
    Halves(hi, lo, 0x1_0000);
    Swap16Twice(v % 0x1_0000);
    Swap16Twice(v / 0x1_0000);
  }

  lemma Swap64Halves(v: uint64)
    ensures Swap64(v) / 0x1_0000_0000 == Swap32(v % 0x1_0000_0000)
    ensures Swap64(v) % 0x1_0000_0000 == Swap32(v / 0x1_0000_0000)
  {
    Halves(Swap32(v % 0x1_0000_0000), Swap32(v / 0x1_0000_0000), 0x1_0000_0000);
  }

  lemma Swap64Twice(v: uint64)
    ensures Swap64(Swap64(v)) == v
  {
    var hi, lo := v / 0x1_0000_0000, v % 0x1_0000_0000;
    Swap64Halves(v);
    Swap32Twice(hi);
    Swap32Twice(lo);
    calc {
      Swap64(Swap64(v));
      Swap32(Swap32(hi)) * 0x1_0000_0000 + Swap32(Swap32(lo));
      v;
    }
  }

  lemma Halves(hi: nat, lo: nat, scale: nat)
    requires lo < scale
    requires scale == 0x100 || scale == 0x1_0000 || scale == 0x1_0000_0000
    ensures (hi * scale + lo) / scale == hi
    ensures (hi * scale + lo) % scale == lo
  {}

  lemma {:induction false} BigEndianSplit(a: seq<uint8>, b: seq<uint8>, scale: nat)
    requires scale == if |b| == 2 then 0x1_0000 else 0x1_0000_0000
    requires |b| == 2 || |b| == 4
    ensures BigEndian(a + b) == BigEndian(a) * scale + BigEndian(b)
  {
    BigEndianLast(a, b);
    BigEndianLast(a, b[..|b| - 1]);
    BigEndianLast([], b);
    BigEndianLast([], b[..|b| - 1]);
    assert [] + b == b && [] + b[..|b| - 1] == b[..|b| - 1];
    if |b| == 2 {
      assert b[..1][..0] == [] && a + b[..1][..0] == a;
    } else {
      var c := b[..2];
      assert b[..3][..2] == c;
      BigEndianSplit(a, c, 0x1_0000);
      BigEndianLast([], c);
    }
  }

  lemma BigEndianLast(a: seq<uint8>, b: seq<uint8>)
    requires b != []
    ensures BigEndian(a + b) == BigEndian(a + b[..|b| - 1]) * 0x100 + b[|b| - 1]
  {
    assert (a + b)[..|a + b| - 1] == a + b[..|b| - 1];
  }

  lemma LittleEndianSplit(a: seq<uint8>, b: seq<uint8>)
    requires |a| == 2 || |a| == 4
    ensures |a| == 2 ==> LittleEndian(a + b) == LittleEndian(a) + 0x1_0000 * LittleEndian(b)
    ensures |a| == 4 ==> LittleEndian(a + b) == LittleEndian(a) + 0x1_0000_0000 * LittleEndian(b)
  {
    LittleEndianTwo(a, b);
    if |a| == 4 {
      var tail := a[2..];
      LittleEndianTwo(a[..2], tail + b);
      assert a[..2] + (tail + b) == a + b;
      LittleEndianTwo(tail, b);
      LittleEndianTwo(a[..2], tail);
      assert a[..2] + tail == a;
    }
  }

  lemma LittleEndianTwo(a: seq<uint8>, b: seq<uint8>)
    ensures |a| == 2 ==> LittleEndian(a + b) == LittleEndian(a) + 0x1_0000 * LittleEndian(b)
  {
    if |a| == 2 {
      assert (a + b)[1..] == a[1..] + b;
      assert (a[1..] + b)[1..] == b;
      assert a[1..][1..] == [];
      assert LittleEndian(a[1..]) == a[1];
    }
  }

  lemma Read2(v: uint16)
    ensures LittleEndian(Stored16(v)) == Swap16(v)
    ensures BigEndian(Stored16(v)) == v
  {
    var b := Stored16(v);
    assert b[..1][..0] == [] && BigEndian(b[..1]) == b[0];
    assert b[1..][1..] == [] && LittleEndian(b[1..]) == b[1];
  }

  lemma Read4(v: uint32)
    ensures LittleEndian(Stored32(v)) == Swap32(v)
    ensures BigEndian(Stored32(v)) == v
  {
    var hi, lo := Stored16(v / 0x1_0000), Stored16(v % 0x1_0000);
    Read2(v / 0x1_0000);
    Read2(v % 0x1_0000);
    LittleEndianSplit(hi, lo);
    BigEndianSplit(hi, lo, 0x1_0000);
  }

  lemma Read8(v: uint64)
    ensures LittleEndian(Stored64(v)) == Swap64(v)
    ensures BigEndian(Stored64(v)) == v
  {
    var hi, lo := Stored32(v / 0x1_0000_0000), Stored32(v % 0x1_0000_0000);
    Read4(v / 0x1_0000_0000);
    Read4(v % 0x1_0000_0000);
    LittleEndianSplit(hi, lo);
    BigEndianSplit(hi, lo, 0x1_0000_0000);
  }

  // ---------------------------------------------------------------------
  // Descriptors, and how a device follows them
  // ---------------------------------------------------------------------

  /** struct vring_desc and struct vring_indirect_desc, holding the values the
      CPU would load: the device sees the bytes of these. */
  datatype Desc = Desc(addr: uint64, len: uint32, flags: uint16, next: uint16)

  const CLEARED := Desc(0, 0, 0, 0)

  datatype DeviceView = DeviceView(addr: nat, len: nat, flags: nat, next: nat)

  function View(modern: bool, d: Desc): DeviceView
  {
    DeviceView(DeviceReads(modern, Stored64(d.addr)), DeviceReads(modern, Stored32(d.len)),
               DeviceReads(modern, Stored16(d.flags)), DeviceReads(modern, Stored16(d.next)))
  }

  predicate HasFlag(flags: nat, bit: uint16)
    requires bit > 0
  {
    flags / bit % 2 == 1
  }

  /** One element of the buffer the device is given. */
  datatype Segment = Segment(addr: nat, len: nat, writable: bool)

  /** The segments of a chain whose first node reads as `v`. */
  function Extend(v: DeviceView, rest: Option<seq<Segment>>): Option<seq<Segment>>
  {
    var here := [Segment(v.addr, v.len, HasFlag(v.flags, F_WRITE))];
    if !HasFlag(v.flags, F_NEXT) then Some(here)
    else if rest.None? then None
    else Some(here + rest.value)
  }

  /** A device following NEXT links through `table` from `idx`, giving up after
      `fuel` descriptors or at an index outside the table. */
  function Walk(modern: bool, table: seq<Desc>, idx: nat, fuel: nat): Option<seq<Segment>>
    decreases fuel
  {
    if fuel == 0 || idx >= |table| then None
    else
      var v := View(modern, table[idx]);
      if HasFlag(v.flags, F_NEXT) then Extend(v, Walk(modern, table, v.next, fuel - 1)) else Extend(v, None)
  }

  /** A device reading the request whose head was posted: an INDIRECT head
      names a table in memory, anything else starts a chain in the ring. */
  function ReadRequest(modern: bool, ring: seq<Desc>, memory: map<nat, seq<Desc>>, head: nat): Option<seq<Segment>>
  {
    if head >= |ring| then None
    else
      var v := View(modern, ring[head]);
      if !HasFlag(v.flags, F_INDIRECT) then Walk(modern, ring, head, |ring|)
      else if v.addr in memory && v.len == 16 * |memory[v.addr]| then
        Walk(modern, memory[v.addr], 0, |memory[v.addr]|)
      else None
  }

  /** What the driver's caller asked for: the first `outNum` entries readable,
      the others writable, in order. */
  function Segments(sg: seq<Sg>, outNum: nat): (r: seq<Segment>)
    ensures |r| == |sg|
  {
    seq(|sg|, n requires 0 <= n < |sg| => Segment(sg[n].addr, sg[n].len, n >= outNum))
  }

  function FlagsAt(n: nat, total: nat, outNum: nat): uint16
  {
    (if n >= outNum then F_WRITE else 0) + (if n + 1 < total then F_NEXT else 0)
  }

  function Encode(modern: bool, entry: Sg, flags: uint16, next: uint16): Desc
  {
    Desc(Vr64(modern, entry.addr), Vr32(modern, entry.len), Vr16(modern, flags), next)
  }

  /** Node `n` of `chain` describes entry `n` of `sg` and, unless it is the
      last, links to the next node.  The last link is not followed. */
  ghost predicate SpellsAt(modern: bool, table: seq<Desc>, chain: seq<nat>, sg: seq<Sg>, outNum: nat, n: nat)
    requires n < |chain| == |sg|
  {
    && chain[n] < |table|
    && var next := table[chain[n]].next;
    && table[chain[n]] == Encode(modern, sg[n], FlagsAt(n, |sg|, outNum), next)
    && (n + 1 < |sg| ==> chain[n + 1] < 0x1_0000 && next == Vr16(modern, chain[n + 1]))
  }

  /** The nodes `chain` of `table` spell out `sg`. */
  ghost predicate Spells(modern: bool, table: seq<Desc>, chain: seq<nat>, sg: seq<Sg>, outNum: nat)
  {
    |chain| == |sg| && forall n | 0 <= n < |sg| :: SpellsAt(modern, table, chain, sg, outNum, n)
  }

  lemma ViewOfEncode(modern: bool, entry: Sg, flags: uint16, next: uint16)
    ensures View(modern, Encode(modern, entry, flags, next))
         == DeviceView(entry.addr, entry.len, flags, DeviceReads(modern, Stored16(next)))
  {
    Vr64RoundTrip(modern, entry.addr);
    Vr32RoundTrip(modern, entry.len);
    Vr16RoundTrip(modern, flags);
  }

  /** One step of a walk, with what the device read given by name. */
  lemma WalkStep(modern: bool, table: seq<Desc>, idx: nat, fuel: nat, v: DeviceView)
    requires idx < |table| && fuel > 0 && View(modern, table[idx]) == v
    ensures Walk(modern, table, idx, fuel) == Extend(v, Walk(modern, table, v.next, fuel - 1))
  {}

  /** The flags of a chain node say what they were set from. */
  lemma FlagsMean(n: nat, total: nat, outNum: nat)
    ensures HasFlag(FlagsAt(n, total, outNum), F_WRITE) <==> n >= outNum
    ensures HasFlag(FlagsAt(n, total, outNum), F_NEXT) <==> n + 1 < total
    ensures !HasFlag(FlagsAt(n, total, outNum), F_INDIRECT)
    ensures FlagsAt(n, total, outNum) == (if n >= outNum then 2 else 0) + (if n + 1 < total then 1 else 0)
  {}

  /** What a chain's nodes hold, field by field. */
  lemma NodeFields(modern: bool, table: seq<Desc>, chain: seq<nat>, sg: seq<Sg>, outNum: nat, n: nat)
    requires Spells(modern, table, chain, sg, outNum) && n < |sg|
    ensures chain[n] < |table|
    ensures var d := table[chain[n]];
            && d.addr == Vr64(modern, sg[n].addr) && d.len == Vr32(modern, sg[n].len)
            && d.flags == Vr16(modern, (if n >= outNum then 2 else 0) + (if n + 1 < |sg| then 1 else 0))
            && (n + 1 < |sg| ==> chain[n + 1] < 0x1_0000 && d.next == Vr16(modern, chain[n + 1]))
  {
    assert SpellsAt(modern, table, chain, sg, outNum, n);
    FlagsMean(n, |sg|, outNum);
  }

  lemma ViewOfNode(modern: bool, table: seq<Desc>, chain: seq<nat>, sg: seq<Sg>, outNum: nat, n: nat)
    returns (v: DeviceView)
    requires n < |chain| == |sg| && SpellsAt(modern, table, chain, sg, outNum, n)
    ensures v == View(modern, table[chain[n]])
    ensures v.addr == sg[n].addr && v.len == sg[n].len && v.flags == FlagsAt(n, |sg|, outNum)
    ensures n + 1 < |sg| ==> v.next == chain[n + 1]
  {
    var next := table[chain[n]].next;
    ViewOfEncode(modern, sg[n], FlagsAt(n, |sg|, outNum), next);
    if n + 1 < |sg| {
      Vr16RoundTrip(modern, chain[n + 1]);
    }
    v := View(modern, table[chain[n]]);
  }

  /** Following the links yields the caller's list, in either byte order and
      whether `table` is the ring or an indirect table. */
  lemma {:induction false} WalkReadsSegments(modern: bool, table: seq<Desc>, chain: seq<nat>, sg: seq<Sg>, outNum: nat,
                                             n: nat, fuel: nat)
    requires Spells(modern, table, chain, sg, outNum)
    requires n < |sg| <= fuel + n
    ensures Walk(modern, table, chain[n], fuel) == Some(Segments(sg, outNum)[n..])
    decreases |sg| - n
  {
    assert SpellsAt(modern, table, chain, sg, outNum, n);
    var v := ViewOfNode(modern, table, chain, sg, outNum, n);
    WalkStep(modern, table, chain[n], fuel, v);
    FlagsMean(n, |sg|, outNum);
    var here := Segment(sg[n].addr, sg[n].len, n >= outNum);
    assert Segments(sg, outNum)[n..] == [here] + Segments(sg, outNum)[n + 1..];
    if n + 1 < |sg| {
      WalkReadsSegments(modern, table, chain, sg, outNum, n + 1, fuel - 1);
    } else {
      assert Segments(sg, outNum)[n..] == [here];
    }
  }
}
