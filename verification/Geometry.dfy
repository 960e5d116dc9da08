/** Capacity to disk geometry (ensure_geometry_cached in
    src/scsi_cdb_helpers.c, Handle_TD_GetGeometry in
    src/exec_cmds/cmd_td_getgeometry.c). */
module Geometry {
  import opened Types
  import opened VRing
  import opened Counters

  const MAX32: nat := 0xFFFF_FFFF

  // ---------------------------------------------------------------------
  // READ CAPACITY
  // ---------------------------------------------------------------------

  /** What a DoIO came to: its own result, the SCSI status, the data read. */
  datatype Probe = Probe(rc: int, status: uint8, data: seq<uint8>)

  datatype Outcome = Fine | BadStatus | BadLength | Failed(rc: int)

  /** A device whose last block is `last`, as SBC-3 sections 5.15 and 5.16 have
      it answer. */
  function Capacity10(last: uint64, blockSize: uint32): seq<uint8>
  {
    Stored32(if last > MAX32 then MAX32 else last) + Stored32(blockSize)
  }

  ghost predicate Capacity16(data: seq<uint8>, last: uint64, blockSize: uint32)
  {
    |data| == 32 && data[..8] == Stored64(last) && data[8..12] == Stored32(blockSize)
  }

  class UnitGeometry {
    var valid: bool
    var blockSize: uint32
    var totalBlocks: uint64

    constructor ()
      ensures !valid
    {
      valid, blockSize, totalBlocks := false, 0, 0;
    }

    /** READ CAPACITY (10), then (16) when the short answer is saturated.
        `ten` and `sixteen` are what the two commands come to if issued. */
    method EnsureCached(ten: Probe, sixteen: Probe) returns (o: Outcome)
      requires |ten.data| == 8 && |sixteen.data| == 32
      modifies this
      ensures old(valid) ==> o == Fine && unchanged(this)
      ensures !old(valid) ==> o == Discovered(ten, sixteen) && valid == (o == Fine)
      ensures !old(valid) && o != Fine ==> unchanged(this)
      ensures !old(valid) && o == Fine ==> Learnt(this, ten, sixteen)
      // the short answer is asked for first, and the long one only if it is saturated
      ensures !old(valid) ==>
        && (ten.rc != 0 ==> o == Failed(ten.rc))
        && (ten.rc == 0 && ten.status != 0 ==> o == BadStatus)
        && (ten.rc == 0 && ten.status == 0 ==>
              if BigEndian(ten.data[..4]) != 0xFFFF_FFFF
              then o == Fine && totalBlocks == BigEndian(ten.data[..4]) + 1 && blockSize == BigEndian(ten.data[4..8])
              else && (sixteen.rc != 0 ==> o == Failed(sixteen.rc))
                   && (sixteen.rc == 0 && sixteen.status != 0 ==> o == BadStatus)
                   && (sixteen.rc == 0 && sixteen.status == 0 ==>
                         && o == Fine && blockSize == BigEndian(sixteen.data[8..12])
                         && totalBlocks == (BigEndian(sixteen.data[..8]) + 1) % 0x1_0000_0000_0000_0000))
    {
      if valid {
        return Fine;
      }
      if ten.rc != 0 {
        return Failed(ten.rc);
      }
      if ten.status != 0 {
        return BadStatus;
      }
      Word4(ten.data[..4]);
      Word4(ten.data[4..8]);
      var last10: uint32 := Join4(ten.data[0], ten.data[1], ten.data[2], ten.data[3]);
      if last10 == MAX32 {
        if sixteen.rc != 0 {
          return Failed(sixteen.rc);
        }
        if sixteen.status != 0 {
          return BadStatus;
        }
        var d := sixteen.data;
        Word8(d[..8]);
        Word4(d[8..12]);
        var high: uint32 := Join4(d[0], d[1], d[2], d[3]);
        var low: uint32 := Join4(d[4], d[5], d[6], d[7]);
        blockSize := Join4(d[8], d[9], d[10], d[11]);
        totalBlocks := (high * 0x1_0000_0000 + low + 1) % 0x1_0000_0000_0000_0000;
      } else {
        blockSize := Join4(ten.data[4], ten.data[5], ten.data[6], ten.data[7]);
        totalBlocks := last10 + 1;
      }
      valid := true;
      o := Fine;
    }
  }

  /** The capacity the answers tell of. */
  ghost predicate Learnt(unit: UnitGeometry, ten: Probe, sixteen: Probe)
    requires |ten.data| == 8 && |sixteen.data| == 32
    reads unit
  {
    var last10 := BigEndian(ten.data[..4]);
    if last10 == MAX32
    then unit.totalBlocks == (BigEndian(sixteen.data[..8]) + 1) % 0x1_0000_0000_0000_0000
         && unit.blockSize == BigEndian(sixteen.data[8..12])
    else unit.totalBlocks == last10 + 1 && unit.blockSize == BigEndian(ten.data[4..8])
  }

  function Discovered(ten: Probe, sixteen: Probe): Outcome
    requires |ten.data| == 8
  {
    if ten.rc != 0 then Failed(ten.rc)
    else if ten.status != 0 then BadStatus
    else if BigEndian(ten.data[..4]) != MAX32 then Fine
    else if sixteen.rc != 0 then Failed(sixteen.rc)
    else if sixteen.status != 0 then BadStatus
    else Fine
  }

  /** Four bytes, the first shifted furthest. */
  function Join4(a: nat, b: nat, c: nat, d: nat): uint32
    requires a < 0x100 && b < 0x100 && c < 0x100 && d < 0x100
  {
    0x100_0000 * a + 0x1_0000 * b + 0x100 * c + d
  }

  lemma Word4(b: seq<uint8>)
    requires |b| == 4
    ensures BigEndian(b) == Join4(b[0], b[1], b[2], b[3])
  {
    var b3 := b[..3];
    var b2 := b3[..2];
    assert BigEndian(b2[..1]) == b[0];
    assert BigEndian(b2) == BigEndian(b2[..1]) * 0x100 + b[1];
    assert BigEndian(b3) == BigEndian(b2) * 0x100 + b[2];
    assert BigEndian(b) == BigEndian(b3) * 0x100 + b[3];
  }

  lemma Word8(b: seq<uint8>)
    requires |b| == 8
    ensures BigEndian(b) == BigEndian(b[..4]) * 0x1_0000_0000 + BigEndian(b[4..])
    ensures BigEndian(b[..4]) == Join4(b[0], b[1], b[2], b[3])
    ensures BigEndian(b[4..]) == Join4(b[4], b[5], b[6], b[7])
  {
    assert b == b[..4] + b[4..];
    BigEndianSplit(b[..4], b[4..], 0x1_0000_0000);
    Word4(b[..4]);
    Word4(b[4..]);
  }

  /** Whatever its size, an honest device's capacity is learnt exactly; only the
      block count of a device with 2^64 blocks does not fit and reads as 0. */
  lemma CapacityLearnt(last: uint64, bs: uint32, ten: Probe, sixteen: Probe)
    requires ten == Probe(0, 0, Capacity10(last, bs)) && sixteen == Probe(0, 0, sixteen.data)
    requires Capacity16(sixteen.data, last, bs)
    ensures |ten.data| == 8 && Discovered(ten, sixteen) == Fine
    ensures var last10 := BigEndian(ten.data[..4]);
            && (if last10 == MAX32 then BigEndian(sixteen.data[..8]) else last10) == last
            && (if last10 == MAX32 then BigEndian(sixteen.data[8..12]) else BigEndian(ten.data[4..8])) == bs
  {
    var shown: uint32 := if last > MAX32 then MAX32 else last;
    Vr32RoundTrip(false, shown);
    Vr32RoundTrip(false, bs);
    Vr64RoundTrip(false, last);
    assert ten.data[..4] == Stored32(shown) && ten.data[4..8] == Stored32(bs);
    hide BigEndian, Stored32, Stored64;
  }

  // ---------------------------------------------------------------------
  // The logical cylinder
  // ---------------------------------------------------------------------

  predicate Divides(d: nat, n: nat) { d > 0 && n % d == 0 }

  /** `g` is the greatest common divisor: it divides both, and all that divides
      both divides it. */
  ghost predicate IsGcd(g: nat, a: nat, b: nat)
  {
    Divides(g, a) && Divides(g, b) && forall d | Divides(d, a) && Divides(d, b) :: Divides(d, g)
  }

  lemma DividesMul(d: nat, q: nat)
    requires d > 0
    ensures Divides(d, d * q)
  {
    DivModUnique(d * q, d, q, 0);
  }

  lemma Quotient(d: nat, n: nat) returns (q: nat)
    requires Divides(d, n)
    ensures n == d * q
  {
    q := n / d;
  }

  /** If d divides c * t, t odd, and c * m, both powers of two, it divides c. */
  lemma {:induction false} SharedPart(c: nat, t: nat, m: nat, d: nat, p: nat, q: nat) returns (r: nat)
    requires PowerOfTwo(c) && PowerOfTwo(m) && (t % 2 == 1 || m == 1) && d > 0
    requires c * t == d * p && c * m == d * q
    ensures c == d * r
    decreases c + m
  {
    r := q;
    if m == 1 {
    } else if d % 2 == 1 {
      TwiceOut(c, m);
      OddFactor(d, q, c * (m / 2));
      TwiceOut(d, q);
      r := SharedPart(c, t, m / 2, d, p, q / 2);
    } else if c == 1 {
      TwiceOut(p, d);
    } else {
      TwiceOut(t, c);
      TwiceOut(m, c);
      TwiceOut(p, d);
      TwiceOut(q, d);
      r := SharedPart(c / 2, t, m, d / 2, p, q);
      TwiceOut(r, d);
    }
  }

  lemma TwiceOut(a: nat, b: nat)
    ensures b % 2 == 0 ==> a * b == 2 * (a * (b / 2)) && b * a == 2 * (b / 2 * a)
  {
    if b % 2 == 0 {
      var h := b / 2;
      assert b == 2 * h;
    }
  }

  lemma OddFactor(d: nat, q: nat, n: nat)
    requires d % 2 == 1 && d * q == 2 * n
    ensures q % 2 == 0
  {
    TwiceOut(q, d - 1);
    assert d * q == (d - 1) * q + q;
  }

  /** How far the loop can still go. */
  predicate Doubling(c: nat, rest: nat)
  {
    || (c == 1 && rest == 256)
    || (c == 2 && rest == 128)
    || (c == 4 && rest == 64)
    || (c == 8 && rest == 32)
    || (c == 16 && rest == 16)
    || (c == 32 && rest == 8)
    || (c == 64 && rest == 4)
    || (c == 128 && rest == 2)
    || (c == 256 && rest == 1)
  }

  lemma CommonPart(c: nat, t: nat, rest: nat)
    requires Doubling(c, rest) && (t % 2 == 1 || rest == 1)
    ensures IsGcd(c, t * c, 256)
  {
    assert c * rest == 256;
    DividesMul(c, t);
    DividesMul(c, rest);
    DoublingPowers(c, rest);
    forall d | Divides(d, t * c) && Divides(d, 256)
      ensures Divides(d, c)
    {
      var p := Quotient(d, t * c);
      var q := Quotient(d, 256);
      var r := SharedPart(c, t, rest, d, p, q);
      DividesMul(d, r);
    }
  }

  lemma DoublingPowers(c: nat, rest: nat)
    requires Doubling(c, rest)
    ensures PowerOfTwo(c) && PowerOfTwo(rest)
  {
    assert PowerOfTwo(8);
    assert PowerOfTwo(64);
  }

  /** The loop of Handle_TD_GetGeometry: the largest power of two up to 256 that
      divides the capacity is its greatest common divisor with 256. */
  method CylinderOf(blocks: uint64) returns (t: uint64, cylSectors: uint32)
    ensures t * cylSectors == blocks && IsGcd(cylSectors, blocks, 256)
    ensures blocks == 0 ==> t == 0
    ensures cylSectors in {1, 2, 4, 8, 16, 32, 64, 128, 256} && (t % 2 == 1 || cylSectors == 256)
  {
    hide Divides, IsGcd;
    t, cylSectors := blocks, 1;
    ghost var rest: nat := 256;
    while t % 2 == 0 && cylSectors < 256
      invariant Doubling(cylSectors, rest) && t * cylSectors == blocks
      decreases rest
    {
      HalveDouble(t, cylSectors);
      t, cylSectors, rest := t / 2, cylSectors * 2, rest / 2;
    }
    CommonPart(cylSectors, t, rest);
    if blocks == 0 {
      ZeroFactor(t, cylSectors);
    }
  }

  lemma HalveDouble(t: nat, c: nat)
    requires t % 2 == 0
    ensures t / 2 * (c * 2) == t * c
  {
    TwiceOut(c, t);
  }

  lemma ZeroFactor(t: nat, c: nat)
    requires t * c == 0 && c > 0
    ensures t == 0
  {}

  // ---------------------------------------------------------------------
  // TD_GETGEOMETRY
  // ---------------------------------------------------------------------

  datatype DriveGeometry = DriveGeometry(
    sectorSize: uint32, totalSectors: uint32, cylinders: uint32, cylSectors: uint32, heads: uint32,
    trackSectors: uint32, bufMemType: uint32, deviceType: uint8, flags: uint8, reserved: uint16)

  const CLEARED_GEOMETRY := DriveGeometry(0, 0, 0, 0, 0, 0, 0, 0, 0, 0)
  const GEOMETRY_SIZE: nat := 32
  const PUBLIC_LOCAL: uint32 := 0x101

  function Clamp(n: nat): uint32 { if n > MAX32 then MAX32 else n }

  /** What the handler reports of a capacity. */
  ghost predicate Reports(g: DriveGeometry, blocks: uint64, blockSize: uint32)
  {
    && g.sectorSize == blockSize && g.totalSectors == Clamp(blocks)
    && IsGcd(g.cylSectors, blocks, 256) && g.cylSectors > 0
    && g.cylinders == (if blocks == 0 then 1 else Clamp(blocks / g.cylSectors))
    && g.heads == g.cylSectors && g.trackSectors == 1
    && g.bufMemType == PUBLIC_LOCAL && g.deviceType == 0 && g.flags == 0 && g.reserved == 0
  }

  /** Handle_TD_GetGeometry.  `caller` is the caller's struct as it was and
      `oldActual` its io_Actual; the request may have no unit. */
  method GetGeometry(unit: UnitGeometry?, caller: DriveGeometry, oldActual: uint32, length: uint32,
                     ten: Probe, sixteen: Probe)
    returns (o: Outcome, g: DriveGeometry, actual: uint32)
    requires |ten.data| == 8 && |sixteen.data| == 32
    modifies unit
    ensures length < GEOMETRY_SIZE ==>
      o == BadLength && g == caller && actual == oldActual && (unit != null ==> unchanged(unit))
    ensures length >= GEOMETRY_SIZE ==>
      o == if unit == null then BadStatus else if old(unit.valid) then Fine else Discovered(ten, sixteen)
    ensures o == Fine ==>
      unit != null && unit.valid && Reports(g, unit.totalBlocks, unit.blockSize) && actual == GEOMETRY_SIZE
    ensures o == Fine ==>
      var blocks := unit.totalBlocks;
      && g.cylSectors in {1, 2, 4, 8, 16, 32, 64, 128, 256}
      && var t := blocks / g.cylSectors;
         && t * g.cylSectors == blocks && (t % 2 == 1 || g.cylSectors == 256)
         && g.cylinders == (if t == 0 then 1 else if t > 0xFFFF_FFFF then 0xFFFF_FFFF else t)
         && g.sectorSize == unit.blockSize && g.totalSectors == (if blocks > 0xFFFF_FFFF then 0xFFFF_FFFF else blocks)
         && g.heads == g.cylSectors && g.trackSectors == 1 && g.bufMemType == 0x101
         && g.deviceType == 0 && g.flags == 0 && g.reserved == 0
    ensures length >= GEOMETRY_SIZE && unit != null && !old(unit.valid) && o == Fine ==> Learnt(unit, ten, sixteen)
    ensures o != Fine && length >= GEOMETRY_SIZE ==>
      g == CLEARED_GEOMETRY && actual == if unit == null then oldActual else 0
  {
    hide IsGcd, Divides, Discovered;
    g, actual := caller, oldActual;
    if length < GEOMETRY_SIZE {
      return BadLength, g, actual;
    }
    g := CLEARED_GEOMETRY;
    if unit == null {
      return BadStatus, g, actual;
    }
    o := unit.EnsureCached(ten, sixteen);
    if o != Fine {
      actual := 0;
      return;
    }
    g := Synthesize(unit.totalBlocks, unit.blockSize);
    actual := GEOMETRY_SIZE;
  }

  /** The logical geometry of a capacity. */
  method Synthesize(blocks: uint64, blockSize: uint32) returns (g: DriveGeometry)
    ensures Reports(g, blocks, blockSize)
    ensures g.cylSectors in {1, 2, 4, 8, 16, 32, 64, 128, 256}
    ensures var t := blocks / g.cylSectors;
            && t * g.cylSectors == blocks && (t % 2 == 1 || g.cylSectors == 256)
            && g.cylinders == if t == 0 then 1 else if t > 0xFFFF_FFFF then 0xFFFF_FFFF else t
    ensures g.sectorSize == blockSize && g.totalSectors == if blocks > 0xFFFF_FFFF then 0xFFFF_FFFF else blocks
    ensures g.heads == g.cylSectors && g.trackSectors == 1 && g.bufMemType == 0x101
    ensures g.deviceType == 0 && g.flags == 0 && g.reserved == 0
  {
    hide IsGcd, Divides;
    var t, cylSectors := CylinderOf(blocks);
    CylinderCount(blocks, t, cylSectors);
    var cylinders: uint32 := if t > MAX32 then MAX32 else t;
    if cylinders == 0 {
      cylinders := 1;
    }
    g := CLEARED_GEOMETRY.(sectorSize := blockSize,
                           totalSectors := if blocks > MAX32 then MAX32 else blocks,
                           cylinders := cylinders, cylSectors := cylSectors, heads := cylSectors, trackSectors := 1,
                           bufMemType := PUBLIC_LOCAL, deviceType := 0, flags := 0);
  }

  lemma CylinderCount(blocks: nat, t: nat, c: nat)
    requires t * c == blocks && IsGcd(c, blocks, 256)
    ensures c > 0 && blocks / c == t && (t == 0 <==> blocks == 0)
  {
    DivModUnique(blocks, c, t, 0);
    if blocks == 0 {
      ZeroFactor(t, c);
    }
  }

  /** Cylinders times blocks per cylinder is the capacity exactly whenever the
      count of cylinders fits its field, and only then; the count of sectors is
      never 0 for a capacity that is not. */
  lemma GeometryIsExact(g: DriveGeometry, blocks: uint64, blockSize: uint32)
    requires Reports(g, blocks, blockSize) && blocks > 0
    ensures g.cylinders * g.cylSectors == blocks <==> blocks / g.cylSectors <= MAX32
    ensures g.heads * g.trackSectors == g.cylSectors && g.totalSectors > 0
    ensures g.totalSectors == if blocks < 0x1_0000_0000 then blocks else MAX32
  {
    var c := g.cylSectors;
    var t := Quotient(c, blocks);
    DivModUnique(blocks, c, t, 0);
    assert blocks / c == t;
    if t > MAX32 {
      MulStep(c, MAX32, t);
    }
  }

  /** From an honest device to the caller's struct: the geometry is that of its
      true capacity, 2^32 blocks and its neighbours included. */
  method DiscoverAndReport(unit: UnitGeometry, caller: DriveGeometry, last: uint64, bs: uint32, long: seq<uint8>)
    returns (g: DriveGeometry)
    requires !unit.valid && last < 0xFFFF_FFFF_FFFF_FFFF && Capacity16(long, last, bs)
    modifies unit
    ensures unit.valid && unit.totalBlocks == last + 1 && unit.blockSize == bs
    ensures Reports(g, last + 1, bs)
  {
    hide BigEndian, Reports, Stored32, Stored64;
    var ten, sixteen := Probe(0, 0, Capacity10(last, bs)), Probe(0, 0, long);
    CapacityLearnt(last, bs, ten, sixteen);
    var o, actual;
    o, g, actual := GetGeometry(unit, caller, 0, GEOMETRY_SIZE, ten, sixteen);
  }
}
