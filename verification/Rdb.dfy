/** The probe for a rigid disk block (ensure_rdb_geometry_cached in
    src/scsi_cdb_helpers.c). */
module Rdb {
  import opened Types
  import opened VRing
  import Geometry

  const WRAP32: nat := 0x1_0000_0000
  const WRAP64: nat := 0x1_0000_0000_0000_0000
  const RDSK: seq<uint8> := [0x52, 0x44, 0x53, 0x4B]
  const PART: seq<uint8> := [0x50, 0x41, 0x52, 0x54]

  /** Longword `i` of a block. */
  function Long(block: seq<uint8>, i: nat): (w: uint32)
    requires 4 * i + 4 <= |block|
  {
    Geometry.Join4(block[4 * i], block[4 * i + 1], block[4 * i + 2], block[4 * i + 3])
  }

  lemma LongIs(block: seq<uint8>, i: nat)
    requires 4 * i + 4 <= |block|
    ensures Long(block, i) == BigEndian(block[4 * i..4 * i + 4])
  {
    Geometry.Word4(block[4 * i..4 * i + 4]);
  }

  /** The sum of the first `n` longwords. */
  function Sum(block: seq<uint8>, n: nat): nat
    requires 4 * n <= |block|
  {
    if n == 0 then 0 else Sum(block, n - 1) + Long(block, n - 1)
  }

  /** A header: the signature, a plausible count, and the counted longwords
      summing to zero. */
  ghost predicate Sealed(block: seq<uint8>)
    requires |block| >= 512
  {
    block[..4] == RDSK && 0 < Long(block, 1) <= 128 && Sum(block, Long(block, 1)) % WRAP32 == 0
  }

  /** The checks up to the checksum loop, which wraps at 32 bits. */
  method CheckSeal(block: seq<uint8>) returns (ok: bool)
    requires |block| >= 512
    ensures ok <==> Sealed(block)
  {
    if block[0] != 0x52 || block[1] != 0x44 || block[2] != 0x53 || block[3] != 0x4B {
      return false;
    }
    assert block[..4] == RDSK;
    var summed := Long(block, 1);
    if summed == 0 || summed > 128 {
      return false;
    }
    var cksum := Checksum(block, summed);
    ok := cksum == 0;
  }

  /** The loop over the summed longwords. */
  method Checksum(block: seq<uint8>, summed: nat) returns (cksum: uint32)
    requires 4 * summed <= |block|
    ensures cksum == Sum(block, summed) % WRAP32
  {
    hide Long;
    cksum := 0;
    var i := 0;
    while i < summed
      invariant 0 <= i <= summed && cksum == Sum(block, i) % WRAP32
    {
      AddWraps(Sum(block, i), Long(block, i));
      cksum := (cksum + Long(block, i)) % WRAP32;
      i := i + 1;
    }
  }

  lemma AddWraps(sum: nat, w: uint32)
    ensures (sum % WRAP32 + w) % WRAP32 == (sum + w) % WRAP32
  {}

  // ---------------------------------------------------------------------
  // What the seal is worth
  // ---------------------------------------------------------------------

  /** The checksum a tool stores, in longword 2: the negated sum of the others. */
  ghost predicate WrittenSeal(block: seq<uint8>)
    requires |block| >= 512
  {
    && block[..4] == RDSK && 3 <= Long(block, 1) <= 128
    && Long(block, 2) == (WRAP32 - (Sum(block, Long(block, 1)) - Long(block, 2)) % WRAP32) % WRAP32
  }

  /** A header with its checksum written passes. */
  lemma WrittenPasses(block: seq<uint8>)
    requires |block| >= 512 && WrittenSeal(block)
    ensures Sealed(block)
  {
    var n, c := Long(block, 1), Long(block, 2);
    SumHas(block, n, 2);
    Negated(Sum(block, n) - c, c);
  }

  lemma Negated(rest: nat, c: uint32)
    requires c == (WRAP32 - rest % WRAP32) % WRAP32
    ensures (rest + c) % WRAP32 == 0
  {}

  lemma {:induction false} SumHas(block: seq<uint8>, n: nat, j: nat)
    requires 4 * n <= |block| && j < n
    ensures Sum(block, n) >= Long(block, j)
  {
    if j < n - 1 {
      SumHas(block, n - 1, j);
    }
  }

  /** Changing one summed longword, the count apart, breaks the seal. */
  lemma OneChangeIsSeen(block: seq<uint8>, changed: seq<uint8>, j: nat)
    requires |block| >= 512 && |changed| == |block| && Sealed(block)
    requires j < Long(block, 1) && j != 1 && Long(changed, j) != Long(block, j)
    requires forall i: nat | i < 128 && i != j :: Long(changed, i) == Long(block, i)
    ensures !Sealed(changed)
  {
    var n := Long(block, 1);
    SumDiffers(block, changed, j, n);
    Apart(Sum(block, n), Sum(changed, n), Long(block, j), Long(changed, j));
  }

  lemma {:induction false} SumDiffers(block: seq<uint8>, changed: seq<uint8>, j: nat, n: nat)
    requires |changed| == |block| && 4 * n <= |block| && n <= 128
    requires forall i: nat | i < n && i != j :: Long(changed, i) == Long(block, i)
    ensures Sum(changed, n) - Sum(block, n) == if j < n then Long(changed, j) - Long(block, j) else 0
  {
    if n > 0 {
      SumDiffers(block, changed, j, n - 1);
    }
  }

  lemma Apart(a: nat, b: nat, x: uint32, y: uint32)
    requires b - a == y - x && x != y && a % WRAP32 == 0
    ensures b % WRAP32 != 0
  {}

  // ---------------------------------------------------------------------
  // The shape of the disk
  // ---------------------------------------------------------------------

  datatype Shape = Shape(cylinders: uint32, heads: uint32, sectors: uint32)

  /** The header's own shape. */
  function HeaderShape(block: seq<uint8>): Shape
    requires |block| >= 512
  {
    Shape(Long(block, 16), Long(block, 18), Long(block, 17))
  }

  /** Nothing zero, and the product, which wraps at 64 bits, within the disk. */
  predicate Plausible(s: Shape, totalBlocks: uint64)
  {
    s.cylinders != 0 && s.heads != 0 && s.sectors != 0 && s.cylinders * s.sectors * s.heads % WRAP64 <= totalBlocks
  }

  /** Whether a partition block's shape may stand in for the header's: both
      products wrap at 32 bits. */
  predicate Overrides(part: seq<uint8>, s: Shape)
    requires |part| >= 512
  {
    var surfaces, perTrack := Long(part, 35), Long(part, 37);
    part[..4] == PART && surfaces > 0 && perTrack > 0 && surfaces * perTrack % WRAP32 == s.sectors * s.heads % WRAP32
  }

  predicate HasPartition(block: seq<uint8>, totalBlocks: uint64)
    requires |block| >= 512
  {
    Long(block, 7) != 0xFFFF_FFFF && 0 < Long(block, 7) < totalBlocks
  }

  /** The probe of block 0 and of the first partition block, `part` being what
      reading that came to. */
  method ProbeShape(block: seq<uint8>, part: Option<seq<uint8>>, totalBlocks: uint64) returns (shape: Option<Shape>)
    requires |block| >= 512 && (part.Some? ==> |part.value| >= 512)
    ensures shape.Some? <==> Sealed(block) && Plausible(HeaderShape(block), totalBlocks)
    ensures shape.Some? ==>
      var h := HeaderShape(block);
      if HasPartition(block, totalBlocks) && part.Some? && Overrides(part.value, h)
      then shape.value == Shape(h.cylinders, Long(part.value, 35), Long(part.value, 37)) else shape.value == h
    // in the blocks' own longwords: 16, 17 and 18 are cylinders, sectors and heads
    ensures var cylinders, sectors, heads, next := Long(block, 16), Long(block, 17), Long(block, 18), Long(block, 7);
            && (shape.Some? <==>
                  && block[..4] == [0x52, 0x44, 0x53, 0x4B] && 0 < Long(block, 1) <= 128
                  && Sum(block, Long(block, 1)) % 0x1_0000_0000 == 0
                  && cylinders != 0 && sectors != 0 && heads != 0
                  && cylinders * sectors * heads % 0x1_0000_0000_0000_0000 <= totalBlocks)
            && (shape.Some? && (next == 0xFFFF_FFFF || next == 0 || next >= totalBlocks || part.None?) ==>
                  shape.value == Shape(cylinders, heads, sectors))
            && (shape.Some? && next != 0xFFFF_FFFF && 0 < next < totalBlocks && part.Some? ==>
                  var surfaces, perTrack := Long(part.value, 35), Long(part.value, 37);
                  shape.value == if part.value[..4] == [0x50, 0x41, 0x52, 0x54] && surfaces != 0 && perTrack != 0
                                    && surfaces * perTrack % 0x1_0000_0000 == sectors * heads % 0x1_0000_0000
                                 then Shape(cylinders, surfaces, perTrack) else Shape(cylinders, heads, sectors))
  {
    var sealed := CheckSeal(block);
    if !sealed {
      return None;
    }
    var s := HeaderShape(block);
    if s.cylinders == 0 || s.sectors == 0 || s.heads == 0 || s.cylinders * s.sectors * s.heads % WRAP64 > totalBlocks {
      return None;
    }
    shape := Some(s);
    var partBlock := Long(block, 7);
    if partBlock != 0xFFFF_FFFF && 0 < partBlock < totalBlocks && part.Some? && part.value[..4] == PART {
      var surfaces, perTrack := Long(part.value, 35), Long(part.value, 37);
      if surfaces > 0 && perTrack > 0 && surfaces * perTrack % WRAP32 == s.sectors * s.heads % WRAP32 {
        shape := Some(Shape(s.cylinders, surfaces, perTrack));
      }
    }
  }

  /** The guard compares wrapped products.  When one of them fits 32 bits, an
      accepted override keeps the blocks of a cylinder exactly if and only if the
      other fits too. */
  lemma OverrideKeepsCylinder(part: seq<uint8>, s: Shape)
    requires |part| >= 512 && Overrides(part, s)
    ensures var now, before := Long(part, 35) * Long(part, 37), s.heads * s.sectors;
            && (before < WRAP32 ==> (now == before <==> now < WRAP32))
            && (now < WRAP32 ==> (now == before <==> before < WRAP32))
  {
    var now, before := Long(part, 35) * Long(part, 37), s.heads * s.sectors;
    assert now % WRAP32 == before % WRAP32 by {
      assert s.sectors * s.heads == s.heads * s.sectors;
    }
    hide Long, Overrides;
    FitsIffEqual(now, before);
    FitsIffEqual(before, now);
  }

  lemma FitsIffEqual(a: nat, b: nat)
    requires a % WRAP32 == b % WRAP32
    ensures b < WRAP32 ==> (a == b <==> a < WRAP32)
  {}

  // ---------------------------------------------------------------------
  // A disk whose cylinder grows
  // ---------------------------------------------------------------------

  /** The block whose longwords `f` gives. */
  function FromLongs(f: nat -> uint32): (block: seq<uint8>)
    ensures |block| == 512
  {
    seq<uint8>(512, b requires 0 <= b < 512 => ByteOf(f(b / 4), b % 4))
  }

  function ByteOf(w: uint32, b: nat): uint8
    requires b < 4
  {
    if b == 0 then w / 0x100 / 0x100 / 0x100
    else if b == 1 then w / 0x100 / 0x100 % 0x100
    else if b == 2 then w / 0x100 % 0x100
    else w % 0x100
  }

  lemma BytesBack(w: uint32)
    ensures Geometry.Join4(ByteOf(w, 0), ByteOf(w, 1), ByteOf(w, 2), ByteOf(w, 3)) == w
  {
    var q := w / 0x100;
    var p := q / 0x100;
    assert p == p / 0x100 * 0x100 + p % 0x100 && q == p * 0x100 + q % 0x100 && w == q * 0x100 + w % 0x100;
  }

  lemma LongsBack(f: nat -> uint32, i: nat)
    requires i < 128
    ensures Long(FromLongs(f), i) == f(i)
  {
    var block, w := FromLongs(f), f(i);
    BytesBack(w);
    hide ByteOf, Geometry.Join4;
    assert (4 * i + 1) / 4 == i && (4 * i + 2) / 4 == i && (4 * i + 3) / 4 == i;
    assert block[4 * i] == ByteOf(w, 0) && block[4 * i + 1] == ByteOf(w, 1);
    assert block[4 * i + 2] == ByteOf(w, 2) && block[4 * i + 3] == ByteOf(w, 3);
  }

  lemma SignatureOf(f: nat -> uint32)
    ensures FromLongs(f)[..4] == [ByteOf(f(0), 0), ByteOf(f(0), 1), ByteOf(f(0), 2), ByteOf(f(0), 3)]
  {
    hide ByteOf;
  }

  /** A header of 64 summed longwords: 1 cylinder of 1 head and 65536 sectors,
      and the first partition block at block 1. */
  function HeaderLong(i: nat): uint32
  {
    if i == 0 then 0x5244_534B else if i == 1 then 64 else if i == 2 then SEAL
    else if i == 7 || i == 16 || i == 18 then 1 else if i == 17 then 65536 else 0
  }

  const SEAL: uint32 := 0x1_0000_0000 - 0x5244_534B - 64 - 3 - 65536

  /** A partition block that declares 65536 surfaces of 65537 blocks. */
  function PartLong(i: nat): uint32
  {
    if i == 0 then 0x5041_5254 else if i == 35 then 65536 else if i == 37 then 65537 else 0
  }

  lemma {:induction false} SumSkips(block: seq<uint8>, m: nat, n: nat)
    requires m <= n && 4 * n <= |block|
    requires forall i | m <= i < n :: Long(block, i) == 0
    ensures Sum(block, n) == Sum(block, m)
  {
    if m < n {
      SumSkips(block, m, n - 1);
    }
  }

  lemma HeaderSum(block: seq<uint8>)
    requires |block| == 512 && forall i: nat | i < 64 :: Long(block, i) == HeaderLong(i)
    ensures Sum(block, 64) == WRAP32
  {
    assert Sum(block, 3) == HeaderLong(0) + HeaderLong(1) + HeaderLong(2) by {
      assert Sum(block, 2) == Sum(block, 1) + HeaderLong(1);
    }
    SumSkips(block, 3, 7);
    assert Sum(block, 8) == Sum(block, 7) + 1;
    SumSkips(block, 8, 16);
    assert Sum(block, 17) == Sum(block, 16) + 1;
    assert Sum(block, 18) == Sum(block, 17) + 65536;
    assert Sum(block, 19) == Sum(block, 18) + 1;
    SumSkips(block, 19, 64);
  }

  ghost predicate GrowingPair(header: seq<uint8>, part: seq<uint8>)
  {
    && |header| == |part| == 512 && header[..4] == RDSK && part[..4] == PART
    && (forall i: nat | i < 128 :: Long(header, i) == HeaderLong(i))
    && (forall i: nat | i < 128 :: Long(part, i) == PartLong(i))
  }

  lemma AllBack(f: nat -> uint32)
    ensures forall i: nat | i < 128 :: Long(FromLongs(f), i) == f(i)
  {
    hide Long, FromLongs;
    forall i: nat | i < 128
      ensures Long(FromLongs(f), i) == f(i)
    {
      LongsBack(f, i);
    }
  }

  lemma Signatures()
    ensures FromLongs(HeaderLong)[..4] == RDSK && FromLongs(PartLong)[..4] == PART
  {
    hide FromLongs;
    SignatureOf(HeaderLong);
    SignatureOf(PartLong);
  }

  lemma PairIsGrowing(header: seq<uint8>, part: seq<uint8>)
    requires header == FromLongs(HeaderLong) && part == FromLongs(PartLong)
    ensures GrowingPair(header, part)
  {
    hide FromLongs, Long, HeaderLong, PartLong;
    AllBack(HeaderLong);
    AllBack(PartLong);
    Signatures();
  }

  lemma PairIsAccepted(header: seq<uint8>, part: seq<uint8>)
    requires GrowingPair(header, part)
    ensures Sealed(header) && HeaderShape(header) == Shape(1, 1, 65536) && Plausible(HeaderShape(header), 0x2_0000)
    ensures HasPartition(header, 0x2_0000) && Overrides(part, HeaderShape(header))
    ensures Long(part, 35) == 65536 && Long(part, 37) == 65537
  {
    hide Long, Sum;
    HeaderSum(header);
  }

  /** A sealed header and a partition block that the probe accepts: it then
      reports a cylinder of 2^32 + 65536 blocks for one of 65536. */
  method ProbeGrowsCylinder() returns (header: seq<uint8>, part: seq<uint8>, shape: Option<Shape>)
    ensures |header| == |part| == 512 && Sealed(header) && Plausible(HeaderShape(header), 0x2_0000)
    ensures HasPartition(header, 0x2_0000) && Overrides(part, HeaderShape(header))
    ensures shape.Some? && shape.value.cylinders == HeaderShape(header).cylinders
    ensures shape.value.heads * shape.value.sectors
         == HeaderShape(header).heads * HeaderShape(header).sectors + WRAP32
  {
    hide Long, Sealed, Plausible, Overrides, HasPartition, FromLongs, GrowingPair;
    header, part := FromLongs(HeaderLong), FromLongs(PartLong);
    PairIsGrowing(header, part);
    PairIsAccepted(header, part);
    shape := ProbeShape(header, Some(part), 0x2_0000);
  }
}
