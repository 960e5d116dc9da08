/** Command descriptor blocks for block I/O (src/scsi_cdb_helpers.c and
    submit_block_io in src/unit_task.c). */
module Cdb {
  import opened Types
  import opened VRing
  import opened Counters
  import opened IoRequests

  const CDB_SIZE: nat := 32

  // ---------------------------------------------------------------------
  // What a target reads: SBC-3 sections 5.11 and 5.13 and their WRITE
  // counterparts.  Fields are big-endian.
  // ---------------------------------------------------------------------

  datatype BlockCommand = BlockCommand(isWrite: bool, lba: nat, blocks: nat)

  function Decode(cdb: seq<uint8>): Option<BlockCommand>
  {
    if |cdb| >= 10 && (cdb[0] == 0x28 || cdb[0] == 0x2A) then
      Some(BlockCommand(cdb[0] == 0x2A, BigEndian(cdb[2..6]), BigEndian(cdb[7..9])))
    else if |cdb| >= 16 && (cdb[0] == 0x88 || cdb[0] == 0x8A) then
      Some(BlockCommand(cdb[0] == 0x8A, BigEndian(cdb[2..10]), BigEndian(cdb[10..14])))
    else None
  }

  // ---------------------------------------------------------------------
  // The builders
  // ---------------------------------------------------------------------

  predicate Is10(cdb: seq<uint8>, op: uint8, lba: uint32, blocks: uint16)
  {
    |cdb| >= 10 && cdb[0] == op && cdb[2..6] == Stored32(lba) && cdb[7..9] == Stored16(blocks)
    && cdb[1] == 0 && cdb[6] == 0 && cdb[9] == 0
  }

  predicate Is16(cdb: seq<uint8>, op: uint8, lba: uint64, blocks: uint32)
  {
    |cdb| >= 16 && cdb[0] == op && cdb[2..10] == Stored64(lba) && cdb[10..14] == Stored32(blocks)
    && cdb[1] == 0 && cdb[14] == 0 && cdb[15] == 0
  }

  function Big16(hi: nat, lo: nat): nat { 0x100 * hi + lo }

  function Big32(a: nat, b: nat, c: nat, d: nat): nat { 0x100_0000 * a + 0x1_0000 * b + 0x100 * c + d }

  /** make_read10_cdb and make_write10_cdb, which differ in the opcode. */
  method Make10(cdb: array<uint8>, op: uint8, lba: uint32, blocks: uint16)
    requires cdb.Length >= 10
    modifies cdb
    ensures Is10(cdb[..], op, lba, blocks) && cdb[10..] == old(cdb[10..])
    ensures cdb[0] == op && cdb[1] == 0 && cdb[6] == 0 && cdb[9] == 0
    ensures Big32(cdb[2], cdb[3], cdb[4], cdb[5]) == lba
    ensures Big16(cdb[7], cdb[8]) == blocks
  {
    cdb[0], cdb[1] := op, 0;
    cdb[2], cdb[3] := lba / 0x100_0000 % 0x100, lba / 0x1_0000 % 0x100;
    cdb[4], cdb[5] := lba / 0x100 % 0x100, lba % 0x100;
    cdb[6], cdb[7], cdb[8], cdb[9] := 0, blocks / 0x100 % 0x100, blocks % 0x100, 0;
    Bytes4(lba);
    Joined4(lba);
  }

  /** make_read16_cdb and make_write16_cdb. */
  method Make16(cdb: array<uint8>, op: uint8, lba: uint64, blocks: uint32)
    requires cdb.Length >= 16
    modifies cdb
    ensures Is16(cdb[..], op, lba, blocks) && cdb[16..] == old(cdb[16..])
    ensures cdb[0] == op && cdb[1] == 0 && cdb[14] == 0 && cdb[15] == 0
    ensures 0x1_0000_0000 * Big32(cdb[2], cdb[3], cdb[4], cdb[5]) + Big32(cdb[6], cdb[7], cdb[8], cdb[9]) == lba
    ensures Big32(cdb[10], cdb[11], cdb[12], cdb[13]) == blocks
  {
    cdb[0], cdb[1] := op, 0;
    cdb[2], cdb[3] := lba / 0x100_0000_0000_0000 % 0x100, lba / 0x1_0000_0000_0000 % 0x100;
    cdb[4], cdb[5] := lba / 0x100_0000_0000 % 0x100, lba / 0x1_0000_0000 % 0x100;
    cdb[6], cdb[7] := lba / 0x100_0000 % 0x100, lba / 0x1_0000 % 0x100;
    cdb[8], cdb[9] := lba / 0x100 % 0x100, lba % 0x100;
    cdb[10], cdb[11] := blocks / 0x100_0000 % 0x100, blocks / 0x1_0000 % 0x100;
    cdb[12], cdb[13] := blocks / 0x100 % 0x100, blocks % 0x100;
    cdb[14], cdb[15] := 0, 0;
    Wrote16(cdb[..], op, lba, blocks);
  }

  lemma Wrote16(c: seq<uint8>, op: uint8, lba: uint64, blocks: uint32)
    requires |c| >= 16 && c[0] == op && c[1] == 0 && c[14] == 0 && c[15] == 0
    requires c[2] == lba / 0x100_0000_0000_0000 % 0x100 && c[3] == lba / 0x1_0000_0000_0000 % 0x100
    requires c[4] == lba / 0x100_0000_0000 % 0x100 && c[5] == lba / 0x1_0000_0000 % 0x100
    requires c[6] == lba / 0x100_0000 % 0x100 && c[7] == lba / 0x1_0000 % 0x100
    requires c[8] == lba / 0x100 % 0x100 && c[9] == lba % 0x100
    requires c[10] == blocks / 0x100_0000 % 0x100 && c[11] == blocks / 0x1_0000 % 0x100
    requires c[12] == blocks / 0x100 % 0x100 && c[13] == blocks % 0x100
    ensures Is16(c, op, lba, blocks)
    ensures 0x1_0000_0000 * Big32(c[2], c[3], c[4], c[5]) + Big32(c[6], c[7], c[8], c[9]) == lba
    ensures Big32(c[10], c[11], c[12], c[13]) == blocks
  {
    Bytes4(blocks);
    Bytes8(lba);
    Joined4(blocks);
    Joined8(lba);
    hide Stored64, Stored32;
  }

  lemma Joined4(v: uint32)
    ensures 0x100_0000 * (v / 0x100_0000 % 0x100) + 0x1_0000 * (v / 0x1_0000 % 0x100) + 0x100 * (v / 0x100 % 0x100)
            + v % 0x100 == v
  {
    var hi, lo := v / 0x1_0000, v % 0x1_0000;
    FromBytes(v, hi / 0x100, hi % 0x100, lo / 0x100, lo % 0x100);
  }

  lemma Joined8(v: uint64)
    ensures 0x1_0000_0000 * (0x100_0000 * (v / 0x100_0000_0000_0000 % 0x100)
                             + 0x1_0000 * (v / 0x1_0000_0000_0000 % 0x100)
                             + 0x100 * (v / 0x100_0000_0000 % 0x100) + v / 0x1_0000_0000 % 0x100)
            + 0x100_0000 * (v / 0x100_0000 % 0x100) + 0x1_0000 * (v / 0x1_0000 % 0x100)
            + 0x100 * (v / 0x100 % 0x100) + v % 0x100 == v
  {
    var hi, lo := v / 0x1_0000_0000, v % 0x1_0000_0000;
    Joined4(hi);
    Joined4(lo);
    HighBytes(v, hi, lo);
    LowBytes(v, hi, lo, 0x1_0000, 0x1_0000);
    LowBytes(v, hi, lo, 0x100, 0x100_0000);
    LowBytes(v, hi, lo, 0x100_0000, 0x100);
    LowBytes(v, hi, lo, 1, 0x1_0000_0000);
  }

  lemma Bytes4(v: uint32)
    ensures Stored32(v) == [v / 0x100_0000 % 0x100, v / 0x1_0000 % 0x100, v / 0x100 % 0x100, v % 0x100]
  {
    var hi, lo := v / 0x1_0000, v % 0x1_0000;
    FromBytes(v, hi / 0x100, hi % 0x100, lo / 0x100, lo % 0x100);
  }

  lemma FromBytes(v: nat, a: uint8, b: uint8, c: uint8, d: uint8)
    requires v == 0x100_0000 * a + 0x1_0000 * b + 0x100 * c + d
    ensures v / 0x100_0000 % 0x100 == a && v / 0x1_0000 % 0x100 == b && v / 0x100 % 0x100 == c && v % 0x100 == d
  {
    DivModUnique(v, 0x100_0000, a, 0x1_0000 * b + 0x100 * c + d);
    DivModUnique(v, 0x1_0000, 0x100 * a + b, 0x100 * c + d);
    DivModUnique(v, 0x100, 0x1_0000 * a + 0x100 * b + c, d);
    DivModUnique(0x100 * a + b, 0x100, a, b);
    DivModUnique(0x1_0000 * a + 0x100 * b + c, 0x100, 0x100 * a + b, c);
  }

  lemma Bytes8(v: uint64)
    ensures Stored64(v) == [v / 0x100_0000_0000_0000 % 0x100, v / 0x1_0000_0000_0000 % 0x100,
                            v / 0x100_0000_0000 % 0x100, v / 0x1_0000_0000 % 0x100,
                            v / 0x100_0000 % 0x100, v / 0x1_0000 % 0x100, v / 0x100 % 0x100, v % 0x100]
  {
    var hi, lo := v / 0x1_0000_0000, v % 0x1_0000_0000;
    Bytes4(hi);
    Bytes4(lo);
    HighBytes(v, hi, lo);
    LowBytes(v, hi, lo, 0x100_0000, 0x100);
    LowBytes(v, hi, lo, 0x1_0000, 0x1_0000);
    LowBytes(v, hi, lo, 0x100, 0x100_0000);
    LowBytes(v, hi, lo, 1, 0x1_0000_0000);
    hide Stored32;
  }

  lemma HighBytes(v: uint64, hi: uint32, lo: uint32)
    requires v == 0x1_0000_0000 * hi + lo
    ensures v / 0x100_0000_0000_0000 == hi / 0x100_0000 && v / 0x1_0000_0000_0000 == hi / 0x1_0000
    ensures v / 0x100_0000_0000 == hi / 0x100 && v / 0x1_0000_0000 == hi
  {
    HighByte(v, hi, lo, 0x100_0000);
    HighByte(v, hi, lo, 0x1_0000);
    HighByte(v, hi, lo, 0x100);
  }

  lemma HighByte(v: nat, hi: nat, lo: uint32, step: nat)
    requires v == 0x1_0000_0000 * hi + lo && step in [0x100, 0x1_0000, 0x100_0000]
    ensures v / (0x1_0000_0000 * step) == hi / step
  {
    var q, r := hi / step, hi % step;
    DivModUnique(v, 0x1_0000_0000 * step, q, 0x1_0000_0000 * r + lo);
  }

  /** The bytes of the low half do not see the high half. */
  lemma LowBytes(v: nat, hi: nat, lo: uint32, step: nat, wraps: nat)
    requires v == 0x1_0000_0000 * hi + lo && step * wraps == 0x1_0000_0000
    requires step in [1, 0x100, 0x1_0000, 0x100_0000] && wraps % 0x100 == 0
    ensures v / step % 0x100 == lo / step % 0x100
  {
    var q, r := lo / step, lo % step;
    assert lo == step * q + r;
    calc {
      v;
      step * wraps * hi + step * q + r;
      step * (wraps * hi + q) + r;
    }
    DivModUnique(v, step, wraps * hi + q, r);
    var k := wraps / 0x100;
    assert wraps * hi == 0x100 * (k * hi);
    ModAdd(q, k * hi, 0x100);
  }

  lemma Decode10(cdb: seq<uint8>, isWrite: bool, lba: uint32, blocks: uint16)
    requires Is10(cdb, if isWrite then 0x2A else 0x28, lba, blocks)
    ensures Decode(cdb) == Some(BlockCommand(isWrite, lba, blocks))
  {
    Vr32RoundTrip(false, lba);
    Vr16RoundTrip(false, blocks);
    hide BigEndian, Stored32, Stored16;
  }

  lemma Decode16(cdb: seq<uint8>, isWrite: bool, lba: uint64, blocks: uint32)
    requires Is16(cdb, if isWrite then 0x8A else 0x88, lba, blocks)
    ensures Decode(cdb) == Some(BlockCommand(isWrite, lba, blocks))
  {
    Vr64RoundTrip(false, lba);
    Vr32RoundTrip(false, blocks);
    hide BigEndian, Stored64, Stored32;
  }

  // ---------------------------------------------------------------------
  // submit_block_io
  // ---------------------------------------------------------------------

  /** The 64-bit offset of the TD64 and NSCMD commands. */
  function Offset64(actual: uint32, offset: uint32): uint64 { actual * 0x1_0000_0000 + offset }

  function BlockSize(geometryValid: bool, blockSize: uint32): uint32
  {
    if geometryValid && blockSize != 0 then blockSize else 512
  }

  /** What a request asks of the disk; a request shorter than a block counts as
      one. */
  function Wanted(geometryValid: bool, blockSize: uint32, offset: uint64, length: uint32, isWrite: bool): BlockCommand
  {
    var bs := BlockSize(geometryValid, blockSize);
    BlockCommand(isWrite, Quotient(offset, bs), if Quotient(length, bs) == 0 then 1 else Quotient(length, bs))
  }

  function Quotient(n: nat, d: nat): nat
    requires d > 0
  {
    n / d
  }

  /** Choose and build the CDB: decoding it gives back exactly what was asked,
      and it is the short form exactly when both numbers fit that. */
  method BuildBlockCdb(cdb: array<uint8>, geometryValid: bool, blockSize: uint32, offset: uint64, length: uint32,
                       isWrite: bool)
    returns (len: nat)
    requires cdb.Length == 16
    modifies cdb
    ensures len == 10 || len == 16
    ensures Decode(cdb[..len]) == Some(Wanted(geometryValid, blockSize, offset, length, isWrite))
    ensures var w := Wanted(geometryValid, blockSize, offset, length, isWrite);
            len == 10 <==> w.lba <= 0xFFFF_FFFF && w.blocks <= 0xFFFF
    ensures cdb[0] == if len == 10 then (if isWrite then 0x2A else 0x28) else (if isWrite then 0x8A else 0x88)
    ensures var bs := if geometryValid && blockSize != 0 then blockSize else 512;
            var lba := if len == 10 then Big32(cdb[2], cdb[3], cdb[4], cdb[5])
                       else 0x1_0000_0000 * Big32(cdb[2], cdb[3], cdb[4], cdb[5])
                            + Big32(cdb[6], cdb[7], cdb[8], cdb[9]);
            var blocks := if len == 10 then Big16(cdb[7], cdb[8])
                          else Big32(cdb[10], cdb[11], cdb[12], cdb[13]);
            && lba * bs <= offset < (lba + 1) * bs
            && (length >= bs ==> blocks * bs <= length < (blocks + 1) * bs) && (length < bs ==> blocks == 1)
            && (len == 10 <==> lba <= 0xFFFF_FFFF && blocks <= 0xFFFF)
  {
    hide Stored16, Stored32, Stored64, Decode, Is10, Is16;
    var blksz := if geometryValid && blockSize != 0 then blockSize else 512;
    QuotientBounds(offset, blksz);
    QuotientBounds(length, blksz);
    WholePart(offset, blksz);
    WholePart(length, blksz);
    var lba: uint64 := offset / blksz;
    var blocks: uint32 := length / blksz;
    if blocks == 0 {
      blocks := 1;
    }
    if lba > 0xFFFF_FFFF || blocks > 0xFFFF {
      Make16(cdb, if isWrite then 0x8A else 0x88, lba, blocks);
      assert cdb[..16] == cdb[..];
      Decode16(cdb[..16], isWrite, lba, blocks);
      len := 16;
    } else {
      Make10(cdb, if isWrite then 0x2A else 0x28, lba, blocks);
      Prefix10(cdb[..], if isWrite then 0x2A else 0x28, lba, blocks);
      assert cdb[..][..10] == cdb[..10];
      Decode10(cdb[..10], isWrite, lba, blocks);
      len := 10;
    }
  }

  /** The commands whose offset is 64 bits wide: TD64 and NSCMD. */
  predicate IsWide(c: Command)
  {
    c in {Read64, Write64, Format64, NsRead64, NsWrite64, NsFormat64, NsEtdRead64, NsEtdWrite64, NsEtdFormat64}
  }

  /** UnitTask_Dispatch's block requests: the target decodes the command's own
      direction and the blocks at its byte offset, whose high word is io_Actual
      for the wide commands and 0 for the others. */
  method DispatchBlockCdb(cdb: array<uint8>, c: Command, geometryValid: bool, blockSize: uint32,
                          actual: uint32, offset: uint32, length: uint32)
    returns (len: nat)
    requires cdb.Length == 16
    requires c in {Read, EtdRead, Write, Format, EtdFormat, EtdWrite, Read64, Write64, Format64, NsRead64, NsEtdRead64,
                   NsWrite64, NsFormat64, NsEtdWrite64, NsEtdFormat64}
    modifies cdb
    ensures len == 10 || len == 16
    ensures Decode(cdb[..len]).Some?
    ensures var b, bs := Decode(cdb[..len]).value, if geometryValid && blockSize != 0 then blockSize else 512;
            var from := if c in {Read64, Write64, Format64, NsRead64, NsEtdRead64, NsWrite64, NsFormat64, NsEtdWrite64,
                                 NsEtdFormat64}
                        then 0x1_0000_0000 * actual + offset else offset;
            && (b.isWrite <==> c in {Write, Format, EtdFormat, EtdWrite, Write64, Format64, NsWrite64, NsFormat64,
                                     NsEtdWrite64, NsEtdFormat64})
            && b.lba * bs <= from < (b.lba + 1) * bs
            && (length >= bs ==> b.blocks * bs <= length < (b.blocks + 1) * bs) && (length < bs ==> b.blocks == 1)
  {
    TreatmentIs(c);
    hide Decode, Wanted, TreatmentOf;
    var isWrite := TreatmentOf(c).isWrite;
    var from: uint64 := if IsWide(c) then Offset64(actual, offset) else offset;
    len := BuildBlockCdb(cdb, geometryValid, blockSize, from, length, isWrite);
    WantedBlocks(geometryValid, blockSize, from, length, isWrite);
  }

  lemma WantedBlocks(geometryValid: bool, blockSize: uint32, offset: uint64, length: uint32, isWrite: bool)
    ensures var b, bs := Wanted(geometryValid, blockSize, offset, length, isWrite), BlockSize(geometryValid, blockSize);
            && b.isWrite == isWrite && b.lba * bs <= offset < (b.lba + 1) * bs
            && (length >= bs ==> b.blocks * bs <= length < (b.blocks + 1) * bs) && (length < bs ==> b.blocks == 1)
  {
    var bs := BlockSize(geometryValid, blockSize);
    WholePart(offset, bs);
    WholePart(length, bs);
  }

  lemma WholePart(n: nat, d: nat)
    requires d > 0
    ensures var q := Quotient(n, d); q * d <= n < (q + 1) * d && (q == 0 <==> n < d)
  {
    var q, r := n / d, n % d;
    assert n == d * q + r;
    assert (q + 1) * d == d * q + d;
    if q > 0 {
      MulStep(d, 0, q);
    }
  }

  lemma QuotientBounds(n: nat, d: nat)
    requires d > 0
    ensures 0 <= n / d <= n
  {
    var q, r := n / d, n % d;
    assert n == d * q + r && q >= 0;
    var more: nat := d - 1;
    var rest: nat := more * q;
    assert d * q == q + rest;
  }

  lemma Prefix10(cdb: seq<uint8>, op: uint8, lba: uint32, blocks: uint16)
    requires Is10(cdb, op, lba, blocks)
    ensures Is10(cdb[..10], op, lba, blocks)
  {
    hide Stored16, Stored32;
    assert cdb[..10][2..6] == cdb[2..6] && cdb[..10][7..9] == cdb[7..9];
  }

  // ---------------------------------------------------------------------
  // Into the request buffer
  // ---------------------------------------------------------------------

  /** Submit and DoIO copy the CDB into the request header and clear the rest of
      the field, whatever an earlier request left there. */
  method CopyCdb(cdb: seq<uint8>, field: array<uint8>)
    requires field.Length == CDB_SIZE
    modifies field
    ensures field[..] == Padded(cdb)
    ensures forall k | 0 <= k < 32 :: field[k] == if k < |cdb| then cdb[k] else 0
  {
    var n := if |cdb| < CDB_SIZE then |cdb| else CDB_SIZE;
    var i := 0;
    while i < n
      invariant 0 <= i <= n && forall k | 0 <= k < i :: field[k] == cdb[k]
    {
      field[i] := cdb[i];
      i := i + 1;
    }
    while i < CDB_SIZE
      invariant n <= i <= CDB_SIZE && forall k | 0 <= k < i :: field[k] == if k < n then cdb[k] else 0
    {
      field[i] := 0;
      i := i + 1;
    }
  }

  function Padded(cdb: seq<uint8>): seq<uint8>
  {
    seq(CDB_SIZE, i requires 0 <= i < CDB_SIZE => if i < |cdb| then cdb[i] else 0)
  }

  /** The target decodes the padded field like the CDB itself. */
  lemma PaddedDecodes(cdb: seq<uint8>)
    requires Decode(cdb).Some? && |cdb| <= CDB_SIZE
    ensures Decode(Padded(cdb)) == Decode(cdb)
  {
    hide BigEndian;
    var p := Padded(cdb);
    assert p[2..6] == cdb[2..6] && p[7..9] == cdb[7..9];
    if |cdb| >= 16 {
      assert p[2..10] == cdb[2..10] && p[10..14] == cdb[10..14];
    }
  }
}
