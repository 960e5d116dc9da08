/** Where the three parts of a split virtqueue lie (VirtQueue_Allocate in
    src/virtio/virtqueue.c, InitVirtIOSCSI_Modern in src/virtio/virtio_init.c;
    VirtIO 1.2 section 2.7.2). */
module Layout {
  import opened Types
  import opened Counters

  const PAGE: nat := 4096

  /** Clearing the low twelve bits of a 32-bit word. */
  function MaskPage(n: uint32): uint32 { n - n % PAGE }

  /** (n + 4095) & ~4095, in 32-bit arithmetic. */
  function RoundUp(n: uint32): uint32 { MaskPage((n + (PAGE - 1)) % 0x1_0000_0000) }

  /** The mask computes the least multiple of a page not below `n`, unless the
      sum wraps. */
  lemma RoundUpIsLeast(n: uint32)
    requires n + (PAGE - 1) < 0x1_0000_0000
    ensures RoundUp(n) % PAGE == 0 && n <= RoundUp(n) < n + PAGE
    ensures forall m | m >= n && m % PAGE == 0 :: m >= RoundUp(n)
  {}

  /** Offsets and sizes in bytes. */
  datatype Layout = Layout(availOffset: uint32, availSize: uint32, usedOffset: uint32, usedSize: uint32,
                           memSize: uint32)

  /** VirtQueue_Allocate's arithmetic, for a block the allocator put at `raw`:
      the aligned memory lies inside the block, and the three parts inside that
      memory, apart and aligned as the standard asks. */
  method Allocate(size: nat, raw: uint32) returns (l: Layout, aligned: uint32, allocSize: uint32)
    requires LegalSize(size) && raw + LayoutOf(size).memSize + PAGE <= 0x1_0000_0000
    ensures l == LayoutOf(size) && PartsApart(l, size)
    ensures l.availOffset == 16 * size && l.availSize == 6 + 2 * size && l.usedSize == 6 + 8 * size
    ensures l.usedOffset % 4096 == 0 && 18 * size + 6 <= l.usedOffset < 18 * size + 6 + 4096
    ensures l.memSize == l.usedOffset + l.usedSize && allocSize == l.memSize + 4096
    ensures Within(aligned, l.memSize, raw, allocSize)
    ensures aligned % 16 == 0 && (aligned + l.availOffset) % 2 == 0 && (aligned + l.usedOffset) % 4 == 0
  {
    PartsAreApart(size);
    BlockHoldsLayout(size, raw);
    LayoutIs(size);
    hide PowerOfTwo, PartsApart, Within;
    var descSize := 16 * size;
    var availSize := 2 * (3 + size);
    var availEnd := descSize + availSize;
    var usedOffset := RoundUp(availEnd);
    var usedSize := 2 * 3 + 8 * size;
    l := Layout(descSize, availSize, usedOffset, usedSize, usedOffset + usedSize);
    allocSize := l.memSize + PAGE;
    aligned := RoundUp(raw);
  }

  function LayoutOf(size: nat): Layout
    requires 0 < size <= 0x8000
  {
    var used := RoundUp(16 * size + 2 * (3 + size));
    Layout(16 * size, 2 * (3 + size), used, 6 + 8 * size, used + (6 + 8 * size))
  }

  lemma LayoutIs(size: nat)
    requires 0 < size <= 0x8000
    ensures var l := LayoutOf(size);
            && l.availOffset == 16 * size && l.availSize == 6 + 2 * size && l.usedSize == 6 + 8 * size
            && l.usedOffset % 4096 == 0 && 18 * size + 6 <= l.usedOffset < 18 * size + 6 + 4096
            && l.memSize == l.usedOffset + l.usedSize
  {
    RoundUpIsLeast(16 * size + 2 * (3 + size));
    hide RoundUp;
  }

  /** A half-open range of bytes. */
  predicate Within(at: nat, len: nat, start: nat, size: nat) { start <= at && at + len <= start + size }

  predicate Disjoint(a: nat, aLen: nat, b: nat, bLen: nat) { a + aLen <= b || b + bLen <= a }

  /** The descriptor table, the available ring, the used_event word behind its
      heads included, and the used ring overlap nowhere and lie inside the memory
      accounted for. */
  ghost predicate PartsApart(l: Layout, size: nat)
  {
    && Disjoint(0, 16 * size, l.availOffset, l.availSize)
    && Disjoint(l.availOffset, l.availSize, l.usedOffset, l.usedSize)
    && Disjoint(0, 16 * size, l.usedOffset, l.usedSize)
    && Within(l.availOffset + 4 + 2 * size, 2, l.availOffset, l.availSize)
    && Within(l.usedOffset + 4, 8 * size, l.usedOffset, l.usedSize)
    && Within(0, 16 * size, 0, l.memSize) && Within(l.availOffset, l.availSize, 0, l.memSize)
    && Within(l.usedOffset, l.usedSize, 0, l.memSize)
  }

  lemma PartsAreApart(size: nat)
    requires LegalSize(size)
    ensures PartsApart(LayoutOf(size), size)
    ensures LayoutOf(size).availOffset % 2 == 0 && LayoutOf(size).usedOffset % PAGE == 0
  {
    hide PowerOfTwo, RoundUp;
    RoundUpIsLeast(16 * size + 2 * (3 + size));
  }

  /** Wherever the allocator puts the block, the page-aligned memory lies inside
      it, and each part is aligned as the standard asks. */
  lemma BlockHoldsLayout(size: nat, raw: uint32)
    requires LegalSize(size) && raw + LayoutOf(size).memSize + PAGE <= 0x1_0000_0000
    ensures var l, base := LayoutOf(size), RoundUp(raw);
            && Within(base, l.memSize, raw, l.memSize + PAGE)
            && base % 16 == 0 && (base + l.availOffset) % 2 == 0 && (base + l.usedOffset) % 4 == 0
  {
    PartsAreApart(size);
    RoundUpIsLeast(raw);
    hide *;
    Aligned(RoundUp(raw), LayoutOf(size).availOffset, LayoutOf(size).usedOffset);
  }

  lemma Aligned(base: nat, avail: nat, used: nat)
    requires base % PAGE == 0 && avail % 2 == 0 && used % PAGE == 0
    ensures base % 16 == 0 && (base + avail) % 2 == 0 && (base + used) % 4 == 0
  {
    var p, q, r := base / PAGE, avail / 2, used / PAGE;
    assert base == 4096 * p && avail == 2 * q && used == 4096 * r;
    hide *;
    ModAdd(0, 256 * p, 16);
    ModAdd(0, 2048 * p + q, 2);
    ModAdd(0, 1024 * p + 1024 * r, 4);
  }

  /** The addresses given to the device. */
  method RingAddresses(size: nat, descPhys: uint32) returns (availPhys: uint32, usedPhys: uint32)
    requires 0 < size <= 0x8000 && descPhys + LayoutOf(size).memSize <= 0x1_0000_0000
    ensures availPhys == descPhys + LayoutOf(size).availOffset
    ensures usedPhys == descPhys + LayoutOf(size).usedOffset
    ensures availPhys == descPhys + 16 * size && (usedPhys - descPhys) % 4096 == 0
    ensures 18 * size + 6 <= usedPhys - descPhys < 18 * size + 6 + 4096
  {
    var descSize := 16 * size;
    var availSize := 2 * (3 + size);
    var usedOffset := MaskPage(descSize + availSize + 4095);
    availPhys := descPhys + descSize;
    usedPhys := descPhys + usedOffset;
  }
}
