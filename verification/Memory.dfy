/** Bytes scattered over memory, as scatter-gather lists name them. */
module Memory {
  import opened Types

  type Ram = seq<uint8>

  // ---------------------------------------------------------------------
  // Scattered memory
  // ---------------------------------------------------------------------

  predicate Covers(sg: Sg, a: nat) { sg.addr <= a < sg.addr + sg.len }

  predicate Covered(pages: seq<Sg>, a: nat) { exists i | 0 <= i < |pages| :: Covers(pages[i], a) }

  predicate Inside(size: nat, pages: seq<Sg>)
  {
    forall i | 0 <= i < |pages| :: pages[i].addr + pages[i].len <= size
  }

  /** No address lies in two of the pages. */
  ghost predicate Apart(pages: seq<Sg>)
  {
    forall i, j, a: nat | 0 <= i < j < |pages| && Covers(pages[i], a) :: !Covers(pages[j], a)
  }

  function Total(pages: seq<Sg>): nat { if pages == [] then 0 else pages[0].len + Total(pages[1..]) }

  /** The bytes of the pages, in their order: what a transfer out of them carries. */
  function Gather(ram: Ram, pages: seq<Sg>): (bytes: seq<uint8>)
    requires Inside(|ram|, pages)
    ensures |bytes| == Total(pages)
  {
    if pages == [] then [] else ram[pages[0].addr..pages[0].addr + pages[0].len] + Gather(ram, pages[1..])
  }

  function Overwrite(ram: Ram, at: nat, bytes: seq<uint8>): (r: Ram)
    requires at + |bytes| <= |ram|
    ensures |r| == |ram|
  {
    ram[..at] + bytes + ram[at + |bytes|..]
  }

  /** A transfer of `bytes` into the pages, which it need not fill. */
  function Scatter(ram: Ram, pages: seq<Sg>, bytes: seq<uint8>): (r: Ram)
    requires Inside(|ram|, pages) && |bytes| <= Total(pages)
    ensures |r| == |ram|
    decreases |pages|
  {
    if pages == [] then ram else
      var n := if |bytes| < pages[0].len then |bytes| else pages[0].len;
      Scatter(Overwrite(ram, pages[0].addr, bytes[..n]), pages[1..], bytes[n..])
  }

  lemma CoveredTail(pages: seq<Sg>, a: nat)
    requires pages != []
    ensures Covered(pages, a) <==> Covers(pages[0], a) || Covered(pages[1..], a)
  {
    if Covered(pages[1..], a) {
      var i :| 0 <= i < |pages[1..]| && Covers(pages[1..][i], a);
      assert Covers(pages[i + 1], a);
    }
    if Covered(pages, a) && !Covers(pages[0], a) {
      var i :| 0 <= i < |pages| && Covers(pages[i], a);
      assert Covers(pages[1..][i - 1], a);
    }
  }

  lemma {:induction false} ScatterElsewhere(ram: Ram, pages: seq<Sg>, bytes: seq<uint8>, a: nat)
    requires Inside(|ram|, pages) && |bytes| <= Total(pages) && a < |ram| && !Covered(pages, a)
    ensures Scatter(ram, pages, bytes)[a] == ram[a]
    decreases |pages|
  {
    if pages != [] {
      CoveredTail(pages, a);
      var n := if |bytes| < pages[0].len then |bytes| else pages[0].len;
      ScatterElsewhere(Overwrite(ram, pages[0].addr, bytes[..n]), pages[1..], bytes[n..], a);
    }
  }

  lemma {:induction false} GatherSame(r0: Ram, r1: Ram, pages: seq<Sg>)
    requires |r0| == |r1| && Inside(|r0|, pages)
    requires forall a: nat | a < |r0| && Covered(pages, a) :: r0[a] == r1[a]
    ensures Gather(r0, pages) == Gather(r1, pages)
  {
    if pages != [] {
      var p, tail := pages[0], pages[1..];
      forall a: nat | a < |r0| && (Covers(p, a) || Covered(tail, a))
        ensures r0[a] == r1[a]
      {
        CoveredTail(pages, a);
      }
      assert r0[p.addr..p.addr + p.len] == r1[p.addr..p.addr + p.len] by {
        assert forall a: nat | a < |r0| && p.addr <= a < p.addr + p.len :: Covers(p, a) ==> r0[a] == r1[a];
      }
      GatherSame(r0, r1, tail);
    }
  }

  /** Reading back pages just written gives the bytes written, then what lay
      behind them before. */
  lemma {:induction false} GatherScatter(ram: Ram, pages: seq<Sg>, bytes: seq<uint8>)
    requires Inside(|ram|, pages) && |bytes| <= Total(pages) && Apart(pages)
    ensures Gather(Scatter(ram, pages, bytes), pages) == bytes + Gather(ram, pages)[|bytes|..]
    decreases |pages|
  {
    if pages != [] {
      var p, tail := pages[0], pages[1..];
      var n := if |bytes| < p.len then |bytes| else p.len;
      var mid := Overwrite(ram, p.addr, bytes[..n]);
      ScatterFirst(ram, pages, bytes, n);
      GatherScatter(mid, tail, bytes[n..]);
      var end := Scatter(mid, tail, bytes[n..]);
      GatherStep(end, pages);
      GatherStep(ram, pages);
      hide *;
      Splice(bytes, n, ram[p.addr..p.addr + p.len], Gather(ram, tail),
             end[p.addr..p.addr + p.len], Gather(end, tail));
    }
  }

  /** The first page gets the first bytes, and the rest of the transfer leaves it
      and finds the other pages alone. */
  lemma ScatterFirst(ram: Ram, pages: seq<Sg>, bytes: seq<uint8>, n: nat)
    requires Inside(|ram|, pages) && |bytes| <= Total(pages) && Apart(pages) && pages != []
    requires n == if |bytes| < pages[0].len then |bytes| else pages[0].len
    ensures var p, tail, mid := pages[0], pages[1..], Overwrite(ram, pages[0].addr, bytes[..n]);
            && Inside(|mid|, tail) && |bytes[n..]| <= Total(tail) && Apart(tail)
            && Scatter(ram, pages, bytes) == Scatter(mid, tail, bytes[n..])
            && Gather(mid, tail) == Gather(ram, tail)
            && Scatter(mid, tail, bytes[n..])[p.addr..p.addr + p.len] == bytes[..n] + ram[p.addr..p.addr + p.len][n..]
  {
    var p, mid := pages[0], Overwrite(ram, pages[0].addr, bytes[..n]);
    assert Scatter(ram, pages, bytes) == Scatter(mid, pages[1..], bytes[n..]);
    hide Apart, Scatter, Gather, Overwrite;
    ApartTail(pages);
    TailSame(ram, pages, bytes[..n]);
    FirstKept(mid, pages, bytes[n..]);
    WrittenSlice(ram, p.addr, bytes[..n], p.len);
  }

  lemma GatherStep(ram: Ram, pages: seq<Sg>)
    requires Inside(|ram|, pages) && pages != []
    ensures Gather(ram, pages) == ram[pages[0].addr..pages[0].addr + pages[0].len] + Gather(ram, pages[1..])
  {}

  lemma ApartTail(pages: seq<Sg>)
    requires pages != [] && Apart(pages)
    ensures Apart(pages[1..])
    ensures forall a: nat | Covers(pages[0], a) :: !Covered(pages[1..], a)
  {
    var tail := pages[1..];
    forall i, j, a: nat | 0 <= i < j < |tail| && Covers(tail[i], a)
      ensures !Covers(tail[j], a)
    {
      assert Covers(pages[i + 1], a) && tail[j] == pages[j + 1];
    }
    forall a: nat | Covers(pages[0], a)
      ensures !Covered(tail, a)
    {
      assert forall i | 0 <= i < |tail| :: tail[i] == pages[i + 1];
    }
  }

  lemma TailSame(ram: Ram, pages: seq<Sg>, bytes: seq<uint8>)
    requires Inside(|ram|, pages) && pages != [] && |bytes| <= pages[0].len && Apart(pages)
    ensures Gather(Overwrite(ram, pages[0].addr, bytes), pages[1..]) == Gather(ram, pages[1..])
  {
    ApartTail(pages);
    hide Apart, Covered;
    var mid := Overwrite(ram, pages[0].addr, bytes);
    forall a: nat | a < |ram| && Covered(pages[1..], a)
      ensures ram[a] == mid[a]
    {
      assert !Covers(pages[0], a);
    }
    GatherSame(ram, mid, pages[1..]);
  }

  lemma FirstKept(ram: Ram, pages: seq<Sg>, bytes: seq<uint8>)
    requires Inside(|ram|, pages) && pages != [] && |bytes| <= Total(pages[1..]) && Apart(pages)
    ensures var p := pages[0];
            Scatter(ram, pages[1..], bytes)[p.addr..p.addr + p.len] == ram[p.addr..p.addr + p.len]
  {
    ApartTail(pages);
    hide Apart, Covered, Scatter;
    forall a: nat | pages[0].addr <= a < pages[0].addr + pages[0].len
      ensures Scatter(ram, pages[1..], bytes)[a] == ram[a]
    {
      assert Covers(pages[0], a);
      ScatterElsewhere(ram, pages[1..], bytes, a);
    }
  }

  lemma WrittenSlice(ram: Ram, at: nat, bytes: seq<uint8>, len: nat)
    requires at + len <= |ram| && |bytes| <= len
    ensures Overwrite(ram, at, bytes)[at..at + len] == bytes + ram[at..at + len][|bytes|..]
  {}

  lemma Splice(bytes: seq<uint8>, n: nat, first: seq<uint8>, rest: seq<uint8>, first': seq<uint8>, rest': seq<uint8>)
    requires n == (if |bytes| < |first| then |bytes| else |first|) && |bytes| <= |first| + |rest|
    requires first' == bytes[..n] + first[|bytes[..n]|..] && rest' == bytes[n..] + rest[|bytes[n..]|..]
    ensures first' + rest' == bytes + (first + rest)[|bytes|..]
  {}

  /** A transfer changes each address by what it carries there, whatever the
      rest of memory holds. */
  lemma {:induction false} ScatterAgree(r0: Ram, r1: Ram, pages: seq<Sg>, bytes: seq<uint8>, a: nat)
    requires |r0| == |r1| && Inside(|r0|, pages) && |bytes| <= Total(pages) && a < |r0| && r0[a] == r1[a]
    ensures Scatter(r0, pages, bytes)[a] == Scatter(r1, pages, bytes)[a]
    decreases |pages|
  {
    if pages != [] {
      var n := if |bytes| < pages[0].len then |bytes| else pages[0].len;
      ScatterAgree(Overwrite(r0, pages[0].addr, bytes[..n]), Overwrite(r1, pages[0].addr, bytes[..n]),
                   pages[1..], bytes[n..], a);
    }
  }
}
