/** Free-running 16-bit ring counters, as an unbounded count sees them. */
module Counters {
  import opened Types

  const WRAP: nat := 0x1_0000

  function Wrap(n: nat): uint16 { n % WRAP }

  predicate PowerOfTwo(n: nat) { n == 1 || (n > 1 && n % 2 == 0 && PowerOfTwo(n / 2)) }

  /** The sizes VirtIO 1.2 section 2.7 allows. */
  predicate LegalSize(num: nat) { 0 < num <= 0x8000 && PowerOfTwo(num) }

  lemma {:induction false} PowersDivide(n: nat, m: nat)
    requires PowerOfTwo(n) && PowerOfTwo(m) && n <= m
    ensures exists k: nat :: m == n * k
  {
    if n == 1 {
      assert m == n * m;
    } else {
      PowersDivide(n / 2, m / 2);
      var k: nat :| m / 2 == n / 2 * k;
      assert m == n * k;
    }
  }

  lemma WrapIsPower()
    ensures PowerOfTwo(WRAP)
  {
    assert PowerOfTwo(0x10);
    assert PowerOfTwo(0x100);
    assert PowerOfTwo(0x1000);
  }

  /** Reducing a wrapped counter by the ring size gives the unbounded slot. */
  lemma WrapSlot(n: nat, num: nat)
    requires LegalSize(num)
    ensures Wrap(n) % num == n % num
  {
    WrapIsPower();
    PowersDivide(num, WRAP);
    var k: nat :| WRAP == num * k;
    var wraps := n / WRAP;
    calc {
      n;
      WRAP * wraps + Wrap(n);
      num * k * wraps + Wrap(n);
      num * (k * wraps) + Wrap(n);
    }
    ModAdd(Wrap(n), k * wraps, num);
  }

  lemma ModAdd(a: nat, k: nat, m: nat)
    requires m > 0
    ensures (m * k + a) % m == a % m
  {
    var q, r := a / m, a % m;
    assert m * k + a == m * (k + q) + r;
    DivModUnique(m * k + a, m, k + q, r);
  }

  lemma DivModUnique(n: nat, m: nat, q: nat, r: nat)
    requires m > 0 && r < m && n == m * q + r
    ensures n % m == r && n / m == q
  {
    var q', r' := n / m, n % m;
    assert n == m * q' + r';
    if q' < q {
      MulStep(m, q', q);
    } else if q < q' {
      MulStep(m, q, q');
    }
  }

  lemma MulStep(m: nat, a: nat, b: nat)
    requires a < b
    ensures m * a + m <= m * b
  {
    var extra: nat := b - a - 1;
    var rest: nat := m * extra;
    assert b == a + 1 + extra;
    calc {
      m * b;
      m * (a + 1 + extra);
      m * a + m + rest;
    }
  }

  /** Two counters less than a full wrap apart are equal exactly when their
      16-bit images are: the driver's emptiness test is exact. */
  lemma WrapEqual(a: nat, b: nat)
    requires a <= b < a + WRAP
    ensures Wrap(a) == Wrap(b) <==> a == b
  {}

  lemma WrapNext(n: nat)
    ensures (Wrap(n) + 1) % WRAP == Wrap(n + 1)
  {}

  /** Positions less than a ring apart use different slots. */
  lemma SlotsDiffer(a: nat, b: nat, num: nat)
    requires num > 0 && a < b < a + num
    ensures a % num != b % num
  {
    var i, j := a / num, b / num;
    assert a == num * i + a % num && b == num * j + b % num;
    if i < j {
      MulStep(num, i, j);
    } else if j < i {
      MulStep(num, j, i);
    }
  }
}
