/**
 The machine arithmetic the router relies on: unsigned 64-bit numbers, their
 wrap-around, and the bitwise `and` by which the ring queue reduces its indices.
 */
module MachineWords {

  const TWO_TO_THE_64: nat := 0x1_0000_0000_0000_0000

  type Word = n: nat | n < TWO_TO_THE_64

  /** `n + 1` on an unsigned 64-bit number. */
  function Successor(n: Word): Word {
    if n + 1 == TWO_TO_THE_64 then 0 else n + 1
  }

  /** `a - b` on unsigned 64-bit numbers. */
  function Difference(a: Word, b: Word): Word {
    if b <= a then a - b else a - b + TWO_TO_THE_64
  }

  /** Bitwise `and` of two unsigned numbers of any width. */
  function BitAnd(x: nat, y: nat): nat {
    if x == 0 || y == 0 then 0
    else (if x % 2 == 1 && y % 2 == 1 then 1 else 0) + 2 * BitAnd(x / 2, y / 2)
  }

  function Power2(k: nat): nat {
    if k == 0 then 1 else 2 * Power2(k - 1)
  }

  ghost predicate IsPowerOf2(n: nat) {
    exists k: nat :: n == Power2(k)
  }

  lemma {:induction false} ProductAtLeast(a: nat, d: nat)
    requires a > 0
    ensures a * d >= d
  {
    if a > 1 {
      ProductAtLeast(a - 1, d);
      assert a * d == (a - 1) * d + d;
    }
  }

  /** Remainders are unique. */
  lemma RemainderIs(x: nat, d: nat, q: int, r: nat)
    requires d > 0 && r < d && x == q * d + r
    ensures x % d == r
  {
    var q', r' := x / d, x % d;
    assert x == q' * d + r';
    assert (q - q') * d == q * d - q' * d;
    if q > q' {
      ProductAtLeast(q - q', d);
    } else if q < q' {
      ProductAtLeast(q' - q, d);
    }
  }

  /** Masking with a power of two minus one is reduction modulo that power. */
  lemma {:induction false} MaskIsRemainder(x: nat, k: nat)
    ensures Power2(k) > 0
    ensures BitAnd(x, Power2(k) - 1) == x % Power2(k)
  {
    if k > 0 {
      MaskIsRemainder(x / 2, k - 1);
      HalveRemainder(x, Power2(k - 1));
      assert (Power2(k) - 1) / 2 == Power2(k - 1) - 1;
    } else {
      RemainderIs(x, 1, x, 0);
    }
  }

  lemma HalveRemainder(x: nat, d: nat)
    requires d > 0
    ensures x % (2 * d) == x % 2 + 2 * ((x / 2) % d)
  {
    var q, r := (x / 2) / d, (x / 2) % d;
    assert x / 2 == q * d + r;
    assert q * (2 * d) == 2 * (q * d);
    RemainderIs(x, 2 * d, q, 2 * r + x % 2);
  }

  lemma {:induction false} BitAndSelf(x: nat)
    ensures BitAnd(x, x) == x
  {
    if x > 0 {
      BitAndSelf(x / 2);
    }
  }

  lemma {:induction false} OddIsNoPower(n: nat)
    requires n % 2 == 1 && n > 1
    ensures !IsPowerOf2(n) && BitAnd(n, n - 1) != 0
  {
    forall k: nat ensures n != Power2(k) {
      assert k > 0 ==> Power2(k) == 2 * Power2(k - 1);
    }
    BitAndSelf(n / 2);
    assert (n - 1) / 2 == n / 2;
  }

  lemma HalfIsPower(m: nat)
    requires m > 0
    ensures IsPowerOf2(2 * m) <==> IsPowerOf2(m)
  {
    if IsPowerOf2(m) {
      var k: nat :| m == Power2(k);
      assert 2 * m == Power2(k + 1);
    }
    if IsPowerOf2(2 * m) {
      var k: nat :| 2 * m == Power2(k);
      assert m == Power2(k - 1);
    }
  }

  lemma {:induction false} PowerTest(n: nat)
    requires n > 0
    ensures BitAnd(n, n - 1) == 0 <==> IsPowerOf2(n)
  {
    if n == 1 {
      assert Power2(0) == 1;
    } else if n % 2 == 0 {
      var m := n / 2;
      PowerTest(m);
      assert (n - 1) / 2 == m - 1;
      assert BitAnd(n, n - 1) == 2 * BitAnd(m, m - 1);
      HalfIsPower(m);
    } else {
      OddIsNoPower(n);
    }
  }

  /**
   What the ring's compile-time assertion `(Size & (Size - 1)) == 0` accepts: zero, whose predecessor wraps around,
   and the powers of two, 1 included.
   */
  lemma SizeAssertionIsExact(n: Word)
    ensures BitAnd(n, Difference(n, 1)) == 0 <==> n == 0 || IsPowerOf2(n)
  {
    if n > 0 {
      PowerTest(n);
    }
  }
}
