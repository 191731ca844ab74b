/** Masking with a power of two, as the allocator does it. */
module Bits {
  import opened Basics

  /** `a & b` on naturals, bit by bit. */
  function BitAnd(a: nat, b: nat): nat {
    if a == 0 || b == 0 then 0 else (a % 2) * (b % 2) + 2 * BitAnd(a / 2, b / 2)
  }

  predicate PowerOfTwo(n: nat) {
    n == 1 || (n > 1 && n % 2 == 0 && PowerOfTwo(n / 2))
  }

  /** `position & (block_size - 1)` is the offset in the block. */
  lemma {:induction false} MaskIsOffset(p: nat, b: nat)
    requires PowerOfTwo(b)
    ensures BitAnd(p, b - 1) == p % b
    decreases b
  {
    if b > 1 {
      var h := b / 2;
      assert (b - 1) % 2 == 1 && (b - 1) / 2 == h - 1;
      MaskIsOffset(p / 2, h);
      HalfMod(p, h);
      if p == 0 { assert p % b == 0; }
    } else {
      assert p % 1 == 0;
    }
  }

  lemma HalfMod(p: nat, h: nat)
    requires h > 0
    ensures p % (2 * h) == p % 2 + 2 * ((p / 2) % h)
  {
    var q, r := (p / 2) / h, (p / 2) % h;
    assert p / 2 == q * h + r;
    assert p == q * (2 * h) + (2 * r + p % 2) by { assert p == 2 * (p / 2) + p % 2; assert 2 * (q * h) == q * (2 * h); }
    DivIs(p, 2 * h, q, 2 * r + p % 2);
  }

  /** The constructor's check `block_size & (block_size - 1)` rejects exactly the sizes that are
      not powers of two. */
  lemma {:induction false} PowerOfTwoTest(b: nat)
    requires b > 0
    ensures BitAnd(b, b - 1) == 0 <==> PowerOfTwo(b)
    decreases b
  {
    hide BitAnd;
    if b == 1 {
      AndStep(1, 0);
    } else {
      AndStep(b, b - 1);
      if b % 2 == 0 {
        assert (b - 1) / 2 == b / 2 - 1;
        PowerOfTwoTest(b / 2);
      } else {
        assert (b - 1) / 2 == b / 2;
        Idempotent(b / 2);
      }
    }
  }

  lemma AndStep(a: nat, b: nat)
    ensures BitAnd(a, 0) == 0 && BitAnd(0, b) == 0
    ensures a > 0 && b > 0 ==>
      BitAnd(a, b) == (if a % 2 == 1 && b % 2 == 1 then 1 else 0) + 2 * BitAnd(a / 2, b / 2)
  {
    BitTimes(a % 2, b % 2);
  }

  lemma BitTimes(x: nat, y: nat)
    requires x < 2 && y < 2
    ensures x * y == if x == 1 && y == 1 then 1 else 0
  {
  }

  lemma {:induction false} Idempotent(a: nat)
    ensures BitAnd(a, a) == a
  {
    hide BitAnd;
    AndStep(a, a);
    if a > 0 { Idempotent(a / 2); }
  }

  /** `a | b` on naturals, bit by bit. */
  function BitOr(a: nat, b: nat): nat
    decreases a + b
  {
    if a == 0 then b
    else if b == 0 then a
    else (if a % 2 == 1 || b % 2 == 1 then 1 else 0) + 2 * BitOr(a / 2, b / 2)
  }

  /** Joining disjoint bit ranges adds them. */
  lemma {:induction false} OrIsSum(lo: nat, hi: nat, b: nat)
    requires PowerOfTwo(b) && lo < b
    ensures BitOr(lo, b * hi) == lo + b * hi
    decreases b
  {
    hide BitOr;
    if lo == 0 || b * hi == 0 {
      OrOfNone(lo, b * hi);
    } else {
      var h := b / 2;
      Doubled(b, h, hi);
      OrIsSum(lo / 2, hi, h);
      OrOfEven(lo, h * hi);
    }
  }

  lemma Doubled(b: nat, h: nat, x: nat)
    requires b == 2 * h
    ensures b * x == 2 * (h * x)
  {
  }

  lemma OrOfNone(lo: nat, x: nat)
    requires lo == 0 || x == 0
    ensures BitOr(lo, x) == lo + x
  {
  }

  lemma OrOfEven(lo: nat, x: nat)
    requires lo > 0 && x > 0 && BitOr(lo / 2, x) == lo / 2 + x
    ensures BitOr(lo, 2 * x) == lo + 2 * x
  {
    assert (2 * x) / 2 == x && (2 * x) % 2 == 0;
  }
}
