/** Arithmetic on multiples of a packet size and on small moduli. */
module Arith {

  /** A packet or ring size. */
  type Size = n: nat | n > 0 witness 1

  lemma MulMonotone(a: nat, b: nat, m: nat)
    requires a <= b
    ensures a * m <= b * m
  {
    assert b * m == a * m + (b - a) * m;
    assert (b - a) * m >= 0;
  }

  lemma MulSplits(a: nat, b: nat, m: nat)
    ensures (a + b) * m == a * m + b * m
  {
  }

  lemma MulStrict(a: nat, b: nat, m: nat)
    requires a < b
    ensures a * m + m <= b * m
  {
    MulMonotone(a + 1, b, m);
    assert (a + 1) * m == a * m + m;
  }

  lemma MultipleOf(k: nat, m: Size)
    ensures (k * m) % m == 0 && (k * m) / m == k
  {
    var q, r := (k * m) / m, (k * m) % m;
    assert k * m == q * m + r && r < m;
    if q < k {
      MulStrict(q, k, m);
    } else if k < q {
      MulStrict(k, q, m);
    }
  }

  /** Distinct multiples of `m` are at least `m` apart. */
  lemma MultipleGap(x: nat, y: nat, m: Size)
    requires x % m == 0 && y % m == 0 && x < y
    ensures x + m <= y
  {
    assert x == x / m * m && y == y / m * m;
    if x / m < y / m {
      MulStrict(x / m, y / m, m);
    } else {
      MulMonotone(y / m, x / m, m);
    }
  }

  lemma MultipleStep(x: nat, m: Size)
    requires x % m == 0
    ensures (x + m) % m == 0
  {
    assert x + m == (x / m + 1) * m;
    MultipleOf(x / m + 1, m);
  }

  /** The position of one multiple above another. */
  lemma MultipleIndex(x: nat, y: nat, m: Size) returns (i: nat)
    requires x % m == 0 && y % m == 0 && x <= y
    ensures y == x + i * m
  {
    if x == y {
      i := 0;
    } else {
      MultipleGap(x, y, m);
      assert x / m <= y / m;
      i := y / m - x / m;
      assert x == x / m * m && y == y / m * m;
      assert i * m == y / m * m - x / m * m;
    }
  }

  /** Adding at most once around a ring. */
  lemma ModWrap(x: nat, m: Size)
    requires x < 2 * m
    ensures x % m == if x < m then x else x - m
  {
    if x >= m {
      assert x == x / m * m + x % m;
      if x / m >= 2 {
        MulMonotone(2, x / m, m);
      }
      assert x / m == 1;
    }
  }
}
