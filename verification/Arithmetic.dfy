/**
 Facts about products and rounding that the allocators share.
 */
module Arithmetic {

  /** The least multiple of align at or above x. */
  function RoundUp(x: nat, align: nat): nat
    requires align > 0
  {
    (x + align - 1) / align * align
  }

  lemma RoundUpIs(x: nat, align: nat)
    requires align > 0
    ensures x <= RoundUp(x, align) < x + align && RoundUp(x, align) % align == 0
  {
    var k := (x + align - 1) / align;
    assert (x + align - 1) == k * align + (x + align - 1) % align;
    assert (k * align) % align == 0 by {
      ModProduct(k, align);
    }
  }

  lemma ModProduct(k: nat, a: nat)
    requires a > 0
    ensures (k * a) % a == 0
  {
    var x := k * a;
    var q, r := x / a, x % a;
    assert x == a * q + r;
    MulGap(a, k - q);
    assert a * (k - q) == r;
  }

  lemma MulGap(a: int, d: int)
    requires a > 0
    ensures d >= 1 ==> a * d >= a
    ensures d <= -1 ==> a * d <= -a
  {
    if d >= 1 {
      assert a * (d - 1) >= 0;
    } else if d <= -1 {
      assert a * (d + 1) <= 0;
    }
  }

  lemma Distribute(a: int, b: int, c: int)
    ensures (a + b) * c == a * c + b * c
  {
  }

  lemma MulMonotone(a: nat, b: nat, c: nat)
    requires a <= b
    ensures a * c <= b * c
  {
  }

  lemma Times(n: nat, c: nat)
    ensures n == 0 ==> n * c == 0
    ensures n > 0 ==> n * c >= c
  {
  }
}
