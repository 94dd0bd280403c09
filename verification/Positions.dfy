/**
 Fifo positions are 32-bit counters that wrap. Every stored position is the wrapped
 image of an unbounded ghost position, and the code compares stored positions by the
 sign of their 32-bit difference.
 */
module Positions {

  const TWO31: int := 0x8000_0000
  const TWO32: int := 0x1_0000_0000

  type u32 = x: int | 0 <= x < 0x1_0000_0000

  type byte = x: int | 0 <= x < 0x100

  /** The 32-bit image of an unbounded position. */
  function Wrap(p: int): u32 {
    p % TWO32
  }

  function Plus(a: u32, b: u32): u32 {
    (a + b) % TWO32
  }

  function Minus(a: u32, b: u32): u32 {
    (a - b) % TWO32
  }

  /** Reinterprets a 32-bit pattern as a signed value. */
  function AsI32(a: u32): int {
    if a < TWO31 then a else a - TWO32
  }

  predicate PosLt(a: u32, b: u32) {
    AsI32(Minus(a, b)) < 0
  }

  predicate PosLeq(a: u32, b: u32) {
    AsI32(Minus(a, b)) <= 0
  }

  predicate PosGt(a: u32, b: u32) {
    AsI32(Minus(a, b)) > 0
  }

  predicate PosGeq(a: u32, b: u32) {
    AsI32(Minus(a, b)) >= 0
  }

  function Min(a: int, b: int): int {
    if a <= b then a else b
  }

  function Max(a: int, b: int): int {
    if a <= b then b else a
  }

  /** The four comparisons agree with integer order on positions less than half a lap apart. */
  lemma Order(p: int, q: int)
    requires -TWO31 < p - q < TWO31
    ensures PosLt(Wrap(p), Wrap(q)) <==> p < q
    ensures PosLeq(Wrap(p), Wrap(q)) <==> p <= q
    ensures PosGt(Wrap(p), Wrap(q)) <==> p > q
    ensures PosGeq(Wrap(p), Wrap(q)) <==> p >= q
  {
    WrapMinus(p, q);
  }

  /** Within one lap the agreement holds exactly when the distance is below half a lap. */
  lemma OrderExactly(p: int, q: int)
    requires -TWO32 < p - q < TWO32
    ensures (&& (PosLt(Wrap(p), Wrap(q)) <==> p < q)
             && (PosLt(Wrap(q), Wrap(p)) <==> q < p))
            <==> -TWO31 < p - q < TWO31
  {
    WrapMinus(p, q);
    WrapMinus(q, p);
  }

  /** Subtracting wrapped positions is wrapping their difference. */
  lemma WrapMinus(p: int, q: int)
    ensures Minus(Wrap(p), Wrap(q)) == Wrap(p - q)
  {
  }

  /** A distance below one lap is recovered exactly from the wrapped positions. */
  lemma Distance(p: int, q: int)
    requires 0 <= p - q < TWO32
    ensures Minus(Wrap(p), Wrap(q)) == p - q
  {
    WrapMinus(p, q);
  }

  lemma WrapSmall(n: int)
    requires 0 <= n < TWO32
    ensures Wrap(n) == n
  {
  }

  /** Wrapping loses nothing exactly below one lap. */
  lemma WrapLess(n: nat)
    ensures Wrap(n) <= n && (Wrap(n) == n <==> n < TWO32)
  {
  }

  lemma WrapOver(n: int)
    requires TWO32 <= n < 2 * TWO32
    ensures Wrap(n) == n - TWO32
  {
  }

  lemma MinusExact(a: u32, b: u32)
    requires b <= a
    ensures Minus(a, b) == a - b
  {
  }

  /** Advancing a wrapped position is wrapping the advanced position. */
  lemma WrapPlus(p: int, n: u32)
    ensures Plus(Wrap(p), n) == Wrap(p + n)
  {
  }
}
