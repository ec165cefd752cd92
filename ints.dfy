/**
  Fixed-width integers of the sensor's fields, and the two narrowing
  conversions to signed types that the classifier relies on.
  Dafny's integers are unbounded: every wrap-around is written out.
 */
module Ints {

  /** uint8_t */
  type Byte = x: int | 0 <= x < 0x100

  /** uint16_t */
  type Word = x: int | 0 <= x < 0x1_0000

  /** uint32_t, the width of the millisecond clock */
  type Long = x: int | 0 <= x < 0x1_0000_0000

  /**
    Conversion to int8_t: the low eight bits read in two's complement
    (Int8Cast states that this is the one int8 value congruent to x).
   */
  function Int8(x: int): (r: int)
    ensures -0x80 <= r < 0x80
  {
    var m := x % 0x100;
    if m < 0x80 then m else m - 0x100
  }

  /**
    Conversion to int16_t: the low sixteen bits read in two's complement.
    The result is the one value of the int16 range congruent to x modulo 65536.
   */
  function Int16(x: int): (r: int)
    ensures -0x8000 <= r < 0x8000
    ensures (x - r) % 0x1_0000 == 0
  {
    var m := x % 0x1_0000;
    if m < 0x8000 then m else m - 0x1_0000
  }

  /** Int8(x) is the one value of the int8 range congruent to x modulo 256. */
  lemma Int8Cast(x: int, r: int)
    requires -0x80 <= r < 0x80
    ensures (x - r) % 0x100 == 0 <==> r == Int8(x)
  {
  }

  /** A threshold below 128 keeps its value through the int8_t cast; from 128 on it turns negative. */
  lemma Int8OfByte(x: Byte)
    ensures x < 0x80 ==> Int8(x) == x
    ensures 0x80 <= x ==> Int8(x) == x - 0x100 < 0
  {
  }

  function Min(a: int, b: int): (m: int)
    ensures m <= a && m <= b
    ensures m == a || m == b
  {
    if a <= b then a else b
  }

  // ---------------------------------------------------------------------------
  // Helpers for truncating division by a variable divisor

  lemma {:induction false} MulMonotone(d: nat, x: int, y: int)
    requires x <= y
    ensures d * x <= d * y
  {
    if d > 0 {
      MulMonotone(d - 1, x, y);
      assert d * x == (d - 1) * x + x && d * y == (d - 1) * y + y;
    }
  }

  /** q / d is the one k with d * k <= q < d * (k + 1). */
  lemma DivBracket(q: nat, d: nat)
    requires d >= 1
    ensures d * (q / d) <= q < d * (q / d) + d
  {
    assert q == d * (q / d) + q % d;
  }

  lemma DivExact(q: nat, d: nat, a: nat)
    requires d >= 1 && q == d * a
    ensures q / d == a
  {
    var k := q / d;
    DivBracket(q, d);
    if k < a {
      MulMonotone(d, k + 1, a);
    } else if k > a {
      MulMonotone(d, a + 1, k);
    }
  }

  lemma DivAtMost(q: nat, d: nat, b: nat)
    requires d >= 1 && q <= d * b
    ensures 0 <= q / d <= b
  {
    var k := q / d;
    DivBracket(q, d);
    if k > b {
      MulMonotone(d, b + 1, k);
    }
  }
}
