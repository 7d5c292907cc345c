/**
  JavaScript's bitwise operators on 32-bit integers, written out on unbounded integers:
  every operator reduces its operands modulo 2^32, and all but `>>>` answer a signed number.
*/
module JsBits {
  import opened Radix

  const TWO31 := 0x8000_0000
  const TWO32 := 0x1_0000_0000

  function ToUint32(x: int): nat { x % TWO32 }

  function ToInt32(x: int): (s: int)
    ensures -TWO31 <= s < TWO31 && ToUint32(s) == ToUint32(x)
  {
    var u := x % TWO32;
    if u >= TWO31 then u - TWO32 else u
  }

  function OrBits(a: nat, b: nat): nat
    decreases a + b
  {
    if a == 0 then b
    else if b == 0 then a
    else (if a % 2 == 1 || b % 2 == 1 then 1 else 0) + 2 * OrBits(a / 2, b / 2)
  }

  function AndBits(a: nat, b: nat): nat
    decreases a + b
  {
    if a == 0 || b == 0 then 0
    else (if a % 2 == 1 && b % 2 == 1 then 1 else 0) + 2 * AndBits(a / 2, b / 2)
  }

  /** `x << k` */
  function Shl(x: int, k: nat): int { ToInt32(Double(x, k)) }

  /** `x >>> k` */
  function Shru(x: int, k: nat): int { Halve(ToUint32(x), k) }

  /** `x | y` */
  function Or(x: int, y: int): int { ToInt32(OrBits(ToUint32(x), ToUint32(y))) }

  /** `x & y` */
  function And(x: int, y: int): int { ToInt32(AndBits(ToUint32(x), ToUint32(y))) }

  /** An `|` whose right operand only reaches the zero low bits of the left one adds. */
  lemma {:induction false} OrBitsDisjoint(h: nat, b: nat, k: nat)
    requires b < Double(1, k)
    ensures Double(h, k) >= 0 && OrBits(Double(h, k), b) == Double(h, k) + b
  {
    DoubleNat(h, k);
    if k != 0 {
      DoubleNat(h, k - 1);
      OrBitsDisjoint(h, b / 2, k - 1);
    }
  }

  lemma {:induction false} OrByte(h: nat, b: nat)
    requires b < 256
    ensures OrBits(256 * h, b) == 256 * h + b
  {
    ShiftBy8(1);
    ShiftBy8(h);
    OrBitsDisjoint(h, b, 8);
  }

  lemma {:induction false} OrQuintet(h: nat, d: nat)
    requires d < 32
    ensures OrBits(32 * h, d) == 32 * h + d
  {
    ShiftBy5(1);
    ShiftBy5(h);
    OrBitsDisjoint(h, d, 5);
  }

  lemma {:induction false} AndBitsOddMask(a: nat, m: nat)
    ensures AndBits(a, 2 * m + 1) == a % 2 + 2 * AndBits(a / 2, m)
  {}

  /** Masking with m = 2^k - 1 keeps the k low bits; each mask is reduced to the next smaller one. */
  lemma {:induction false} AndBits1(a: nat)
    ensures AndBits(a, 1) == a % 2
  {
    AndBitsOddMask(a, 0);
  }

  lemma {:induction false} AndBits3(a: nat)
    ensures AndBits(a, 3) == a % 4
  {
    AndBitsOddMask(a, 1);
    AndBits1(a / 2);
    assert a / 4 == (a / 2) / 2;
  }

  lemma {:induction false} AndBits7(a: nat)
    ensures AndBits(a, 7) == a % 8
  {
    AndBitsOddMask(a, 3);
    AndBits3(a / 2);
    assert a / 8 == (a / 2) / 4;
  }

  lemma {:induction false} AndBits15(a: nat)
    ensures AndBits(a, 15) == a % 16
  {
    AndBitsOddMask(a, 7);
    AndBits7(a / 2);
    assert a / 16 == (a / 2) / 8;
  }

  lemma {:induction false} AndBits31(a: nat)
    ensures AndBits(a, 31) == a % 32
  {
    AndBitsOddMask(a, 15);
    AndBits15(a / 2);
    assert a / 32 == (a / 2) / 16;
  }

  lemma {:induction false} AndBits63(a: nat)
    ensures AndBits(a, 63) == a % 64
  {
    AndBitsOddMask(a, 31);
    AndBits31(a / 2);
    assert a / 64 == (a / 2) / 32;
  }

  lemma {:induction false} AndBits127(a: nat)
    ensures AndBits(a, 127) == a % 128
  {
    AndBitsOddMask(a, 63);
    AndBits63(a / 2);
    assert a / 128 == (a / 2) / 64;
  }

  lemma {:induction false} AndBits255(a: nat)
    ensures AndBits(a, 255) == a % 256
  {
    AndBitsOddMask(a, 127);
    AndBits127(a / 2);
    assert a / 256 == (a / 2) / 128;
  }

  lemma {:induction false} ReduceByte(x: int, b: nat)
    requires b < 256
    ensures (256 * x + b) % TWO32 == 256 * (x % 0x100_0000) + b
  {
    assert (256 * x + b) / TWO32 == x / 0x100_0000;
  }

  lemma {:induction false} ReduceQuintet(x: int, d: nat)
    requires d < 32
    ensures (32 * x + d) % TWO32 == 32 * (x % 0x800_0000) + d
  {
    assert (32 * x + d) / TWO32 == x / 0x800_0000;
  }

  lemma {:induction false} LowBits(x: int)
    ensures (x % TWO32) % 0x100_0000 == x % 0x100_0000 && (x % TWO32) % 0x800_0000 == x % 0x800_0000
  {
    var q, r := x / TWO32, x % TWO32;
    assert x / 0x100_0000 == 256 * q + r / 0x100_0000;
    assert x / 0x800_0000 == 32 * q + r / 0x800_0000;
  }

  lemma {:induction false} ShlByte(x: int)
    ensures ToUint32(Shl(x, 8)) == 256 * (x % 0x100_0000)
  {
    ShiftBy8(x);
    ReduceByte(x, 0);
  }

  lemma {:induction false} ShlQuintet(x: int)
    ensures ToUint32(Shl(x, 5)) == 32 * (x % 0x800_0000)
  {
    ShiftBy5(x);
    ReduceQuintet(x, 0);
  }

  lemma {:induction false} OrLow(x: int, s: nat, y: nat)
    requires ToUint32(x) == s && y < TWO32 && OrBits(s, y) == s + y && s + y < TWO32
    ensures ToUint32(Or(x, y)) == s + y
  {
    assert ToUint32(y) == y;
  }

  /** `(x << 8) | b`, for a byte `b` and an `x` known modulo 2^32. */
  lemma {:induction false} ShiftInByte(x: int, n: nat, b: nat)
    requires b < 256 && ToUint32(x) == ToUint32(n)
    ensures ToUint32(Or(Shl(x, 8), b)) == ToUint32(256 * n + b)
  {
    var h := n % 0x100_0000;
    assert ToUint32(Shl(x, 8)) == 256 * h by { ShlByte(x); LowBits(x); LowBits(n); }
    assert OrBits(256 * h, b) == 256 * h + b by { OrByte(h, b); }
    OrLow(Shl(x, 8), 256 * h, b);
    ReduceByte(n, b);
  }

  /** `(x << 5) | d`, for a 5-bit digit `d` and an `x` known modulo 2^32. */
  lemma {:induction false} ShiftInQuintet(x: int, n: nat, d: nat)
    requires d < 32 && ToUint32(x) == ToUint32(n)
    ensures ToUint32(Or(Shl(x, 5), d)) == ToUint32(32 * n + d)
  {
    var h := n % 0x800_0000;
    assert ToUint32(Shl(x, 5)) == 32 * h by { ShlQuintet(x); LowBits(x); LowBits(n); }
    assert OrBits(32 * h, d) == 32 * h + d by { OrQuintet(h, d); }
    OrLow(Shl(x, 5), 32 * h, d);
    ReduceQuintet(n, d);
  }

  /** The bits of `n` just above bit `k` can be read off `n` modulo 2^32. */
  lemma {:induction false} ShruLow(n: nat, k: nat)
    requires k <= 24
    ensures 0 <= Halve(n % TWO32, k) < TWO32
    ensures Halve(n % TWO32, k) % 256 == Halve(n, k) % 256
    ensures Halve(n % TWO32, k) % 32 == Halve(n, k) % 32
  {
    var q, r := n / TWO32, n % TWO32;
    ShiftBy32(q);
    HalveShifted(r, q, 32 - k, k);
    DoubleDouble(q, 24 - k, 8);
    ShiftBy8(Double(q, 24 - k));
    HalveNat(r, k);
    AddMultiple(Halve(r, k), Double(q, 24 - k));
  }

  lemma {:induction false} AddMultiple(x: int, y: int)
    ensures (x + 256 * y) % 256 == x % 256 && (x + 256 * y) % 32 == x % 32
  {
    assert (x + 256 * y) / 256 == x / 256 + y;
    assert (x + 256 * y) / 32 == x / 32 + 8 * y;
  }

  lemma {:induction false} SmallAnd(x: nat, mask: nat, r: nat)
    requires x < TWO32 && mask < TWO31 && r < TWO31 && AndBits(x, mask) == r
    ensures And(x, mask) == r
  {
    assert ToUint32(x) == x;
    assert ToUint32(mask) == mask;
  }

  lemma {:induction false} And31(x: int)
    requires 0 <= x < TWO32
    ensures And(x, 31) == x % 32
  {
    AndBits31(x);
    SmallAnd(x, 31, x % 32);
  }

  lemma {:induction false} And255(x: int)
    requires 0 <= x < TWO32
    ensures And(x, 255) == x % 256
  {
    AndBits255(x);
    SmallAnd(x, 255, x % 256);
  }

  /** A mask with one bit tests that bit. */
  lemma {:induction false} AndBitsBit(a: nat, k: nat)
    ensures Double(1, k) >= 1 && AndBits(a, Double(1, k)) == Double(Halve(a, k) % 2, k)
    decreases k
  {
    DoubleNat(1, k);
    if k == 0 {
      AndBits1(a);
    } else {
      AndBitsBit(a / 2, k - 1);
      DoubleNat(1, k - 1);
      assert AndBits(a, 2 * Double(1, k - 1)) == 2 * AndBits(a / 2, Double(1, k - 1));
    }
  }

  lemma {:induction false} TopBit(x: nat)
    requires x < 256
    ensures AndBits(x, 128) == if x < 128 then 0 else 128
  {
    AndBitsBit(x, 7);
    ShiftBy8(0);
    ShiftBy8(1);
    ShiftBy8(x);
  }

  /** `& 0x80` tests the top bit of a byte. */
  lemma {:induction false} And128(x: nat)
    requires x < 256
    ensures And(x, 0x80) == if x < 128 then 0 else 128
  {
    TopBit(x);
    SmallAnd(x, 0x80, if x < 128 then 0 else 128);
  }

  // ---------------------------------------------------------------- bit by bit

  /** The bit of weight `2^k`. */
  function Bit(x: nat, k: nat): nat { Halve(x, k) % 2 }

  lemma {:induction false} OrBit(a: nat, b: nat, k: nat)
    ensures Bit(OrBits(a, b), k) == if Bit(a, k) == 1 || Bit(b, k) == 1 then 1 else 0
    decreases k, a
  {
    if k > 0 {
      OrBit(a / 2, b / 2, k - 1);
      assert OrBits(a, b) / 2 == OrBits(a / 2, b / 2);
    }
  }

  lemma {:induction false} AndBit(a: nat, b: nat, k: nat)
    ensures Bit(AndBits(a, b), k) == if Bit(a, k) == 1 && Bit(b, k) == 1 then 1 else 0
    decreases k, a
  {
    if k > 0 {
      AndBit(a / 2, b / 2, k - 1);
      assert AndBits(a, b) / 2 == AndBits(a / 2, b / 2);
    }
  }

  /** A bit of the disjunction is set exactly if it is set in either; a bit of the conjunction exactly if in both. */
  lemma {:induction false} BitByBit(a: nat, b: nat, k: nat)
    ensures Bit(OrBits(a, b), k) == (if Bit(a, k) == 1 || Bit(b, k) == 1 then 1 else 0)
    ensures Bit(AndBits(a, b), k) == (if Bit(a, k) == 1 && Bit(b, k) == 1 then 1 else 0)
  {
    OrBit(a, b, k);
    AndBit(a, b, k);
  }
}
