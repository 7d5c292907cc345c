/** Binary shifts, and big-endian positional numbers in bases that are powers of two. */
module Radix {

  type Byte = b: nat | b < 256

  // ---------------------------------------------------------------- shifts

  /** `x * 2^k` */
  function Double(x: int, k: nat): int {
    if k == 0 then x else 2 * Double(x, k - 1)
  }

  /** `x / 2^k`, rounded down */
  function Halve(x: int, k: nat): int
    decreases k, x
  {
    if k == 0 then x else Halve(x / 2, k - 1)
  }

  lemma {:induction false} DoubleDouble(x: int, j: nat, k: nat)
    ensures Double(Double(x, j), k) == Double(x, j + k)
  {
    if k != 0 { DoubleDouble(x, j, k - 1); }
  }

  lemma {:induction false} DoubleSum(x: int, y: int, k: nat)
    ensures Double(x + y, k) == Double(x, k) + Double(y, k)
  {
    if k != 0 { DoubleSum(x, y, k - 1); }
  }

  lemma {:induction false} DoubleStrict(x: int, y: int, k: nat)
    requires x < y
    ensures Double(x, k) < Double(y, k)
  {
    if k != 0 { DoubleStrict(x, y, k - 1); }
  }

  lemma {:induction false} DoubleNat(x: nat, k: nat)
    ensures Double(x, k) >= x
  {
    if k != 0 { DoubleNat(x, k - 1); }
  }

  lemma {:induction false} HalveHalve(x: int, j: nat, k: nat)
    ensures Halve(Halve(x, j), k) == Halve(x, j + k)
    decreases j
  {
    if j != 0 { HalveHalve(x / 2, j - 1, k); }
  }

  lemma {:induction false} HalveDouble(x: int, k: nat)
    ensures Halve(Double(x, k), k) == x
  {
    if k != 0 { HalveDouble(x, k - 1); }
  }

  lemma {:induction false} HalveNat(x: nat, k: nat)
    ensures 0 <= Halve(x, k) <= x
  {
    if k != 0 { HalveNat(x / 2, k - 1); }
  }

  /** Halving forgets nothing above the bits it drops. */
  lemma {:induction false} HalveShifted(x: int, y: int, j: nat, k: nat)
    ensures Halve(x + Double(y, j + k), k) == Halve(x, k) + Double(y, j)
    decreases k
  {
    if k != 0 {
      assert (x + Double(y, j + k)) / 2 == x / 2 + Double(y, j + k - 1);
      HalveShifted(x / 2, y, j, k - 1);
    }
  }

  lemma {:induction false} ShiftBy5(x: int)
    ensures Double(x, 5) == 32 * x && Halve(x, 5) == x / 32
  {
    assert Double(x, 1) == 2 * x;
    assert Double(x, 2) == 4 * x;
    assert Double(x, 3) == 8 * x;
    assert Double(x, 4) == 16 * x;
    HalveStep(x, 1);
    HalveStep(x, 2);
    HalveStep(x, 3);
    HalveStep(x, 4);
  }

  lemma {:induction false} ShiftBy8(x: int)
    ensures Double(x, 7) == 128 * x && Halve(x, 7) == x / 128
    ensures Double(x, 8) == 256 * x && Halve(x, 8) == x / 256
  {
    ShiftBy5(x);
    assert Double(x, 6) == 64 * x;
    assert Double(x, 7) == 128 * x;
    HalveStep(x, 5);
    HalveStep(x, 6);
    HalveStep(x, 7);
  }

  lemma {:induction false} HalveStep(x: int, k: nat)
    ensures Halve(x, k + 1) == Halve(x, k) / 2 && Halve(x, 1) == x / 2
  {
    HalveHalve(x, k, 1);
    assert Halve(Halve(x, k), 1) == Halve(x, k) / 2;
  }

  lemma {:induction false} ShiftBy32(x: int)
    ensures Double(x, 16) == 0x1_0000 * x && Double(x, 24) == 0x100_0000 * x && Double(x, 32) == 0x1_0000_0000 * x
  {
    ShiftBy8(x);
    DoubleDouble(x, 8, 8);
    ShiftBy8(Double(x, 8));
    DoubleDouble(x, 16, 8);
    ShiftBy8(Double(x, 16));
    DoubleDouble(x, 24, 8);
    ShiftBy8(Double(x, 24));
  }

  // ---------------------------------------------------------------- digit strings

  /** The two digit sizes in use: 5-bit base32 digits and 8-bit bytes. */
  datatype Base = Quintet | Octet {

    function Width(): nat { if Quintet? then 5 else 8 }

    function Size(): nat { if Quintet? then 32 else 256 }

    function Times(x: int): int { if Quintet? then 32 * x else 256 * x }

    function Quotient(x: int): int { if Quintet? then x / 32 else x / 256 }

    function Remainder(x: int): (r: nat)
      ensures r < Size()
    {
      if Quintet? then x % 32 else x % 256
    }
  }

  /** The number written by `ds`, most significant digit first. */
  function Value(base: Base, ds: seq<nat>): nat {
    if ds == [] then 0 else base.Times(Value(base, ds[..|ds| - 1])) + ds[|ds| - 1]
  }

  predicate AreDigits(base: Base, ds: seq<nat>) {
    forall i :: 0 <= i < |ds| ==> ds[i] < base.Size()
  }

  /** The `n` low-order digits of `x`. */
  function ToDigits(base: Base, x: nat, n: nat): (ds: seq<nat>)
    ensures |ds| == n && AreDigits(base, ds)
    decreases n, x
  {
    if n == 0 then [] else ToDigits(base, base.Quotient(x), n - 1) + [base.Remainder(x)]
  }

  lemma {:induction false} ShiftByWidth(base: Base, x: int)
    ensures Double(x, base.Width()) == base.Times(x) && Halve(x, base.Width()) == base.Quotient(x)
  {
    ShiftBy5(x);
    ShiftBy8(x);
  }

  lemma {:induction false} ValueSnoc(base: Base, ds: seq<nat>, d: nat)
    ensures Value(base, ds + [d]) == base.Times(Value(base, ds)) + d
  {
    assert (ds + [d])[..|ds|] == ds;
  }

  /** Digits are recovered from their value and their number. */
  lemma {:induction false} ValueToDigits(base: Base, ds: seq<nat>)
    requires AreDigits(base, ds)
    ensures ToDigits(base, Value(base, ds), |ds|) == ds
  {
    if ds != [] {
      var k := |ds| - 1;
      ValueToDigits(base, ds[..k]);
      SplitDigit(base, Value(base, ds[..k]), ds[k]);
      assert ds == ds[..k] + [ds[k]];
    }
  }

  lemma {:induction false} SplitDigit(base: Base, x: nat, d: nat)
    requires d < base.Size()
    ensures base.Quotient(base.Times(x) + d) == x && base.Remainder(base.Times(x) + d) == d
  {}

  /** Width and value determine the digits. */
  lemma {:induction false} DigitsUnique(base: Base, a: seq<nat>, b: seq<nat>)
    requires |a| == |b| && AreDigits(base, a) && AreDigits(base, b)
    requires Value(base, a) == Value(base, b)
    ensures a == b
  {
    ValueToDigits(base, a);
    ValueToDigits(base, b);
  }

  /** Concatenation shifts the left part by the width of the right part. */
  lemma {:induction false} ValueAppend(base: Base, a: seq<nat>, b: seq<nat>)
    ensures Value(base, a + b) == Double(Value(base, a), base.Width() * |b|) + Value(base, b)
  {
    if b == [] {
      assert a + b == a;
    } else {
      var k, w := |b| - 1, base.Width();
      assert a + b == (a + b[..k]) + [b[k]];
      ValueSnoc(base, a + b[..k], b[k]);
      ValueAppend(base, a, b[..k]);
      DoubleDouble(Value(base, a), w * k, w);
      ShiftByWidth(base, Double(Value(base, a), w * k));
    }
  }

  lemma {:induction false} ValueBound(base: Base, ds: seq<nat>)
    requires AreDigits(base, ds)
    ensures Value(base, ds) < Double(1, base.Width() * |ds|)
  {
    if ds != [] {
      var k, w := |ds| - 1, base.Width();
      ValueBound(base, ds[..k]);
      DoubleDouble(1, w * k, w);
      ShiftByWidth(base, Double(1, w * k));
    }
  }

  /** ToDigits writes `x`, when `x` fits. */
  lemma {:induction false} ToDigitsValue(base: Base, x: nat, n: nat)
    requires x < Double(1, base.Width() * n)
    ensures Value(base, ToDigits(base, x, n)) == x
  {
    if n != 0 {
      var w := base.Width();
      DoubleDouble(1, w * (n - 1), w);
      ShiftByWidth(base, Double(1, w * (n - 1)));
      ToDigitsValue(base, base.Quotient(x), n - 1);
      ValueSnoc(base, ToDigits(base, base.Quotient(x), n - 1), base.Remainder(x));
    }
  }

  /** A leading zero digit adds nothing. */
  lemma {:induction false} LeadingZero(base: Base, ds: seq<nat>)
    ensures Value(base, [0] + ds) == Value(base, ds)
  {
    if ds != [] {
      var k := |ds| - 1;
      assert ([0] + ds)[..k + 1] == [0] + ds[..k];
      LeadingZero(base, ds[..k]);
    }
  }

  /** Only zero digits write zero. */
  lemma {:induction false} ZeroValue(base: Base, ds: seq<nat>)
    requires Value(base, ds) == 0
    ensures forall i :: 0 <= i < |ds| ==> ds[i] == 0
  {
    if ds != [] {
      ZeroValue(base, ds[..|ds| - 1]);
    }
  }

  /** A non-zero leading digit makes the value positive. */
  lemma {:induction false} LeadingDigitPositive(base: Base, ds: seq<nat>)
    requires ds != [] && ds[0] != 0
    ensures Value(base, ds) > 0
  {
    if Value(base, ds) == 0 { ZeroValue(base, ds); }
  }

  /** The same value with a non-zero leading digit has one width only. */
  lemma {:induction false} MinimalWidth(base: Base, a: seq<nat>, b: seq<nat>)
    requires AreDigits(base, a) && AreDigits(base, b)
    requires Value(base, a) == Value(base, b)
    requires a != [] ==> a[0] != 0
    requires b != [] ==> b[0] != 0
    ensures a == b
  {
    if a == [] {
      if b != [] { LeadingDigitPositive(base, b); }
    } else if b == [] {
      LeadingDigitPositive(base, a);
    } else {
      var j, k := |a| - 1, |b| - 1;
      MinimalWidth(base, a[..j], b[..k]);
      assert a == a[..j] + [a[j]] && b == b[..k] + [b[k]];
    }
  }

  /** `writeUInt32BE` */
  function Uint32BE(x: nat): (b: seq<Byte>)
    ensures |b| == 4
  {
    ToDigits(Octet, x, 4)
  }

  lemma {:induction false} Uint32Value(x: nat)
    requires x < 0x1_0000_0000
    ensures Value(Octet, Uint32BE(x)) == x
  {
    ShiftBy32(1);
    ToDigitsValue(Octet, x, 4);
  }
}
