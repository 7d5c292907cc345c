/** Section 6 of RFC 4648: base32 by groups of five bytes, and its agreement with the bit-stream encoding. */
module Rfc4648 {
  import opened Base32
  import opened Radix

  /** Characters that carry the bits of a final group of `n` bytes. */
  function CharsFor(n: nat): nat
    requires 1 <= n <= 5
  {
    match n case 1 => 2 case 2 => 4 case 3 => 5 case 4 => 7 case _ => 8
  }

  /** The zero bits appended on the right of a group of `n` bytes. */
  function PadBits(n: nat): nat
    requires 1 <= n <= 5
  {
    5 * CharsFor(n) - 8 * n
  }

  /** A group of up to 40 bits, cut into 5-bit digits. */
  function GroupDigits(g: seq<Byte>): (ds: seq<nat>)
    requires 1 <= |g| <= 5
    ensures |ds| == CharsFor(|g|) && AreDigits(Quintet, ds)
  {
    DoubleNat(Value(Octet, g), PadBits(|g|));
    ToDigits(Quintet, Double(Value(Octet, g), PadBits(|g|)), CharsFor(|g|))
  }

  /** The digits of whole groups of five bytes. */
  function FullGroups(b: seq<Byte>, q: nat): (ds: seq<nat>)
    requires |b| == 5 * q
    ensures |ds| == 8 * q && AreDigits(Quintet, ds)
    decreases q
  {
    if q == 0 then [] else FullGroups(b[..|b| - 5], q - 1) + GroupDigits(b[|b| - 5..])
  }

  /** How many '=' complete the last group of `n` bytes. */
  function PadFor(n: nat): nat {
    if n % 5 == 0 then 0 else 8 - CharsFor(n % 5)
  }

  function RfcDigits(b: seq<Byte>): (ds: seq<nat>)
    ensures AreDigits(Quintet, ds)
  {
    var q := |b| / 5;
    FullGroups(b[..5 * q], q) + (if |b| == 5 * q then [] else GroupDigits(b[5 * q..]))
  }

  /** The encoding of the RFC: 8 characters a group, the last group padded with '='. */
  function RfcEncode(b: seq<Byte>): string {
    Chars(RfcDigits(b)) + Repeat('=', PadFor(|b|))
  }

  lemma {:induction false} GroupValue(g: seq<Byte>)
    requires 1 <= |g| <= 5
    ensures Value(Quintet, GroupDigits(g)) == Double(Value(Octet, g), PadBits(|g|))
  {
    var n := |g|;
    var v := Value(Octet, g);
    ValueBound(Octet, g);
    DoubleStrict(v, Double(1, 8 * n), PadBits(n));
    DoubleDouble(1, 8 * n, PadBits(n));
    DoubleNat(v, PadBits(n));
    ToDigitsValue(Quintet, Double(v, PadBits(n)), CharsFor(n));
  }

  /** Appending a group of digits for a group of bytes keeps the values in step. */
  lemma {:induction false} AppendGroup(p: seq<Byte>, g: seq<Byte>, dp: seq<nat>)
    requires 1 <= |g| <= 5 && Value(Quintet, dp) == Value(Octet, p)
    ensures Value(Quintet, dp + GroupDigits(g)) == Double(Value(Octet, p + g), PadBits(|g|))
  {
    var dg, v, n := GroupDigits(g), Value(Octet, p), |g|;
    ValueAppend(Octet, p, g);
    ValueAppend(Quintet, dp, dg);
    GroupValue(g);
    DoubleSum(Double(v, 8 * n), Value(Octet, g), PadBits(n));
    DoubleDouble(v, 8 * n, PadBits(n));
  }

  lemma {:induction false} AppendFullGroup(p: seq<Byte>, g: seq<Byte>, dp: seq<nat>)
    requires |g| == 5 && Value(Quintet, dp) == Value(Octet, p)
    ensures Value(Quintet, dp + GroupDigits(g)) == Value(Octet, p + g)
  {
    AppendGroup(p, g, dp);
  }

  lemma {:induction false} SplitLast(b: seq<Byte>)
    requires |b| >= 5
    ensures b[..|b| - 5] + b[|b| - 5..] == b
  {}

  lemma {:induction false} FullGroupsValue(b: seq<Byte>, q: nat)
    requires |b| == 5 * q
    ensures Value(Quintet, FullGroups(b, q)) == Value(Octet, b)
    decreases q
  {
    if q != 0 {
      var p, g := b[..|b| - 5], b[|b| - 5..];
      FullGroupsValue(p, q - 1);
      AppendFullGroup(p, g, FullGroups(p, q - 1));
      assert p + g == b by { SplitLast(b); }
    }
  }

  lemma {:induction false} RfcShape(n: nat)
    ensures var q, r := n / 5, n % 5;
            && DigitCount(n) == 8 * q + (if r == 0 then 0 else CharsFor(r))
            && TailBits(n) == (if r == 0 then 0 else PadBits(r))
            && PadChars(DigitCount(n)) == PadFor(n)
  {
    var q, r := n / 5, n % 5;
    assert n == 5 * q + r;
    match r { case 0 => case 1 => case 2 => case 3 => case 4 => }
  }

  lemma {:induction false} RfcValue(b: seq<Byte>)
    ensures |RfcDigits(b)| == DigitCount(|b|)
    ensures Value(Quintet, RfcDigits(b)) == Double(Value(Octet, b), TailBits(|b|))
  {
    var q := |b| / 5;
    var p, g := b[..5 * q], b[5 * q..];
    var dp := FullGroups(p, q);
    RfcShape(|b|);
    FullGroupsValue(p, q);
    assert p + g == b;
    if g == [] {
      assert RfcDigits(b) == dp && p == b;
    } else {
      AppendGroup(p, g, dp);
    }
  }

  /** The encoder's text is the RFC's, padding included, for every byte string. */
  lemma {:induction false} EncodeIsRfc(b: seq<Byte>)
    ensures Encode(b) == RfcEncode(b)
  {
    RfcValue(b);
    DigitsValue(b);
    DigitsUnique(Quintet, Digits(b), RfcDigits(b));
    RfcShape(|b|);
  }
}
