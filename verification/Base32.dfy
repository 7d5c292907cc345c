/** Base32 text: the shift-accumulator encoder and decoder, and the encoding of section 6 of RFC 4648. */
module Base32 {
  import opened JsBits
  import opened Outcomes
  import opened Radix
  import opened Text

  const ALPHABET := "ABCDEFGHIJKLMNOPQRSTUVWXYZ234567"

  /** The character at position `d` of the alphabet. */
  function Symbol(d: nat): char
    requires d < 32
  {
    if d < 26 then 'A' + d as char else '2' + (d - 26) as char
  }

  lemma {:induction false} SymbolIsAlphabet(d: nat)
    requires d < 32
    ensures Symbol(d) == ALPHABET[d]
  {}

  datatype DecodeError = InvalidCharacter

  // ---------------------------------------------------------------- what encoding means

  /** Digits that hold `n` bytes, and the zero bits that complete the last of them. */
  function DigitCount(n: nat): nat { (8 * n + 4) / 5 }

  function TailBits(n: nat): (t: nat)
    ensures t < 5
  {
    5 * DigitCount(n) - 8 * n
  }

  /** How many '=' complete the last group of eight characters. */
  function PadChars(chars: nat): (p: nat)
    ensures p < 8 && (chars + p) % 8 == 0
  {
    (8 - chars % 8) % 8
  }

  /** The bits of `b` as one number, completed with zero bits and cut into 5-bit digits. */
  function Digits(b: seq<Byte>): (ds: seq<nat>)
    ensures |ds| == DigitCount(|b|) && AreDigits(Quintet, ds)
  {
    DoubleNat(Value(Octet, b), TailBits(|b|));
    ToDigits(Quintet, Double(Value(Octet, b), TailBits(|b|)), DigitCount(|b|))
  }

  function Chars(ds: seq<nat>): (s: string)
    requires AreDigits(Quintet, ds)
    ensures |s| == |ds| && forall i :: 0 <= i < |ds| ==> s[i] == Symbol(ds[i])
  {
    if ds == [] then "" else Chars(ds[..|ds| - 1]) + [Symbol(ds[|ds| - 1])]
  }

  function Repeat(c: char, n: nat): (s: string)
    ensures |s| == n
  {
    seq(n, _ => c)
  }

  function Encode(b: seq<Byte>): string {
    Chars(Digits(b)) + Repeat('=', PadChars(DigitCount(|b|)))
  }

  // ---------------------------------------------------------------- what decoding means

  /** `indexOf` from position `from`. */
  function IndexFrom(c: char, from: nat): int
    requires from <= 32
    decreases 32 - from
  {
    if from == 32 then -1 else if Symbol(from) == c then from else IndexFrom(c, from + 1)
  }

  function IndexOf(c: char): int { IndexFrom(c, 0) }

  lemma {:induction false} IndexFromRange(c: char, from: nat)
    requires from <= 32
    ensures IndexFrom(c, from) == -1 || from <= IndexFrom(c, from) < 32
    decreases 32 - from
  {
    if from < 32 { IndexFromRange(c, from + 1); }
  }

  function Normalize(input: string): string {
    RemoveSpaces(StripTrailing(ToUpper(input), '='))
  }

  predicate IsBase32(text: string) {
    forall i :: 0 <= i < |text| ==> IndexOf(text[i]) >= 0
  }

  function Indices(text: string): (ds: seq<nat>)
    requires IsBase32(text)
    ensures |ds| == |text| && forall i :: 0 <= i < |text| ==> ds[i] == IndexOf(text[i])
  {
    if text == "" then [] else Indices(text[..|text| - 1]) + [IndexOf(text[|text| - 1])]
  }

  /** As many whole bytes as the digits hold; the bits left over are dropped. */
  function DecodeDigits(ds: seq<nat>): seq<Byte> {
    HalveNat(Value(Quintet, ds), 5 * |ds| % 8);
    ToDigits(Octet, Halve(Value(Quintet, ds), 5 * |ds| % 8), 5 * |ds| / 8)
  }

  function Decode(input: string): Result<seq<Byte>, DecodeError> {
    var text := Normalize(input);
    if IsBase32(text) then Ok(DecodeDigits(Indices(text))) else Err(InvalidCharacter)
  }

  // ---------------------------------------------------------------- round trip

  lemma {:induction false} DigitsValue(b: seq<Byte>)
    ensures Value(Quintet, Digits(b)) == Double(Value(Octet, b), TailBits(|b|))
  {
    var v, t := Value(Octet, b), TailBits(|b|);
    ValueBound(Octet, b);
    DoubleStrict(v, Double(1, 8 * |b|), t);
    DoubleDouble(1, 8 * |b|, t);
    DoubleNat(v, t);
    ToDigitsValue(Quintet, Double(v, t), DigitCount(|b|));
  }

  /** Base32 round trip, for every byte string. */
  lemma {:induction false} DecodeEncode(b: seq<Byte>)
    ensures Decode(Encode(b)) == Ok(b)
  {
    var ds := Digits(b);
    NormalizeEncoded(b);
    IndicesOfChars(ds);
    DigitsRoundTrip(b);
  }

  lemma {:induction false} DigitsRoundTrip(b: seq<Byte>)
    ensures DecodeDigits(Digits(b)) == b
  {
    var ds, tail := Digits(b), TailBits(|b|);
    assert 5 * |ds| / 8 == |b| && 5 * |ds| % 8 == tail;
    assert Halve(Value(Quintet, ds), tail) == Value(Octet, b) by {
      DigitsValue(b);
      HalveDouble(Value(Octet, b), tail);
    }
    ValueToDigits(Octet, b);
  }

  lemma {:induction false} IndexFromFinds(d: nat, from: nat)
    requires from <= d < 32
    ensures IndexFrom(Symbol(d), from) == d
    decreases d - from
  {
    if from < d {
      IndexFromFinds(d, from + 1);
    }
  }

  lemma {:induction false} IndicesOfChars(ds: seq<nat>)
    requires AreDigits(Quintet, ds)
    ensures IsBase32(Chars(ds)) && Indices(Chars(ds)) == ds
  {
    forall i | 0 <= i < |ds| ensures IndexOf(Chars(ds)[i]) == ds[i] {
      IndexFromFinds(ds[i], 0);
    }
  }

  lemma {:induction false} CharsAreUpper(ds: seq<nat>)
    requires AreDigits(Quintet, ds)
    ensures forall i :: 0 <= i < |ds| ==> var c := Chars(ds)[i]; 'A' <= c <= 'Z' || '2' <= c <= '7'
  {}

  lemma {:induction false} StripPadding(text: string, n: nat)
    requires forall i :: 0 <= i < |text| ==> text[i] != '='
    ensures StripTrailing(text + Repeat('=', n), '=') == text
  {
    var s := text + Repeat('=', n);
    if n == 0 {
      assert s == text;
    } else {
      assert s[..|s| - 1] == text + Repeat('=', n - 1);
      StripPadding(text, n - 1);
    }
  }

  lemma {:induction false} PaddedIsUpper(text: string, n: nat)
    requires forall i :: 0 <= i < |text| ==> 'A' <= text[i] <= 'Z' || '2' <= text[i] <= '7'
    ensures ToUpper(text + Repeat('=', n)) == text + Repeat('=', n)
  {
    var s := text + Repeat('=', n);
    forall i | 0 <= i < |s| ensures Upper(s[i]) == [s[i]] {}
    AlreadyUpper(s);
  }

  lemma {:induction false} NormalizePadded(text: string, n: nat)
    requires forall i :: 0 <= i < |text| ==> 'A' <= text[i] <= 'Z' || '2' <= text[i] <= '7'
    ensures Normalize(text + Repeat('=', n)) == text
  {
    assert ToUpper(text + Repeat('=', n)) == text + Repeat('=', n) by { PaddedIsUpper(text, n); }
    assert StripTrailing(text + Repeat('=', n), '=') == text by { StripPadding(text, n); }
    NoSpacesToRemove(text);
  }

  /** Normalizing an encoding removes the padding and nothing else. */
  lemma {:induction false} NormalizeEncoded(b: seq<Byte>)
    ensures Normalize(Encode(b)) == Chars(Digits(b))
  {
    CharsAreUpper(Digits(b));
    NormalizePadded(Chars(Digits(b)), PadChars(DigitCount(|b|)));
  }

  // ---------------------------------------------------------------- the shift accumulator

  /** The accumulator holds the number read so far modulo 2^32; all but its low `bits` bits are written. */
  ghost predicate Accumulated(value: int, bits: nat, read: nat, written: nat) {
    ToUint32(value) == read % TWO32 && written == Halve(read, bits)
  }

  lemma {:induction false} LoadByte(value: int, bits: nat, read: nat, written: nat, b: nat)
    requires b < 256 && Accumulated(value, bits, read, written)
    ensures Accumulated(Or(Shl(value, 8), b), bits + 8, 256 * read + b, written)
  {
    ShiftInByte(value, read, b);
    HalveHalve(256 * read + b, 8, bits);
    ShiftBy8(256 * read + b);
  }

  lemma {:induction false} LoadQuintet(value: int, bits: nat, read: nat, written: nat, d: nat)
    requires d < 32 && Accumulated(value, bits, read, written)
    ensures Accumulated(Or(Shl(value, 5), d), bits + 5, 32 * read + d, written)
  {
    ShiftInQuintet(value, read, d);
    HalveHalve(32 * read + d, 5, bits);
    ShiftBy5(32 * read + d);
  }

  lemma {:induction false} EmitDigit(value: int, bits: nat, read: nat, written: nat)
    requires 5 <= bits <= 29 && Accumulated(value, bits, read, written)
    ensures var d := And(Shru(value, bits - 5), 31);
            0 <= d < 32 && Accumulated(value, bits - 5, read, 32 * written + d)
  {
    var x := Halve(read, bits - 5);
    assert written == x / 32 by {
      HalveHalve(read, bits - 5, 5);
      ShiftBy5(x);
    }
    assert And(Shru(value, bits - 5), 31) == x % 32 by {
      ShruLow(read, bits - 5);
      And31(Shru(value, bits - 5));
    }
  }

  lemma {:induction false} EmitByte(value: int, bits: nat, read: nat, written: nat)
    requires 8 <= bits <= 32 && Accumulated(value, bits, read, written)
    ensures var b := And(Shru(value, bits - 8), 255);
            0 <= b < 256 && Accumulated(value, bits - 8, read, 256 * written + b)
  {
    var x := Halve(read, bits - 8);
    assert written == x / 256 by {
      HalveHalve(read, bits - 8, 8);
      ShiftBy8(x);
    }
    assert And(Shru(value, bits - 8), 255) == x % 256 by {
      ShruLow(read, bits - 8);
      And255(Shru(value, bits - 8));
    }
  }

  lemma {:induction false} LastDigit(value: int, bits: nat, read: nat, written: nat)
    requires 0 < bits < 5 && Accumulated(value, bits, read, written)
    ensures var d := And(Shl(value, 5 - bits), 31);
            0 <= d < 32 && 32 * written + d == Double(read, 5 - bits)
  {
    var k := 5 - bits;
    ShlLow(value, read, k);
    LastQuotient(read, bits);
  }

  /** `(x << k) & 31`, for an `x` known modulo 2^32. */
  lemma {:induction false} ShlLow(x: int, n: nat, k: nat)
    requires ToUint32(x) == ToUint32(n)
    ensures And(Shl(x, k), 31) == Double(n, k) % 32
  {
    MaskFive(Shl(x, k));
    ShlModulo(x, k);
    Mod32(Double(x, k));
    SameMod32(x, n, k);
  }

  lemma {:induction false} MaskFive(x: int)
    ensures And(x, 31) == ToUint32(x) % 32
  {
    AndBits31(ToUint32(x));
  }

  lemma {:induction false} ShlModulo(x: int, k: nat)
    ensures ToUint32(Shl(x, k)) == Double(x, k) % TWO32
  {}

  lemma {:induction false} LastQuotient(read: nat, bits: nat)
    requires bits <= 5
    ensures 32 * Halve(read, bits) + Double(read, 5 - bits) % 32 == Double(read, 5 - bits)
  {
    var k := 5 - bits;
    assert Halve(read, bits) == Double(read, k) / 32 by {
      HalveHalve(Double(read, k), k, bits);
      HalveDouble(read, k);
      ShiftBy5(Double(read, k));
    }
  }

  lemma {:induction false} Mod32(x: int)
    ensures (x % TWO32) % 32 == x % 32
  {
    assert x / 32 == (x / TWO32) * 0x800_0000 + (x % TWO32) / 32;
  }

  lemma {:induction false} SameMod32(x: int, y: int, k: nat)
    requires ToUint32(x) == ToUint32(y)
    ensures Double(x, k) % 32 == Double(y, k) % 32
  {
    if k == 0 {
      Mod32(x);
      Mod32(y);
    } else {
      SameMod32(x, y, k - 1);
      DoubleMod32(Double(x, k - 1));
      DoubleMod32(Double(y, k - 1));
    }
  }

  lemma {:induction false} DoubleMod32(x: int)
    ensures (2 * x) % 32 == (2 * (x % 32)) % 32
  {}

  lemma {:induction false} CharsSnoc(ds: seq<nat>, d: nat)
    requires AreDigits(Quintet, ds) && d < 32
    ensures AreDigits(Quintet, ds + [d]) && Chars(ds + [d]) == Chars(ds) + [Symbol(d)]
  {
    assert (ds + [d])[..|ds|] == ds;
  }

  lemma {:induction false} TakeSnoc(b: seq<Byte>, i: nat)
    requires i < |b|
    ensures b[..i] + [b[i]] == b[..i + 1]
  {}

  lemma {:induction false} TakeAll(b: seq<Byte>)
    ensures b[..|b|] == b
  {}

  /** What the encoder has done after reading `read`: its digits, and the bits it still holds. */
  ghost predicate Encoding(read: seq<Byte>, ds: seq<nat>, value: int, bits: int) {
    && bits >= 0 && 5 * |ds| + bits == 8 * |read|
    && AreDigits(Quintet, ds)
    && Accumulated(value, bits, Value(Octet, read), Value(Quintet, ds))
  }

  lemma {:induction false} EncodeByte(read: seq<Byte>, ds: seq<nat>, value: int, bits: int, b: Byte)
    requires Encoding(read, ds, value, bits)
    ensures Encoding(read + [b], ds, Or(Shl(value, 8), b), bits + 8)
  {
    ValueSnoc(Octet, read, b);
    LoadByte(value, bits, Value(Octet, read), Value(Quintet, ds), b);
  }

  lemma {:induction false} EncodeDigit(read: seq<Byte>, ds: seq<nat>, value: int, bits: int)
    requires Encoding(read, ds, value, bits) && 5 <= bits <= 12
    ensures var d := And(Shru(value, bits - 5), 31); 0 <= d < 32 && Encoding(read, ds + [d], value, bits - 5)
  {
    EmitDigit(value, bits, Value(Octet, read), Value(Quintet, ds));
    ValueSnoc(Quintet, ds, And(Shru(value, bits - 5), 31));
  }

  /** The last, partly filled digit completes the RFC's digits. */
  lemma {:induction false} EncodeRest(b: seq<Byte>, ds: seq<nat>, value: int, bits: int)
    requires Encoding(b, ds, value, bits) && 0 < bits < 5
    ensures var d := And(Shl(value, 5 - bits), 31); 0 <= d < 32 && ds + [d] == Digits(b)
  {
    var d := And(Shl(value, 5 - bits), 31);
    LastDigit(value, bits, Value(Octet, b), Value(Quintet, ds));
    assert Value(Quintet, ds + [d]) == Double(Value(Octet, b), 5 - bits) by { ValueSnoc(Quintet, ds, d); }
    FinishDigits(b, ds + [d], 5 - bits);
  }

  lemma {:induction false} SameLength(m: nat, n: nat, bytes: nat, s: nat, t: nat)
    requires 5 * m == 8 * bytes + s && 5 * n == 8 * bytes + t && s < 5 && t < 5
    ensures m == n && s == t
  {}

  lemma {:induction false} FinishDigits(b: seq<Byte>, ds: seq<nat>, pad: nat)
    requires AreDigits(Quintet, ds) && 5 * |ds| == 8 * |b| + pad && pad < 5
    requires Value(Quintet, ds) == Double(Value(Octet, b), pad)
    ensures ds == Digits(b)
  {
    var rs, tail := Digits(b), TailBits(|b|);
    SameLength(|rs|, |ds|, |b|, tail, pad);
    assert Value(Quintet, rs) == Double(Value(Octet, b), tail) by { DigitsValue(b); }
    DigitsUnique(Quintet, ds, rs);
  }

  lemma {:induction false} EncodeWhole(b: seq<Byte>, ds: seq<nat>, value: int)
    requires Encoding(b, ds, value, 0)
    ensures ds == Digits(b)
  {
    FinishDigits(b, ds, 0);
  }

  // ---------------------------------------------------------------- the source's loops

  /** The inner loop of the encoder. */
  method EmitDigits(value: int, held: nat, text: string, ghost read: seq<Byte>, ghost written: seq<nat>)
    returns (bits: nat, output: string, ghost ds: seq<nat>)
    requires Encoding(read, written, value, held) && held <= 12 && text == Chars(written)
    ensures Encoding(read, ds, value, bits) && bits < 5 && output == Chars(ds)
  {
    bits, output, ds := held, text, written;
    while bits >= 5
      invariant Encoding(read, ds, value, bits) && bits <= 12 && output == Chars(ds)
    {
      EncodeDigit(read, ds, value, bits);
      var digit := And(Shru(value, bits - 5), 31);
      CharsSnoc(ds, digit);
      output := output + [Symbol(digit)];
      bits := bits - 5;
      ds := ds + [digit];
    }
  }

  /** The body of the encoder's outer loop. */
  method EncodeNext(byte: Byte, value: int, bits: nat, text: string, ghost read: seq<Byte>, ghost ds: seq<nat>)
    returns (value': int, bits': nat, output: string, ghost ds': seq<nat>)
    requires Encoding(read, ds, value, bits) && bits < 5 && text == Chars(ds)
    ensures Encoding(read + [byte], ds', value', bits') && bits' < 5 && output == Chars(ds')
  {
    EncodeByte(read, ds, value, bits, byte);
    value' := Or(Shl(value, 8), byte);
    bits', output, ds' := EmitDigits(value', bits + 8, text, read + [byte], ds);
  }

  lemma {:induction false} EncodePads(b: seq<Byte>)
    ensures Encode(b) == Chars(Digits(b)) + Repeat('=', PadChars(|Chars(Digits(b))|))
  {}

  method Base32Encode(buffer: seq<Byte>) returns (output: string)
    ensures output == Encode(buffer)
  {
    var text := EncodeBytes(buffer);
    EncodePads(buffer);
    output := PadToGroup(text);
  }

  method EncodeBytes(buffer: seq<Byte>) returns (output: string)
    ensures output == Chars(Digits(buffer))
  {
    var bits, value := 0, 0;
    output := "";
    ghost var ds: seq<nat> := [];
    for i := 0 to |buffer|
      invariant Encoding(buffer[..i], ds, value, bits) && bits < 5 && output == Chars(ds)
    {
      value, bits, output, ds := EncodeNext(buffer[i], value, bits, output, buffer[..i], ds);
      TakeSnoc(buffer, i);
    }
    TakeAll(buffer);
    output := EmitRest(value, bits, output, buffer, ds);
  }

  /** The digit that holds the bits left over. */
  method EmitRest(value: int, bits: nat, text: string, ghost read: seq<Byte>, ghost ds: seq<nat>)
    returns (output: string)
    requires Encoding(read, ds, value, bits) && bits < 5 && text == Chars(ds)
    ensures output == Chars(Digits(read))
  {
    output := text;
    if bits > 0 {
      EncodeRest(read, ds, value, bits);
      var digit := And(Shl(value, 5 - bits), 31);
      CharsSnoc(ds, digit);
      output := output + [Symbol(digit)];
    } else {
      EncodeWhole(read, ds, value);
    }
  }

  lemma {:induction false} PadGoesOn(chars: nat, n: nat)
    requires n <= PadChars(chars) && (chars + n) % 8 != 0
    ensures n < PadChars(chars)
  {}

  lemma {:induction false} PadStops(chars: nat, n: nat)
    requires n <= PadChars(chars) && (chars + n) % 8 == 0
    ensures n == PadChars(chars)
  {}

  method PadToGroup(text: string) returns (output: string)
    ensures output == text + Repeat('=', PadChars(|text|))
  {
    output := text;
    ghost var n := 0;
    while |output| % 8 != 0
      invariant n <= PadChars(|text|) && output == text + Repeat('=', n)
      decreases PadChars(|text|) - n
    {
      PadGoesOn(|text|, n);
      output := output + "=";
      n := n + 1;
    }
    PadStops(|text|, n);
  }

  /** What the decoder has done after reading the digits `read`. */
  ghost predicate Decoding(read: seq<nat>, bytes: seq<Byte>, value: int, bits: int) {
    && bits >= 0 && 8 * |bytes| + bits == 5 * |read|
    && Accumulated(value, bits, Value(Quintet, read), Value(Octet, bytes))
  }

  lemma {:induction false} DecodeChar(read: seq<nat>, bytes: seq<Byte>, value: int, bits: int, d: nat)
    requires Decoding(read, bytes, value, bits) && d < 32
    ensures Decoding(read + [d], bytes, Or(Shl(value, 5), d), bits + 5)
  {
    ValueSnoc(Quintet, read, d);
    LoadQuintet(value, bits, Value(Quintet, read), Value(Octet, bytes), d);
  }

  lemma {:induction false} DecodeByte(read: seq<nat>, bytes: seq<Byte>, value: int, bits: int)
    requires Decoding(read, bytes, value, bits) && 8 <= bits <= 12
    ensures var b := And(Shru(value, bits - 8), 255); 0 <= b < 256 && Decoding(read, bytes + [b], value, bits - 8)
  {
    EmitByte(value, bits, Value(Quintet, read), Value(Octet, bytes));
    ValueSnoc(Octet, bytes, And(Shru(value, bits - 8), 255));
  }

  lemma {:induction false} DecodeWhole(read: seq<nat>, bytes: seq<Byte>, value: int, bits: int)
    requires Decoding(read, bytes, value, bits) && bits < 8
    ensures bytes == DecodeDigits(read)
  {
    ValueToDigits(Octet, bytes);
  }

  method Base32Decode(input: string) returns (r: Result<seq<Byte>, DecodeError>)
    ensures r == Decode(input)
  {
    var normalized := Normalize(input);
    r := DecodeText(normalized);
  }

  method DecodeText(text: string) returns (r: Result<seq<Byte>, DecodeError>)
    ensures r == if IsBase32(text) then Ok(DecodeDigits(Indices(text))) else Err(InvalidCharacter)
  {
    var bits, value := 0, 0;
    var bytes: seq<Byte> := [];
    ghost var ds: seq<nat> := [];
    for i := 0 to |text|
      invariant IsBase32(text[..i]) && ds == Indices(text[..i])
      invariant Decoding(ds, bytes, value, bits) && bits < 8
    {
      var index := IndexOf(text[i]);
      IndexFromRange(text[i], 0);
      if index < 0 {
        return Err(InvalidCharacter);
      }
      IndicesSnoc(text, i);
      value, bits, bytes := DecodeNext(index, value, bits, bytes, ds);
      ds := ds + [index];
    }
    assert text[..|text|] == text;
    DecodeWhole(ds, bytes, value, bits);
    r := Ok(bytes);
  }

  lemma {:induction false} IndicesSnoc(text: string, i: nat)
    requires i < |text| && IsBase32(text[..i]) && IndexOf(text[i]) >= 0
    ensures IsBase32(text[..i + 1]) && Indices(text[..i + 1]) == Indices(text[..i]) + [IndexOf(text[i])]
  {
    var shorter, longer := text[..i], text[..i + 1];
    assert longer[i] == text[i] && longer[..i] == shorter;
    assert forall j :: 0 <= j < i ==> longer[j] == shorter[j];
  }

  /** The body of the decoder's loop. */
  method DecodeNext(index: nat, value: int, bits: nat, bytes: seq<Byte>, ghost ds: seq<nat>)
    returns (value': int, bits': nat, bytes': seq<Byte>)
    requires Decoding(ds, bytes, value, bits) && bits < 8 && index < 32
    ensures Decoding(ds + [index], bytes', value', bits') && bits' < 8
  {
    DecodeChar(ds, bytes, value, bits, index);
    value' := Or(Shl(value, 5), index);
    bits', bytes' := bits + 5, bytes;
    if bits' >= 8 {
      DecodeByte(ds + [index], bytes, value', bits');
      bytes' := bytes + [And(Shru(value', bits' - 8), 255)];
      bits' := bits' - 8;
    }
  }
}
