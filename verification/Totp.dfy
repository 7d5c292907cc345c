/**
  Time-based one-time passwords: the counter and the truncation of sections 5.2 and 5.3 of RFC 4226,
  the time steps of section 4.2 of RFC 6238. HMAC-SHA-1 is a parameter that answers 20 bytes.
*/
module Totp {
  import opened Base32
  import opened JsBits
  import opened Outcomes
  import opened Radix
  import opened Text

  type Digest = d: seq<Byte> | |d| == 20 witness seq(20, _ => 0)

  type Hmac = (seq<Byte>, seq<Byte>) -> Digest

  datatype TotpError = BadSecret | CounterOutOfRange

  const STEP_MS := 30_000
  const CODES := 1_000_000
  const TWO64 := 0x1_0000_0000_0000_0000

  // ---------------------------------------------------------------- what a code is

  function TimeStep(t: int): int { t / STEP_MS }

  /** The 8-byte counter of RFC 4226. */
  function Counter(step: nat): (c: seq<Byte>)
    ensures |c| == 8
  {
    ToDigits(Octet, step, 8)
  }

  /** Dynamic truncation: 31 bits at the place the last digest byte names. */
  function Truncate(d: Digest): (r: nat)
    ensures r < TWO31
  {
    var o := d[19] % 16;
    Value(Octet, d[o..o + 4]) % TWO31
  }

  function DigitChar(n: nat): char
    requires n < 10
  {
    '0' + n as char
  }

  /** The `w` low-order decimal digits of `n`. */
  function Fixed(n: nat, w: nat): (s: string)
    ensures |s| == w && forall i :: 0 <= i < w ==> '0' <= s[i] <= '9'
    decreases w, n
  {
    if w == 0 then "" else Fixed(n / 10, w - 1) + [DigitChar(n % 10)]
  }

  /** The number a string of decimal digits writes. */
  function Number(s: string): nat
    requires forall i :: 0 <= i < |s| ==> '0' <= s[i] <= '9'
  {
    if s == "" then 0 else 10 * Number(s[..|s| - 1]) + (s[|s| - 1] - '0') as nat
  }

  function Code(hmac: Hmac, key: seq<Byte>, step: nat): string {
    Fixed(Truncate(hmac(key, Counter(step))) % CODES, 6)
  }

  predicate IsCode(s: string) {
    |s| == 6 && forall i :: 0 <= i < 6 ==> '0' <= s[i] <= '9'
  }

  /** Six decimal digits, by their codes. */
  lemma {:induction false} CodeCharacters(s: string)
    ensures IsCode(s) <==> |s| == 6 && !exists i :: 0 <= i < |s| && !(48 <= s[i] as int <= 57)
  {}

  function Generate(hmac: Hmac, secret: string, t: int): Result<string, TotpError> {
    match Decode(secret)
    case Err(_) => Err(BadSecret)
    case Ok(key) =>
      if 0 <= TimeStep(t) < TWO64 then Ok(Code(hmac, key, TimeStep(t))) else Err(CounterOutOfRange)
  }

  /** Some time step within `window` of the current one has this code. */
  ghost predicate Accepts(hmac: Hmac, key: seq<Byte>, code: string, now: int, window: nat)
    requires TimeStep(now) >= window
  {
    exists step :: CodeNear(hmac, key, code, step, now, window)
  }

  predicate CodeNear(hmac: Hmac, key: seq<Byte>, code: string, step: int, now: int, window: nat) {
    && TimeStep(now) - window <= step <= TimeStep(now) + window
    && step >= 0 && Code(hmac, key, step) == code
  }

  // ---------------------------------------------------------------- decimal text

  function Pow10(w: nat): nat { if w == 0 then 1 else 10 * Pow10(w - 1) }

  /** `n.toString()` */
  function Decimal(n: nat): (s: string)
    ensures |s| > 0
  {
    if n < 10 then [DigitChar(n)] else Decimal(n / 10) + [DigitChar(n % 10)]
  }

  /** `s.padStart(w, "0")` */
  function PadStart(s: string, w: nat): string {
    if |s| >= w then s else Repeat('0', w - |s|) + s
  }

  lemma {:induction false} FixedZero(w: nat)
    ensures Fixed(0, w) == Repeat('0', w)
  {
    if w > 0 {
      FixedZero(w - 1);
      assert Repeat('0', w) == Repeat('0', w - 1) + "0";
    }
  }

  lemma {:induction false} PadStartSnoc(s: string, c: char, w: nat)
    requires |s| < w
    ensures PadStart(s + [c], w) == PadStart(s, w - 1) + [c]
  {}

  lemma {:induction false} TenthBelow(n: nat, w: nat)
    requires w > 0 && n < Pow10(w)
    ensures n / 10 < Pow10(w - 1)
  {}

  lemma {:induction false} PaddedDecimal(n: nat, w: nat)
    requires w > 0 && n < Pow10(w)
    ensures |Decimal(n)| <= w && PadStart(Decimal(n), w) == Fixed(n, w)
  {
    TenthBelow(n, w);
    if n < 10 {
      FixedZero(w - 1);
      PadStartSnoc("", DigitChar(n), w);
      assert "" + [DigitChar(n)] == Decimal(n);
      assert PadStart("", w - 1) == Repeat('0', w - 1);
    } else {
      assert w > 1;
      PaddedDecimal(n / 10, w - 1);
      PadStartSnoc(Decimal(n / 10), DigitChar(n % 10), w);
    }
  }

  lemma {:induction false} FixedNumber(n: nat, w: nat)
    requires n < Pow10(w)
    ensures Number(Fixed(n, w)) == n
    decreases w
  {
    if w > 0 {
      FixedNumber(n / 10, w - 1);
      var s := Fixed(n, w);
      assert s[..w - 1] == Fixed(n / 10, w - 1);
    }
  }

  lemma {:induction false} SixDigitRange()
    ensures Pow10(6) == CODES
  {
    assert Pow10(3) == 1000;
  }

  /** Codes are six decimal digits, and equal exactly when the truncated digests agree modulo 10^6. */
  lemma {:induction false} CodesAgree(hmac: Hmac, key: seq<Byte>, s: nat, t: nat)
    ensures IsCode(Code(hmac, key, s))
    ensures Code(hmac, key, s) == Code(hmac, key, t)
       <==> Truncate(hmac(key, Counter(s))) % CODES == Truncate(hmac(key, Counter(t))) % CODES
  {
    SixDigitRange();
    FixedNumber(Truncate(hmac(key, Counter(s))) % CODES, 6);
    FixedNumber(Truncate(hmac(key, Counter(t))) % CODES, 6);
  }

  // ---------------------------------------------------------------- the acceptance window

  /** With window 1 the accepted codes are those of three time steps. */
  lemma {:induction false} WindowOfOne(hmac: Hmac, key: seq<Byte>, code: string, now: int)
    requires now >= STEP_MS
    ensures var s := TimeStep(now);
            Accepts(hmac, key, code, now, 1) <==>
              code in {Code(hmac, key, s - 1), Code(hmac, key, s), Code(hmac, key, s + 1)}
  {
    var s := TimeStep(now);
    if Accepts(hmac, key, code, now, 1) {
      var step :| CodeNear(hmac, key, code, step, now, 1);
      assert step == s - 1 || step == s || step == s + 1;
    } else {
      assert !CodeNear(hmac, key, code, s - 1, now, 1);
      assert !CodeNear(hmac, key, code, s, now, 1);
      assert !CodeNear(hmac, key, code, s + 1, now, 1);
    }
  }

  /** The number a code writes is the truncated digest modulo a million. */
  lemma {:induction false} CodeNumber(hmac: Hmac, key: seq<Byte>, step: nat)
    ensures |Code(hmac, key, step)| == 6 && Number(Code(hmac, key, step)) == Truncate(hmac(key, Counter(step))) % 1_000_000
  {
    SixDigitRange();
    FixedNumber(Truncate(hmac(key, Counter(step))) % CODES, 6);
  }

  /**
    Generating, from the time and the digest: an error exactly for a secret that does not decode or a time
    outside the counter's range; else six digits that write, modulo a million, the 31 low bits of the four
    digest bytes at the place the last one names, for the eight bytes that write the number of half minutes.
  */
  lemma {:induction false} GeneratedIs(hmac: Hmac, secret: string, t: int)
    ensures Generate(hmac, secret, t).Ok? <==> Decode(secret).Ok? && 0 <= t && t / 30_000 < 0x1_0000_0000_0000_0000
    ensures Generate(hmac, secret, t) == Err(BadSecret) <==> Decode(secret).Err?
    ensures Generate(hmac, secret, t).Ok? ==>
              && TimeStep(t) == t / 30_000 && Value(Octet, Counter(TimeStep(t))) == TimeStep(t)
              && var c, d := Generate(hmac, secret, t).value, hmac(Decode(secret).value, Counter(TimeStep(t)));
                 var o := d[19] % 16;
                 IsCode(c) && Number(c) == Value(Octet, d[o..o + 4]) % 0x8000_0000 % 1_000_000
  {
    if Generate(hmac, secret, t).Ok? {
      var key := Decode(secret).value;
      CounterValue(TimeStep(t));
      CodesAgree(hmac, key, TimeStep(t), TimeStep(t));
      CodeNumber(hmac, key, TimeStep(t));
    }
  }

  // ---------------------------------------------------------------- the counter buffer

  lemma {:induction false} CounterValue(step: nat)
    requires step < TWO64
    ensures Value(Octet, Counter(step)) == step
  {
    ShiftBy32(1);
    DoubleDouble(1, 32, 32);
    ShiftBy32(Double(1, 32));
    ToDigitsValue(Octet, step, 8);
  }

  /** The two halves written by the source are the eight counter bytes. */
  lemma {:induction false} CounterHalves(step: nat)
    requires step < TWO64
    ensures Uint32BE(step / TWO32) + Uint32BE(step % TWO32) == Counter(step)
  {
    var hi, lo := step / TWO32, step % TWO32;
    var both := Uint32BE(hi) + Uint32BE(lo);
    Uint32Value(hi);
    Uint32Value(lo);
    ValueAppend(Octet, Uint32BE(hi), Uint32BE(lo));
    ShiftBy32(hi);
    CounterValue(step);
    DigitsUnique(Octet, both, Counter(step));
  }

  // ---------------------------------------------------------------- the truncation expression

  /** `((a & 0x7f) << 24) | ((b & 0xff) << 16) | ((c & 0xff) << 8) | (d & 0xff)` */
  function Assemble(a: Byte, b: Byte, c: Byte, d: Byte): int {
    Or(Or(Or(Shl(And(a, 0x7f), 24), Shl(And(b, 0xff), 16)), Shl(And(c, 0xff), 8)), And(d, 0xff))
  }

  lemma {:induction false} OrJoin(h: nat, k: nat, y: nat)
    requires y < Double(1, k) && Double(h, k) + y < TWO31
    ensures Double(h, k) >= 0 && Or(Double(h, k), y) == Double(h, k) + y
  {
    OrBitsDisjoint(h, y, k);
    SmallOr(Double(h, k), y);
  }

  lemma {:induction false} SmallOr(x: nat, y: nat)
    requires x < TWO31 && y < TWO31 && OrBits(x, y) == x + y && x + y < TWO31
    ensures Or(x, y) == x + y
  {
    assert ToUint32(x) == x;
    assert ToUint32(y) == y;
  }

  /** The four shifted parts occupy different bits. */
  lemma {:induction false} OrFour(x: nat, b: nat, c: nat, d: nat)
    requires x < 128 && b < 256 && c < 256 && d < 256
    ensures Or(Or(Or(0x100_0000 * x, 0x1_0000 * b), 0x100 * c), d) == 0x100_0000 * x + 0x1_0000 * b + 0x100 * c + d
  {
    OrTop(x, b);
    OrMiddle(256 * x + b, c);
    OrBottom(0x1_0000 * x + 256 * b + c, d);
  }

  lemma {:induction false} OrTop(x: nat, b: nat)
    requires x < 128 && b < 256
    ensures Or(0x100_0000 * x, 0x1_0000 * b) == 0x1_0000 * (256 * x + b)
  {
    ShiftBy32(1);
    ShiftBy32(x);
    OrJoin(x, 24, 0x1_0000 * b);
  }

  lemma {:induction false} OrMiddle(p: nat, c: nat)
    requires p < 0x8000 && c < 256
    ensures Or(0x1_0000 * p, 0x100 * c) == 0x100 * (256 * p + c)
  {
    ShiftBy32(1);
    ShiftBy32(p);
    OrJoin(p, 16, 0x100 * c);
  }

  lemma {:induction false} OrBottom(q: nat, d: nat)
    requires q < 0x80_0000 && d < 256
    ensures Or(0x100 * q, d) == 0x100 * q + d
  {
    ShiftBy8(1);
    ShiftBy8(q);
    OrJoin(q, 8, d);
  }

  lemma {:induction false} ShlSmall(x: nat)
    requires x < 256
    ensures x < 128 ==> Shl(x, 24) == 0x100_0000 * x
    ensures Shl(x, 16) == 0x1_0000 * x && Shl(x, 8) == 0x100 * x
  {
    ShiftBy32(x);
    ShiftBy8(x);
    SmallIsItself(0x1_0000 * x);
    SmallIsItself(0x100 * x);
    if x < 128 { SmallIsItself(0x100_0000 * x); }
  }

  lemma {:induction false} SmallIsItself(x: int)
    requires 0 <= x < TWO31
    ensures ToInt32(x) == x
  {}

  lemma {:induction false} TopPart(a: Byte)
    ensures Shl(And(a, 0x7f), 24) == 0x100_0000 * (a % 128)
  {
    AndBits127(a);
    SmallAnd(a, 0x7f, a % 128);
    ShlSmall(a % 128);
  }

  lemma {:induction false} LowPart(x: nat)
    requires x < 256
    ensures And(x, 0xff) == x && Shl(x, 16) == 0x1_0000 * x && Shl(x, 8) == 0x100 * x
  {
    assert And(x, 0xff) == x by { And255(x); }
    assert Shl(x, 16) == 0x1_0000 * x && Shl(x, 8) == 0x100 * x by { ShlSmall(x); }
  }

  lemma {:induction false} Assembled(a: Byte, b: Byte, c: Byte, d: Byte)
    ensures Assemble(a, b, c, d) == FourByteValue(a % 128, b, c, d)
  {
    TopPart(a);
    LowPart(b);
    LowPart(c);
    LowPart(d);
    OrFour(a % 128, b, c, d);
  }

  function FourByteValue(a: nat, b: nat, c: nat, d: nat): nat {
    0x100_0000 * a + 0x1_0000 * b + 0x100 * c + d
  }

  lemma {:induction false} FourBytes(s: seq<Byte>)
    requires |s| == 4
    ensures Value(Octet, s) == FourByteValue(s[0], s[1], s[2], s[3])
  {
    assert s[..3][..2] == s[..2] && s[..2][..1] == s[..1];
    assert Value(Octet, s[..1]) == s[0];
    assert Value(Octet, s[..2]) == 256 * s[0] as int + s[1];
    assert Value(Octet, s[..3]) == 0x1_0000 * s[0] as int + 256 * s[1] as int + s[2];
  }

  /** The shifts and masks compute the truncation, and read inside the digest. */
  lemma {:induction false} TruncationIs(d: Digest, o: nat)
    requires o == d[19] % 16
    ensures o + 3 < 20 && Assemble(d[o], d[o + 1], d[o + 2], d[o + 3]) == Truncate(d)
  {
    var s := d[o..o + 4];
    assert s[0] == d[o] && s[1] == d[o + 1] && s[2] == d[o + 2] && s[3] == d[o + 3];
    assert Value(Octet, s) % TWO31 == FourByteValue(s[0] % 128, s[1], s[2], s[3]) by {
      FourBytes(s);
      DropTopBit(s[0], FourByteValue(0, s[1], s[2], s[3]));
    }
    Assembled(s[0], s[1], s[2], s[3]);
  }

  lemma {:induction false} DropTopBit(a: nat, low: nat)
    requires a < 256 && low < 0x100_0000
    ensures (0x100_0000 * a + low) % TWO31 == 0x100_0000 * (a % 128) + low
  {
    assert (0x100_0000 * a + low) / TWO31 == a / 128;
  }

  // ---------------------------------------------------------------- the source's functions

  method GenerateTotpCode(hmac: Hmac, secret: string, forUnixTime: int) returns (r: Result<string, TotpError>)
    ensures r == Generate(hmac, secret, forUnixTime)
  {
    var key := Base32Decode(secret);
    if key.Err? {
      return Err(BadSecret);
    }
    var timestep := TimeStep(forUnixTime);
    var high := timestep / TWO32;
    if high < 0 || high >= TWO32 {
      return Err(CounterOutOfRange);
    }
    var counter := Uint32BE(high) + Uint32BE(ToUint32(timestep));
    CounterHalves(timestep);
    var digest := hmac(key.value, counter);
    And15(digest[19]);
    var offset := And(digest[19], 0x0f);
    TruncationIs(digest, offset);
    var binary := Assemble(digest[offset], digest[offset + 1], digest[offset + 2], digest[offset + 3]);
    SixDigitRange();
    PaddedDecimal(binary % CODES, 6);
    r := Ok(PadStart(Decimal(binary % CODES), 6));
  }

  lemma {:induction false} And15(x: Byte)
    ensures And(x, 0x0f) == x % 16
  {
    AndBits15(x);
    SmallAnd(x, 0x0f, x % 16);
  }

  /** The codes tried by verification, by their offset from the current time. */
  type Candidates = int -> Result<string, TotpError>

  function CandidatesAt(hmac: Hmac, secret: string, now: int): Candidates {
    offset => Generate(hmac, secret, now + offset * STEP_MS)
  }

  function OffsetsLeft(window: nat, offset: int): nat { if offset > window then 0 else window + 1 - offset }

  /** The first error or match at `offset` or later. */
  function Search(candidates: Candidates, code: string, window: nat, offset: int): Result<bool, TotpError>
    decreases OffsetsLeft(window, offset)
  {
    if offset > window then Ok(false)
    else match candidates(offset)
      case Err(e) => Err(e)
      case Ok(candidate) =>
        if candidate == code then Ok(true) else Search(candidates, code, window, offset + 1)
  }

  method TryOffsets(candidates: Candidates, code: string, window: nat) returns (r: Result<bool, TotpError>)
    ensures r == Search(candidates, code, window, 0 - window)
  {
    var offset: int := 0 - window;
    while offset <= window
      invariant offset <= window + 1
      invariant Search(candidates, code, window, 0 - window) == Search(candidates, code, window, offset)
    {
      var candidate := candidates(offset);
      if candidate.Err? {
        return Err(candidate.error);
      }
      if candidate.value == code {
        return Ok(true);
      }
      offset := offset + 1;
    }
    r := Ok(false);
  }

  /** Without errors, the search answers whether some offset of the window has the code. */
  lemma {:induction false} SearchFinds(candidates: Candidates, code: string, window: nat, offset: int)
    requires forall k :: offset <= k <= window ==> candidates(k).Ok?
    ensures Search(candidates, code, window, offset) == Ok(exists k :: offset <= k <= window && candidates(k) == Ok(code))
    decreases OffsetsLeft(window, offset)
  {
    if offset <= window {
      assert candidates(offset).Ok?;
      SearchFinds(candidates, code, window, offset + 1);
    }
  }

  method VerifyTotpCode(hmac: Hmac, secret: string, code: string, now: int, window: nat)
    returns (r: Result<bool, TotpError>)
    ensures r == Verify(hmac, secret, code, now, window)
  {
    var normalizedCode := Trim(code);
    if !IsCode(normalizedCode) {
      return Ok(false);
    }
    r := TryOffsets(CandidatesAt(hmac, secret, now), normalizedCode, window);
  }

  function Verify(hmac: Hmac, secret: string, code: string, now: int, window: nat): Result<bool, TotpError> {
    if !IsCode(Trim(code)) then Ok(false)
    else Search(CandidatesAt(hmac, secret, now), Trim(code), window, 0 - window)
  }

  /** Verification says no to what is not six digits; else it throws for a bad secret, and for a window that reaches before 1970. */
  lemma {:induction false} VerifyThrows(hmac: Hmac, secret: string, code: string, now: int, window: nat)
    ensures !IsCode(Trim(code)) ==> Verify(hmac, secret, code, now, window) == Ok(false)
    ensures IsCode(Trim(code)) && Decode(secret).Err? ==> Verify(hmac, secret, code, now, window) == Err(BadSecret)
    ensures IsCode(Trim(code)) && Decode(secret).Ok? && now < window * STEP_MS
            ==> Verify(hmac, secret, code, now, window) == Err(CounterOutOfRange)
  {
    ShiftedStep(now, 0 - window, window);
    var first := CandidatesAt(hmac, secret, now)(0 - window);
    assert first == Generate(hmac, secret, now - window * STEP_MS);
  }

  /** Otherwise, for every text, it answers whether a time step of the window has the code that trimming leaves. */
  lemma {:induction false} VerifyAccepts(hmac: Hmac, secret: string, key: seq<Byte>, code: string, now: int, window: nat)
    requires Decode(secret) == Ok(key)
    requires window * STEP_MS <= now && TimeStep(now) + window < TWO64
    ensures TimeStep(now) >= window
    ensures Verify(hmac, secret, code, now, window) == Ok(Accepts(hmac, key, Trim(code), now, window))
  {
    ShiftedStep(now, 0 - window, window);
    if IsCode(Trim(code)) {
      SearchAccepts(hmac, secret, key, Trim(code), now, window);
    } else if Accepts(hmac, key, Trim(code), now, window) {
      var step :| CodeNear(hmac, key, Trim(code), step, now, window);
      CodesAgree(hmac, key, step, step);
    }
  }

  lemma {:induction false} SearchAccepts(hmac: Hmac, secret: string, key: seq<Byte>, code: string, now: int, window: nat)
    requires Decode(secret) == Ok(key) && TimeStep(now) >= window && TimeStep(now) + window < TWO64
    ensures Search(CandidatesAt(hmac, secret, now), code, window, 0 - window) == Ok(Accepts(hmac, key, code, now, window))
  {
    CandidatesAreCodes(hmac, secret, key, now, window);
    SearchCodes(hmac, key, code, now, window, CandidatesAt(hmac, secret, now));
  }

  lemma {:induction false} SearchCodes(hmac: Hmac, key: seq<Byte>, code: string, now: int, window: nat, candidates: Candidates)
    requires TimeStep(now) >= window
    requires forall k :: 0 - window <= k <= window ==> candidates(k) == Ok(Code(hmac, key, TimeStep(now) + k))
    ensures Search(candidates, code, window, 0 - window) == Ok(Accepts(hmac, key, code, now, window))
  {
    SearchFinds(candidates, code, window, 0 - window);
    WindowOffsets(hmac, key, code, now, window, candidates);
  }

  /** For every text, verification with window 1 accepts exactly the codes of three adjacent time steps. */
  lemma {:induction false} ThreeSteps(hmac: Hmac, secret: string, key: seq<Byte>, code: string, now: int)
    requires Decode(secret) == Ok(key) && now >= 30_000 && now / 30_000 + 1 < TWO64
    ensures var s := now / 30_000;
            Verify(hmac, secret, code, now, 1) ==
              Ok(Trim(code) in {Code(hmac, key, s - 1), Code(hmac, key, s), Code(hmac, key, s + 1)})
  {
    VerifyAccepts(hmac, secret, key, code, now, 1);
    WindowOfOne(hmac, key, Trim(code), now);
  }

  /** Whatever was generated at most 30 s before or after is accepted, with any white space around it. */
  lemma {:induction false} RecentCodeAccepted(hmac: Hmac, secret: string, t: int, text: string, now: int)
    requires now >= 30_000 && now - 30_000 <= t <= now + 30_000 && now / 30_000 + 1 < TWO64
    ensures Generate(hmac, secret, t) == Ok(Trim(text)) ==> Verify(hmac, secret, text, now, 1) == Ok(true)
  {
    if Generate(hmac, secret, t) == Ok(Trim(text)) {
      var key := Decode(secret).value;
      VerifyAccepts(hmac, secret, key, text, now, 1);
      assert CodeNear(hmac, key, Trim(text), TimeStep(t), now, 1);
    }
  }

  /** And it comes without white space: a generated code is accepted as it is. */
  lemma {:induction false} GeneratedCodeIsTrimmed(hmac: Hmac, secret: string, t: int)
    ensures var r := Generate(hmac, secret, t); r.Ok? ==> IsCode(r.value) && Trim(r.value) == r.value
  {
    var r := Generate(hmac, secret, t);
    if r.Ok? {
      CodesAgree(hmac, Decode(secret).value, TimeStep(t), TimeStep(t));
      CodeIsTrimmed(r.value);
    }
  }

  lemma {:induction false} CandidatesAreCodes(hmac: Hmac, secret: string, key: seq<Byte>, now: int, window: nat)
    requires Decode(secret) == Ok(key)
    requires TimeStep(now) >= window && TimeStep(now) + window < TWO64
    ensures forall k :: 0 - window <= k <= window ==>
              CandidatesAt(hmac, secret, now)(k) == Ok(Code(hmac, key, TimeStep(now) + k))
  {
    forall k | 0 - window <= k <= window
      ensures CandidatesAt(hmac, secret, now)(k) == Ok(Code(hmac, key, TimeStep(now) + k))
    {
      ShiftedStep(now, k, window);
    }
  }

  lemma {:induction false} WindowOffsets(hmac: Hmac, key: seq<Byte>, code: string, now: int, window: nat, candidates: Candidates)
    requires TimeStep(now) >= window
    requires forall k :: 0 - window <= k <= window ==> candidates(k) == Ok(Code(hmac, key, TimeStep(now) + k))
    ensures (exists k :: 0 - window <= k <= window && candidates(k) == Ok(code)) <==> Accepts(hmac, key, code, now, window)
  {
    if Accepts(hmac, key, code, now, window) {
      var step :| CodeNear(hmac, key, code, step, now, window);
      assert candidates(step - TimeStep(now)) == Ok(code);
    }
    if k :| 0 - window <= k <= window && candidates(k) == Ok(code) {
      assert CodeNear(hmac, key, code, TimeStep(now) + k, now, window);
    }
  }

  lemma {:induction false} CodeIsTrimmed(code: string)
    requires IsCode(code)
    ensures Trim(code) == code
  {
    NothingToTrim(code);
  }

  lemma {:induction false} ShiftedStep(now: int, offset: int, window: nat)
    requires 0 <= offset + window <= 2 * window
    ensures TimeStep(now + offset * STEP_MS) == TimeStep(now) + offset
    ensures now >= window * STEP_MS <==> TimeStep(now) - window >= 0
  {}
}
