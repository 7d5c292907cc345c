/**
  The `string` and `mpint` encodings of section 5 of RFC 4251 and the "ssh-rsa" public key blob of
  section 6.6 of RFC 4253, with a parser for them.
*/
module SshWire {
  import opened JsBits
  import opened Outcomes
  import opened Radix

  datatype WireError = LengthOutOfRange

  // ---------------------------------------------------------------- the parser of RFC 4251

  datatype Parsed = Parsed(data: seq<Byte>, rest: seq<Byte>)

  function ParseString(b: seq<Byte>): Option<Parsed> {
    if |b| < 4 then None
    else
      var n := Value(Octet, b[..4]);
      if |b| - 4 < n then None else Some(Parsed(b[4..4 + n], b[4 + n..]))
  }

  /** Two's complement, most significant byte first. */
  function Signed(d: seq<Byte>): int {
    if d == [] || d[0] < 128 then Value(Octet, d) else Value(Octet, d) - Double(1, 8 * |d|)
  }

  /** No leading byte may be dropped without changing the number; zero has no bytes at all. */
  predicate IsMinimal(d: seq<Byte>) {
    d != [] ==>
      && !(d[0] == 0 && (|d| == 1 || d[1] < 128))
      && !(d[0] == 255 && |d| > 1 && d[1] >= 128)
  }

  datatype RsaKey = RsaKey(keyType: seq<Byte>, exponent: int, modulus: int)

  /** The key blob: the key type, then the exponent, then the modulus, and nothing after it. */
  function ParseKey(b: seq<Byte>): Option<RsaKey> {
    match ParseString(b)
    case None => None
    case Some(t) => match ParseString(t.rest)
      case None => None
      case Some(e) => match ParseString(e.rest)
        case None => None
        case Some(n) =>
          if n.rest != [] then None else Some(RsaKey(t.data, Signed(e.data), Signed(n.data)))
  }

  // ---------------------------------------------------------------- what is written

  function SshRsa(): seq<Byte> { [115, 115, 104, 45, 114, 115, 97] }

  /** The key type is the text "ssh-rsa", one byte a character. */
  lemma {:induction false} KeyTypeText()
    ensures |SshRsa()| == |"ssh-rsa"| && forall i :: 0 <= i < |SshRsa()| ==> SshRsa()[i] == "ssh-rsa"[i] as int
  {}

  predicate Fits(data: seq<Byte>) { |data| < TWO32 }

  function Field(data: seq<Byte>): seq<Byte> { Uint32BE(|data|) + data }

  /** Leading zero bytes removed, down to a single byte. */
  function Strip(d: seq<Byte>): seq<Byte> {
    if |d| > 1 && d[0] == 0 then Strip(d[1..]) else d
  }

  function MpintBytes(d: seq<Byte>): (m: seq<Byte>)
    ensures |m| > 0
  {
    var v := if Strip(d) == [] then [0] else Strip(d);
    if v[0] >= 128 then [0] + v else v
  }

  function KeyBlob(n: seq<Byte>, e: seq<Byte>): seq<Byte> {
    Field(SshRsa()) + Field(MpintBytes(e)) + Field(MpintBytes(n))
  }

  // ---------------------------------------------------------------- round trips

  lemma {:induction false} StringRoundTrip(data: seq<Byte>, rest: seq<Byte>)
    requires Fits(data)
    ensures ParseString(Field(data) + rest) == Some(Parsed(data, rest))
  {
    var b := Field(data) + rest;
    assert b[..4] == Uint32BE(|data|);
    Uint32Value(|data|);
    assert b[4..4 + |data|] == data;
    assert b[4 + |data|..] == rest;
  }

  lemma {:induction false} StripValue(d: seq<Byte>)
    ensures Value(Octet, Strip(d)) == Value(Octet, d)
    ensures |Strip(d)| > 1 ==> Strip(d)[0] != 0
    ensures Strip(d) == [] <==> d == []
  {
    if |d| > 1 && d[0] == 0 {
      StripValue(d[1..]);
      LeadingZero(Octet, d[1..]);
      assert d == [0] + d[1..];
    }
  }

  /** An mpint is non-negative, stands for the number its bytes wrote, and is minimal unless that is zero. */
  lemma {:induction false} MpintMeans(d: seq<Byte>)
    ensures MpintBytes(d)[0] < 128
    ensures Signed(MpintBytes(d)) == Value(Octet, d)
    ensures IsMinimal(MpintBytes(d)) <==> Value(Octet, d) > 0
  {
    StripValue(d);
    var s := Strip(d);
    if s == [] {
      SingleByte(0);
    } else {
      LeadingZero(Octet, s);
      if s[0] != 0 { LeadingDigitPositive(Octet, s); }
      if |s| == 1 { SingleByte(s[0]); }
    }
  }

  lemma {:induction false} SingleByte(x: Byte)
    ensures Value(Octet, [x]) == x
  {
    ValueSnoc(Octet, [], x);
    assert [] + [x] == [x];
  }

  /** Leading zeros never matter: the bytes written are equal exactly when the numbers are. */
  lemma {:induction false} MpintCanonical(d: seq<Byte>, d': seq<Byte>)
    ensures MpintBytes(d) == MpintBytes(d') <==> Value(Octet, d) == Value(Octet, d')
  {
    MpintMeans(d);
    MpintMeans(d');
    if Value(Octet, d) == Value(Octet, d') {
      StripCanonical(d);
      StripCanonical(d');
      MinimalWidth(Octet, Significant(d), Significant(d'));
    }
  }

  /** The bytes from the first non-zero one on. */
  function Significant(d: seq<Byte>): seq<Byte> {
    if Strip(d) == [] || Strip(d)[0] == 0 then [] else Strip(d)
  }

  lemma {:induction false} StripCanonical(d: seq<Byte>)
    ensures Value(Octet, Significant(d)) == Value(Octet, d)
    ensures Significant(d) != [] ==> Significant(d)[0] != 0
    ensures MpintBytes(d) == if Significant(d) == [] then [0]
                             else if Significant(d)[0] >= 128 then [0] + Significant(d) else Significant(d)
  {
    StripValue(d);
    if |Strip(d)| == 1 {
      SingleByte(Strip(d)[0]);
      assert Strip(d) == [Strip(d)[0]];
    }
  }

  /** The parser recovers the key type, the exponent and the modulus from the blob. */
  lemma {:induction false} KeyRoundTrip(n: seq<Byte>, e: seq<Byte>)
    requires Fits(MpintBytes(n)) && Fits(MpintBytes(e))
    ensures ParseKey(KeyBlob(n, e)) == Some(RsaKey(SshRsa(), Value(Octet, e), Value(Octet, n)))
  {
    var ft, fe, fn := Field(SshRsa()), Field(MpintBytes(e)), Field(MpintBytes(n));
    assert KeyBlob(n, e) == ft + (fe + fn);
    StringRoundTrip(SshRsa(), fe + fn);
    StringRoundTrip(MpintBytes(e), fn);
    assert fn == fn + [];
    StringRoundTrip(MpintBytes(n), []);
    MpintMeans(e);
    MpintMeans(n);
  }

  // ---------------------------------------------------------------- the source's functions

  method EncodeSshField(data: seq<Byte>) returns (r: Result<seq<Byte>, WireError>)
    ensures r == if Fits(data) then Ok(Field(data)) else Err(LengthOutOfRange)
  {
    if |data| >= TWO32 {
      return Err(LengthOutOfRange);
    }
    r := Ok(Uint32BE(|data|) + data);
  }

  method EncodeMpint(data: seq<Byte>) returns (r: Result<seq<Byte>, WireError>)
    ensures r == if Fits(MpintBytes(data)) then Ok(Field(MpintBytes(data))) else Err(LengthOutOfRange)
  {
    var value := data;
    while |value| > 1 && value[0] == 0
      invariant Strip(value) == Strip(data)
      decreases |value|
    {
      value := value[1..];
    }
    if |value| == 0 {
      value := [0];
    }
    And128(value[0]);
    if And(value[0], 0x80) != 0 {
      value := [0] + value;
    }
    r := EncodeSshField(value);
  }

  method BuildSshRsaPublicKey(n: seq<Byte>, e: seq<Byte>) returns (r: Result<seq<Byte>, WireError>)
    ensures r == if Fits(MpintBytes(e)) && Fits(MpintBytes(n)) then Ok(KeyBlob(n, e)) else Err(LengthOutOfRange)
    ensures r.Ok? ==> ParseKey(r.value) == Some(RsaKey(SshRsa(), Value(Octet, e), Value(Octet, n)))
  {
    var keyType := EncodeSshField(SshRsa());
    var exponent := EncodeMpint(e);
    if exponent.Err? {
      return exponent;
    }
    var modulus := EncodeMpint(n);
    if modulus.Err? {
      return modulus;
    }
    KeyRoundTrip(n, e);
    r := Ok(keyType.value + exponent.value + modulus.value);
  }
}
