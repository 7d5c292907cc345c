/** What `base32Decode` makes of any text: which characters count, which are errors, and which bytes come out. */
module Base32Input {
  import opened Base32
  import opened Outcomes
  import opened Radix
  import opened Text

  /** The characters that count: white space is skipped, letters are raised. */
  function Significant(s: string): string {
    if s == "" then "" else (if IsSpace(s[0]) then "" else Upper(s[0])) + Significant(s[1..])
  }

  /** The value of a digit character, by its code. */
  function DigitValue(c: char): Option<nat> {
    var n := c as int;
    if 65 <= n <= 90 then Some(n - 65) else if 50 <= n <= 55 then Some(n - 50 + 26) else None
  }

  predicate AllDigits(text: string) { forall i :: 0 <= i < |text| ==> DigitValue(text[i]).Some? }

  lemma {:induction false} NotFound(c: char, from: nat)
    requires from <= 32 && DigitValue(c).None?
    ensures IndexFrom(c, from) == -1
    decreases 32 - from
  {
    if from < 32 { NotFound(c, from + 1); }
  }

  lemma {:induction false} IndexIsDigitValue(c: char)
    ensures IndexOf(c) == if DigitValue(c).Some? then DigitValue(c).value else -1
  {
    if DigitValue(c).Some? {
      IndexFromFinds(DigitValue(c).value, 0);
    } else {
      NotFound(c, 0);
    }
  }

  // ---------------------------------------------------------------- normalizing

  lemma {:induction false} UpperAppend(a: string, b: string)
    ensures ToUpper(a + b) == ToUpper(a) + ToUpper(b)
  {
    if a == "" {
      assert a + b == b;
    } else {
      assert (a + b)[1..] == a[1..] + b;
      UpperAppend(a[1..], b);
    }
  }

  lemma {:induction false} RemoveAppend(a: string, b: string)
    ensures RemoveSpaces(a + b) == RemoveSpaces(a) + RemoveSpaces(b)
  {
    if a == "" {
      assert a + b == b;
    } else {
      assert (a + b)[1..] == a[1..] + b;
      RemoveAppend(a[1..], b);
    }
  }

  lemma {:induction false} OneCharacter(c: char)
    ensures RemoveSpaces(Upper(c)) == if IsSpace(c) then "" else Upper(c)
    ensures Upper(c) != "" && (c != '=' ==> Upper(c)[|Upper(c)| - 1] != '=')
  {
    if !IsSpace(c) { NoSpacesToRemove(Upper(c)); }
  }

  lemma {:induction false} RaisedAndSkipped(s: string)
    ensures RemoveSpaces(ToUpper(s)) == Significant(s)
  {
    if s != "" {
      RaisedAndSkipped(s[1..]);
      RemoveAppend(Upper(s[0]), ToUpper(s[1..]));
      OneCharacter(s[0]);
    }
  }

  lemma {:induction false} PaddingStaysUp(n: nat)
    ensures ToUpper(Repeat('=', n)) == Repeat('=', n)
  {
    AlreadyUpper(Repeat('=', n));
  }

  lemma {:induction false} StripOnly(u: string, n: nat)
    requires u == "" || u[|u| - 1] != '='
    ensures StripTrailing(u + Repeat('=', n), '=') == u
  {
    var s := u + Repeat('=', n);
    if n == 0 {
      assert s == u;
    } else {
      assert s[..|s| - 1] == u + Repeat('=', n - 1);
      StripOnly(u, n - 1);
    }
  }

  lemma {:induction false} LastRaised(s: string)
    requires s == "" || s[|s| - 1] != '='
    ensures ToUpper(s) == "" || ToUpper(s)[|ToUpper(s)| - 1] != '='
  {
    if s != "" {
      var k := |s| - 1;
      assert s == s[..k] + [s[k]] && [s[k]][1..] == "";
      UpperAppend(s[..k], [s[k]]);
      assert ToUpper([s[k]]) == Upper(s[k]);
      OneCharacter(s[k]);
    }
  }

  /** Padding at the very end is dropped, and the rest is read character by character. */
  lemma {:induction false} NormalizeIs(s: string, n: nat)
    requires s == "" || s[|s| - 1] != '='
    ensures Normalize(s + Repeat('=', n)) == Significant(s)
  {
    UpperAppend(s, Repeat('=', n));
    PaddingStaysUp(n);
    LastRaised(s);
    StripOnly(ToUpper(s), n);
    RaisedAndSkipped(s);
  }

  // ---------------------------------------------------------------- the bytes

  lemma {:induction false} HalveBounds(x: nat, k: nat)
    ensures Double(Halve(x, k), k) <= x < Double(Halve(x, k) + 1, k)
    decreases k, x
  {
    if k > 0 {
      HalveBounds(x / 2, k - 1);
      DoubleSum(Halve(x / 2, k - 1), 1, k - 1);
    }
  }

  lemma {:induction false} BelowHalved(x: nat, m: nat, r: nat)
    requires x < Double(Double(1, m), r)
    ensures 0 <= Halve(x, r) < Double(1, m)
  {
    HalveNat(x, r);
    HalveBounds(x, r);
    if Halve(x, r) > Double(1, m) {
      DoubleStrict(Double(1, m), Halve(x, r), r);
    }
  }

  /** The bytes hold the leading bits of the digits, as many as make whole bytes. */
  lemma {:induction false} LeadingBits(ds: seq<nat>)
    requires AreDigits(Quintet, ds)
    ensures var bytes, rest := DecodeDigits(ds), 5 * |ds| % 8;
            && 8 * |bytes| + rest == 5 * |ds|
            && Double(Value(Octet, bytes), rest) <= Value(Quintet, ds) < Double(Value(Octet, bytes) + 1, rest)
  {
    var x, m, r := Value(Quintet, ds), 5 * |ds| / 8, 5 * |ds| % 8;
    ValueBound(Quintet, ds);
    DoubleDouble(1, 8 * m, r);
    BelowHalved(x, 8 * m, r);
    ToDigitsValue(Octet, Halve(x, r), m);
    HalveBounds(x, r);
  }

  /**
    Every text: the characters before the padding that count must all be digits, else it is an error; and
    the bytes are the leading bits of those digits.
  */
  lemma {:induction false} DecodeMeans(s: string, n: nat) returns (ds: seq<nat>)
    requires s == "" || s[|s| - 1] != '='
    ensures var text, r := Significant(s), Decode(s + Repeat('=', n));
            && (r.Ok? <==> AllDigits(text))
            && (r.Ok? ==>
                  && |ds| == |text| && (forall i :: 0 <= i < |text| ==> DigitValue(text[i]) == Some(ds[i]))
                  && 8 * |r.value| + 5 * |ds| % 8 == 5 * |ds|
                  && Double(Value(Octet, r.value), 5 * |ds| % 8) <= Value(Quintet, ds) < Double(Value(Octet, r.value) + 1, 5 * |ds| % 8))
  {
    NormalizeIs(s, n);
    var text := Significant(s);
    forall i | 0 <= i < |text| ensures IndexOf(text[i]) >= 0 <==> DigitValue(text[i]).Some? { IndexIsDigitValue(text[i]); }
    ds := [];
    if IsBase32(text) {
      ds := Indices(text);
      forall i | 0 <= i < |text| ensures DigitValue(text[i]) == Some(ds[i]) { IndexIsDigitValue(text[i]); }
      LeadingBits(ds);
    }
  }
}
