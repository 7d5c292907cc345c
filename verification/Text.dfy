/** The string operations of the source's standard library that the models call. */
module Text {

  /** The characters matched by `\s` and removed by `trim`. */
  predicate IsSpace(c: char) {
    || c == ' ' || '\t' <= c <= '\r'
    || c == '\U{00A0}' || c == '\U{1680}' || '\U{2000}' <= c <= '\U{200A}' || c == '\U{2028}' || c == '\U{2029}'
    || c == '\U{202F}' || c == '\U{205F}' || c == '\U{3000}' || c == '\U{FEFF}'
  }

  /**
    `toUpperCase` of one character, as far as ASCII is concerned: the letters, and the ten others whose
    upper case is written with ASCII letters alone. All other characters keep a character outside ASCII.
  */
  function Upper(c: char): string {
    match c
    case '\U{00DF}' => "SS"
    case '\U{0131}' => "I"
    case '\U{017F}' => "S"
    case '\U{FB00}' => "FF"
    case '\U{FB01}' => "FI"
    case '\U{FB02}' => "FL"
    case '\U{FB03}' => "FFI"
    case '\U{FB04}' => "FFL"
    case '\U{FB05}' => "ST"
    case '\U{FB06}' => "ST"
    case _ => if 'a' <= c <= 'z' then [c - 'a' + 'A'] else [c]
  }

  function ToUpper(s: string): string {
    if s == [] then [] else Upper(s[0]) + ToUpper(s[1..])
  }

  lemma {:induction false} AlreadyUpper(s: string)
    requires forall i :: 0 <= i < |s| ==> Upper(s[i]) == [s[i]]
    ensures ToUpper(s) == s
  {
    if s != [] {
      AlreadyUpper(s[1..]);
      assert s == [s[0]] + s[1..];
    }
  }

  /** `replace(/c+$/, "")` */
  function StripTrailing(s: string, c: char): (r: string)
    ensures r <= s && (r == [] || r[|r| - 1] != c)
    ensures forall i :: |r| <= i < |s| ==> s[i] == c
  {
    if s != [] && s[|s| - 1] == c then StripTrailing(s[..|s| - 1], c) else s
  }

  /** `replace(/\s+/g, "")` */
  function RemoveSpaces(s: string): string {
    if s == [] then []
    else if IsSpace(s[0]) then RemoveSpaces(s[1..])
    else [s[0]] + RemoveSpaces(s[1..])
  }

  function TrimStart(s: string): string {
    if s != [] && IsSpace(s[0]) then TrimStart(s[1..]) else s
  }

  function TrimEnd(s: string): string {
    if s != [] && IsSpace(s[|s| - 1]) then TrimEnd(s[..|s| - 1]) else s
  }

  function Trim(s: string): string { TrimEnd(TrimStart(s)) }

  /** `replace(/\s+/g, " ")` */
  function CollapseSpaces(s: string): string {
    if s == [] then []
    else if !IsSpace(s[0]) then [s[0]] + CollapseSpaces(s[1..])
    else if |s| > 1 && IsSpace(s[1]) then CollapseSpaces(s[1..])
    else " " + CollapseSpaces(s[1..])
  }

  lemma {:induction false} NoSpacesToRemove(s: string)
    requires forall i :: 0 <= i < |s| ==> !IsSpace(s[i])
    ensures RemoveSpaces(s) == s
  {
    if s != [] {
      NoSpacesToRemove(s[1..]);
      assert s == [s[0]] + s[1..];
    }
  }

  lemma {:induction false} NothingToTrim(s: string)
    requires forall i :: 0 <= i < |s| ==> !IsSpace(s[i])
    ensures Trim(s) == s
  {}

  // ---------------------------------------------------------------- what they do

  predicate AllSpace(s: string) { forall i :: 0 <= i < |s| ==> IsSpace(s[i]) }

  /** Tab to carriage return, the space, the no-break space and the other Unicode spaces, by their codes. */
  lemma {:induction false} SpaceCodes(c: char)
    ensures var n := c as int;
            IsSpace(c) <==> 9 <= n <= 13 || n == 32 || n == 160 || n == 5760 || 8192 <= n <= 8202
                            || n == 8232 || n == 8233 || n == 8239 || n == 8287 || n == 12288 || n == 65279
  {}

  /** Raising by codes: a to z, sharp s, dotless i, long s and the seven Latin ligatures; the rest is kept. */
  lemma {:induction false} UpperCodes(c: char)
    ensures var n := c as int;
            && (97 <= n <= 122 ==> Upper(c) == [(n - 32) as char])
            && (n == 223 ==> Upper(c) == "SS") && (n == 305 ==> Upper(c) == "I") && (n == 383 ==> Upper(c) == "S")
            && (n == 64256 ==> Upper(c) == "FF") && (n == 64257 ==> Upper(c) == "FI") && (n == 64258 ==> Upper(c) == "FL")
            && (n == 64259 ==> Upper(c) == "FFI") && (n == 64260 ==> Upper(c) == "FFL")
            && (n == 64261 || n == 64262 ==> Upper(c) == "ST")
            && (!(97 <= n <= 122) && n != 223 && n != 305 && n != 383 && !(64256 <= n <= 64262) ==> Upper(c) == [c])
  {}

  lemma {:induction false} TrimStartOf(pre: string, s: string)
    requires AllSpace(pre)
    ensures TrimStart(pre + s) == TrimStart(s)
  {
    if pre == [] {
      assert pre + s == s;
    } else {
      assert (pre + s)[1..] == pre[1..] + s;
      TrimStartOf(pre[1..], s);
    }
  }

  lemma {:induction false} TrimEndOf(s: string, post: string)
    requires AllSpace(post)
    ensures TrimEnd(s + post) == TrimEnd(s)
  {
    if post == [] {
      assert s + post == s;
    } else {
      var k := |post| - 1;
      assert (s + post)[..|s + post| - 1] == s + post[..k];
      TrimEndOf(s, post[..k]);
    }
  }

  /** The text has no white space at either end. */
  predicate IsTrimmed(s: string) { s == "" || (!IsSpace(s[0]) && !IsSpace(s[|s| - 1])) }

  /** Trimming removes the white space around a text and nothing else. */
  lemma {:induction false} TrimOf(pre: string, core: string, post: string)
    requires AllSpace(pre) && IsTrimmed(core) && AllSpace(post)
    ensures Trim(pre + core + post) == core
  {
    assert pre + core + post == pre + (core + post);
    TrimStartOf(pre, core + post);
    if core == "" {
      assert core + post == post && post == post + "";
      TrimStartOf(post, "");
    } else {
      assert TrimStart(core + post) == core + post;
      TrimEndOf(core, post);
    }
  }

  lemma {:induction false} StartSplits(s: string) returns (pre: string)
    ensures AllSpace(pre) && s == pre + TrimStart(s)
    ensures TrimStart(s) == "" || !IsSpace(TrimStart(s)[0])
  {
    pre := "";
    if s != [] && IsSpace(s[0]) {
      var p := StartSplits(s[1..]);
      pre := [s[0]] + p;
      assert s == [s[0]] + s[1..];
    }
  }

  lemma {:induction false} EndSplits(s: string) returns (post: string)
    ensures AllSpace(post) && s == TrimEnd(s) + post
    ensures TrimEnd(s) == "" || !IsSpace(TrimEnd(s)[|TrimEnd(s)| - 1])
  {
    post := "";
    if s != [] && IsSpace(s[|s| - 1]) {
      var p := EndSplits(s[..|s| - 1]);
      post := p + [s[|s| - 1]];
      assert s == s[..|s| - 1] + [s[|s| - 1]];
    }
  }

  /** And every text is such a text. */
  lemma {:induction false} TrimSplits(s: string) returns (pre: string, core: string, post: string)
    ensures AllSpace(pre) && IsTrimmed(core) && AllSpace(post) && s == pre + core + post
  {
    pre := StartSplits(s);
    post := EndSplits(TrimStart(s));
    core := TrimEnd(TrimStart(s));
    assert core != "" ==> core[0] == TrimStart(s)[0];
  }

  /** Trimming leaves nothing exactly of white space. */
  lemma {:induction false} TrimEmpty(s: string)
    ensures Trim(s) == "" <==> AllSpace(s)
  {
    var pre, core, post := TrimSplits(s);
    TrimOf(pre, core, post);
    if core != "" { assert s[|pre|] == core[0]; }
  }

  /** A word stays as it is. */
  lemma {:induction false} CollapseWord(w: string)
    requires forall i :: 0 <= i < |w| ==> !IsSpace(w[i])
    ensures CollapseSpaces(w) == w
  {
    if w != [] {
      CollapseWord(w[1..]);
      assert w == [w[0]] + w[1..];
    }
  }

  lemma {:induction false} CollapseLeading(gap: string, b: string)
    requires gap != "" && AllSpace(gap) && (b == "" || !IsSpace(b[0]))
    ensures CollapseSpaces(gap + b) == " " + CollapseSpaces(b)
  {
    var s := gap + b;
    assert s[0] == gap[0] && s[1..] == gap[1..] + b;
    if |gap| > 1 {
      assert s[1] == gap[1];
      CollapseLeading(gap[1..], b);
    } else {
      assert s[1..] == b;
    }
  }

  /** A gap of any white space becomes one space; what is on its sides is treated by itself. */
  lemma {:induction false} CollapseGap(a: string, gap: string, b: string)
    requires a == "" || !IsSpace(a[|a| - 1])
    requires gap != "" && AllSpace(gap) && (b == "" || !IsSpace(b[0]))
    ensures CollapseSpaces(a + gap + b) == CollapseSpaces(a) + " " + CollapseSpaces(b)
  {
    if a == "" {
      assert a + gap + b == gap + b;
      CollapseLeading(gap, b);
    } else {
      var s := a + gap + b;
      assert s[0] == a[0] && s[1..] == a[1..] + gap + b;
      if |a| > 1 { assert s[1] == a[1]; }
      CollapseGap(a[1..], gap, b);
    }
  }
}
